/** The charge attack's delayed volleys.  `pending_waves` holds the queued
    waves; on every tick the waves whose delay the wave timer has reached
    are fired and then removed one by one with `list.remove`. */
module WaveScheduler {
  import opened Vectors
  import opened BossPatterns
  import opened Lists

  /** The waves due at timer value `t`, in stored order. */
  function Due(ws: seq<Wave>, t: real): (d: seq<Wave>)
    ensures |d| <= |ws|
    ensures forall i :: 0 <= i < |d| ==> d[i].delay <= t
  {
    if ws == [] then []
    else
      (if ws[0].delay <= t then [ws[0]] else []) + Due(ws[1..], t)
  }

  /** The waves still waiting at timer value `t`, in stored order. */
  function Waiting(ws: seq<Wave>, t: real): (d: seq<Wave>)
    ensures |d| <= |ws|
    ensures forall i :: 0 <= i < |d| ==> d[i].delay > t
  {
    if ws == [] then []
    else
      (if ws[0].delay > t then [ws[0]] else []) + Waiting(ws[1..], t)
  }

  /** How many bullets a list of waves holds. */
  function TotalBolts(ws: seq<Wave>): nat {
    if ws == [] then 0 else |ws[0].bolts| + TotalBolts(ws[1..])
  }

  /** The bullets of `ws`, wave after wave, all leaving from `origin`. */
  function Released(origin: Vec, ws: seq<Wave>): (r: seq<Shot>)
    ensures |r| == TotalBolts(ws)
    ensures forall i :: 0 <= i < |r| ==> r[i].origin == origin
  {
    if ws == [] then [] else Fire(origin, ws[0].bolts) + Released(origin, ws[1..])
  }

  lemma {:induction false} DueAppend(a: seq<Wave>, b: seq<Wave>, t: real)
    ensures Due(a + b, t) == Due(a, t) + Due(b, t)
  {
    if a == [] {
      assert a + b == b;
    } else {
      assert (a + b)[0] == a[0] && (a + b)[1..] == a[1..] + b;
      DueAppend(a[1..], b, t);
    }
  }

  lemma {:induction false} ReleasedAppend(origin: Vec, a: seq<Wave>, b: seq<Wave>)
    ensures Released(origin, a + b) == Released(origin, a) + Released(origin, b)
  {
    if a == [] {
      assert a + b == b;
    } else {
      assert (a + b)[0] == a[0] && (a + b)[1..] == a[1..] + b;
      ReleasedAppend(origin, a[1..], b);
    }
  }

  /** One more queued wave looked at: it joins the due ones exactly when its
      delay has been reached. */
  lemma DueStep(ws: seq<Wave>, k: nat, t: real)
    requires k < |ws|
    ensures Due(ws[..k + 1], t) == Due(ws[..k], t) + (if ws[k].delay <= t then [ws[k]] else [])
  {
    assert ws[..k + 1] == ws[..k] + [ws[k]];
    DueAppend(ws[..k], [ws[k]], t);
    assert Due([ws[k]], t) == (if ws[k].delay <= t then [ws[k]] else []) + Due([], t);
  }

  /** Firing one more wave appends its bullets. */
  lemma ReleasedStep(origin: Vec, ws: seq<Wave>, w: Wave)
    ensures Released(origin, ws + [w]) == Released(origin, ws) + Fire(origin, w.bolts)
  {
    ReleasedAppend(origin, ws, [w]);
    assert Released(origin, [w]) == Fire(origin, w.bolts) + Released(origin, []);
  }

  /** Removing the due waves one at a time with `list.remove` leaves exactly
      the waiting ones, in their stored order: every due wave goes, even when
      equal waves are queued. */
  lemma {:induction false} RemovingDueLeavesWaiting(ws: seq<Wave>, t: real)
    ensures RemoveEach(ws, Due(ws, t)) == Waiting(ws, t)
  {
    if ws != [] {
      var x, rest := ws[0], ws[1..];
      assert ws == [x] + rest;
      RemovingDueLeavesWaiting(rest, t);
      if x.delay <= t {
        assert Due(ws, t) == [x] + Due(rest, t);
        assert RemoveFirst(ws, x) == rest;
      } else {
        assert Due(ws, t) == Due(rest, t);
        RemoveEachKeepsHead(x, rest, Due(rest, t));
      }
    }
  }

  /** A tick splits the queue: every wave is either fired or kept, never
      both, never lost. */
  lemma {:induction false} DueWaitingPartition(ws: seq<Wave>, t: real)
    ensures multiset(Due(ws, t)) + multiset(Waiting(ws, t)) == multiset(ws)
  {
    if ws != [] {
      assert ws == [ws[0]] + ws[1..];
      DueWaitingPartition(ws[1..], t);
    }
  }

  /** The waves kept at one tick are none of them due at that timer
      value. */
  lemma {:induction false} WaitingNotDue(ws: seq<Wave>, t: real)
    ensures Due(Waiting(ws, t), t) == []
  {
    NothingDueYet(Waiting(ws, t), t);
  }

  /** A kept wave stays kept for as long as the timer has not reached its
      delay. */
  lemma {:induction false} WaitingIsStable(ws: seq<Wave>, t: real, t': real)
    requires t <= t'
    ensures Waiting(Waiting(ws, t), t') == Waiting(ws, t')
  {
    if ws != [] {
      WaitingIsStable(ws[1..], t, t');
      var x := ws[0];
      if x.delay > t {
        var w := Waiting(ws, t);
        assert w == [x] + Waiting(ws[1..], t);
        assert w[0] == x && w[1..] == Waiting(ws[1..], t);
        calc {
          Waiting(w, t');
          (if x.delay > t' then [x] else []) + Waiting(w[1..], t');
          (if x.delay > t' then [x] else []) + Waiting(ws[1..], t');
        }
      } else {
        assert Waiting(ws, t) == Waiting(ws[1..], t);
        assert Waiting(ws, t') == Waiting(ws[1..], t');
      }
    }
  }

  /** A bound on every delay still holds for the waves kept. */
  lemma {:induction false} WaitingKeepsBound(ws: seq<Wave>, t: real, bound: real)
    requires forall i :: 0 <= i < |ws| ==> ws[i].delay <= bound
    ensures forall i :: 0 <= i < |Waiting(ws, t)| ==> Waiting(ws, t)[i].delay <= bound
  {
    if ws != [] {
      assert forall i :: 0 <= i < |ws[1..]| ==> ws[1..][i].delay <= bound by {
        forall i | 0 <= i < |ws[1..]| ensures ws[1..][i].delay <= bound {
          assert ws[1..][i] == ws[i + 1];
        }
      }
      WaitingKeepsBound(ws[1..], t, bound);
    }
  }

  /** Delays that never decrease along the queue. */
  predicate DelaysAscending(ws: seq<Wave>) {
    forall i, j :: 0 <= i < j < |ws| ==> ws[i].delay <= ws[j].delay
  }

  /** When all the delays exceed the timer, nothing is due. */
  lemma {:induction false} NothingDueYet(ws: seq<Wave>, t: real)
    requires forall i :: 0 <= i < |ws| ==> ws[i].delay > t
    ensures Due(ws, t) == [] && Waiting(ws, t) == ws
  {
    if ws != [] {
      assert ws == [ws[0]] + ws[1..];
      NothingDueYet(ws[1..], t);
    }
  }

  /** For a queue in delay order, as `ChargeWaves` builds it, a tick fires a
      prefix of the queue and keeps the rest. */
  lemma {:induction false} AscendingDueIsPrefix(ws: seq<Wave>, t: real)
    requires DelaysAscending(ws)
    ensures Due(ws, t) + Waiting(ws, t) == ws
  {
    if ws != [] {
      var x, rest := ws[0], ws[1..];
      assert ws == [x] + rest;
      assert DelaysAscending(rest) by {
        forall i, j | 0 <= i < j < |rest| ensures rest[i].delay <= rest[j].delay {
          assert rest[i] == ws[i + 1] && rest[j] == ws[j + 1];
        }
      }
      if x.delay <= t {
        AscendingDueIsPrefix(rest, t);
      } else {
        assert forall i :: 0 <= i < |rest| ==> rest[i].delay > t by {
          forall i | 0 <= i < |rest| ensures rest[i].delay > t {
            assert rest[i] == ws[i + 1];
          }
        }
        NothingDueYet(rest, t);
      }
    }
  }

  /** The charge attack's queue is in delay order. */
  lemma ChargeWavesAscending(phase2: bool)
    ensures DelaysAscending(ChargeWaves(phase2))
  {
    var ws := ChargeWaves(phase2);
    ChargeWavesShape(phase2);
    forall i, j | 0 <= i < j < |ws| ensures ws[i].delay <= ws[j].delay {
      assert ws[i].delay == i as real * (if phase2 then 0.12 else 0.15);
      assert ws[j].delay == j as real * (if phase2 then 0.12 else 0.15);
    }
  }

  // ---- whole runs of the scheduler -----------------------------------------

  /** The waves fired over ticks whose wave timer reads `ts`, in firing
      order. */
  function Fired(ws: seq<Wave>, ts: seq<real>): seq<Wave>
    decreases |ts|
  {
    if ts == [] then [] else Due(ws, ts[0]) + Fired(Waiting(ws, ts[0]), ts[1..])
  }

  /** The queue left after those ticks. */
  function Left(ws: seq<Wave>, ts: seq<real>): seq<Wave>
    decreases |ts|
  {
    if ts == [] then ws else Left(Waiting(ws, ts[0]), ts[1..])
  }

  /** Over any run, each queued wave is fired at most once: the fired waves
      and the ones still queued make up the original queue exactly. */
  lemma {:induction false} FiredOnce(ws: seq<Wave>, ts: seq<real>)
    ensures multiset(Fired(ws, ts)) + multiset(Left(ws, ts)) == multiset(ws)
    decreases |ts|
  {
    if ts != [] {
      FiredOnce(Waiting(ws, ts[0]), ts[1..]);
      DueWaitingPartition(ws, ts[0]);
    }
  }

  /** When the timer has reached every delay, nothing is kept. */
  lemma {:induction false} AllDue(ws: seq<Wave>, t: real)
    requires forall i :: 0 <= i < |ws| ==> ws[i].delay <= t
    ensures Waiting(ws, t) == []
  {
    if ws != [] {
      assert forall i :: 0 <= i < |ws[1..]| ==> ws[1..][i].delay <= t by {
        forall i | 0 <= i < |ws[1..]| ensures ws[1..][i].delay <= t {
          assert ws[1..][i] == ws[i + 1];
        }
      }
      AllDue(ws[1..], t);
    }
  }

  /** Once the timer has reached every delay the queue is empty. */
  lemma {:induction false} FiredAll(ws: seq<Wave>, ts: seq<real>)
    requires ts != []
    requires forall i :: 0 <= i < |ws| ==> ws[i].delay <= ts[|ts| - 1]
    ensures Left(ws, ts) == []
    decreases |ts|
  {
    if |ts| == 1 {
      AllDue(ws, ts[0]);
    } else {
      WaitingKeepsBound(ws, ts[0], ts[|ts| - 1]);
      FiredAll(Waiting(ws, ts[0]), ts[1..]);
    }
  }

  /** So a run that reaches every delay fires every queued wave exactly
      once. */
  lemma FiredEachOnce(ws: seq<Wave>, ts: seq<real>)
    requires ts != []
    requires forall i :: 0 <= i < |ws| ==> ws[i].delay <= ts[|ts| - 1]
    ensures multiset(Fired(ws, ts)) == multiset(ws)
  {
    FiredAll(ws, ts);
    FiredOnce(ws, ts);
  }

  /** A suffix of a queue in delay order is in delay order. */
  lemma AscendingSuffix(ws: seq<Wave>, k: nat)
    requires DelaysAscending(ws) && k <= |ws|
    ensures DelaysAscending(ws[k..])
  {
    var rest := ws[k..];
    forall i, j | 0 <= i < j < |rest| ensures rest[i].delay <= rest[j].delay {
      assert rest[i] == ws[k + i] && rest[j] == ws[k + j];
    }
  }

  /** In a queue in delay order the kept waves are a suffix, again in delay
      order. */
  lemma AscendingWaitingIsSuffix(ws: seq<Wave>, t: real)
    requires DelaysAscending(ws)
    ensures Waiting(ws, t) == ws[|Due(ws, t)|..]
    ensures DelaysAscending(Waiting(ws, t))
  {
    AscendingDueIsPrefix(ws, t);
    var d := Due(ws, t);
    assert (d + Waiting(ws, t))[|d|..] == Waiting(ws, t);
    AscendingSuffix(ws, |d|);
  }

  /** For a queue in delay order the waves are fired in stored order. */
  lemma {:induction false} FiredInOrder(ws: seq<Wave>, ts: seq<real>)
    requires DelaysAscending(ws)
    ensures Fired(ws, ts) + Left(ws, ts) == ws
    decreases |ts|
  {
    if ts != [] {
      var t := ts[0];
      var rest := Waiting(ws, t);
      AscendingDueIsPrefix(ws, t);
      AscendingWaitingIsSuffix(ws, t);
      FiredInOrder(rest, ts[1..]);
      calc {
        Fired(ws, ts) + Left(ws, ts);
        (Due(ws, t) + Fired(rest, ts[1..])) + Left(rest, ts[1..]);
        Due(ws, t) + (Fired(rest, ts[1..]) + Left(rest, ts[1..]));
        Due(ws, t) + rest;
      }
    }
  }
}
