/** Runs of `update` calls and the attack bag over them: attacks are drawn
    without replacement, and the pool refills only once every attack has
    been drawn. */
module BossRuns {
  import opened Lists
  import opened BossLogic
  import opened BossProperties

  /** One draw of `choose_attack`: refill the pool if empty, remove `a`. */
  function Draw(pool: seq<Attack>, a: Attack): seq<Attack> {
    RemoveFirst(Refill(pool), a)
  }

  /** `chosen` can be drawn one after another starting from `pool`: each
      draw comes from the pool as refilled at that moment. */
  predicate Drawable(pool: seq<Attack>, chosen: seq<Attack>)
    decreases |chosen|
  {
    chosen == [] || (chosen[0] in Refill(pool) && Drawable(Draw(pool, chosen[0]), chosen[1..]))
  }

  /** The pool after drawing `chosen` from `pool`. */
  function PoolAfter(pool: seq<Attack>, chosen: seq<Attack>): seq<Attack>
    decreases |chosen|
  {
    if chosen == [] then pool else PoolAfter(Draw(pool, chosen[0]), chosen[1..])
  }

  /** Drawing from a non-empty pool as many attacks as it holds takes each
      of them once and leaves the pool empty, so the draws after them come
      from a refill. */
  lemma {:induction false} DrawingEmptiesPool(pool: seq<Attack>, chosen: seq<Attack>)
    requires pool != [] && Drawable(pool, chosen) && |pool| <= |chosen|
    ensures multiset(chosen[..|pool|]) == multiset(pool)
    ensures Drawable([], chosen[|pool|..])
    decreases |pool|
  {
    var c := chosen[0];
    var n := |pool|;
    var next := RemoveFirst(pool, c);
    assert Drawable(next, chosen[1..]);
    RemoveFirstPutBack(pool, c);
    PrefixSplit(chosen, n);
    if next == [] {
      assert chosen[1..n] == [];
    } else {
      DrawingEmptiesPool(next, chosen[1..]);
    }
  }

  /** An empty pool and a full one draw alike: both refill to all four. */
  lemma EmptyDrawsAsFull(chosen: seq<Attack>)
    requires Drawable([], chosen)
    ensures Drawable(AllAttacks, chosen)
  {
    assert Refill([]) == Refill(AllAttacks);
  }

  /** `chosen` splits into consecutive blocks of four, each a permutation
      of the four attacks (a shorter tail is unconstrained). */
  predicate Rounds(chosen: seq<Attack>)
    decreases |chosen|
  {
    |chosen| < 4 || (multiset(chosen[..4]) == multiset(AllAttacks) && Rounds(chosen[4..]))
  }

  /** Draws from a full or an empty pool come in rounds of four. */
  lemma {:induction false} DrawsComeInRounds(pool: seq<Attack>, chosen: seq<Attack>)
    requires pool == [] || pool == AllAttacks
    requires Drawable(pool, chosen)
    ensures Rounds(chosen)
    decreases |chosen|
  {
    if |chosen| >= 4 {
      if pool == [] {
        EmptyDrawsAsFull(chosen);
      }
      DrawingEmptiesPool(AllAttacks, chosen);
      DrawsComeInRounds([], chosen[4..]);
    }
  }

  /** Block `k` of a sequence of rounds is a permutation of the four
      attacks. */
  lemma {:induction false} RoundBlock(chosen: seq<Attack>, k: nat)
    requires Rounds(chosen) && 4 * k + 4 <= |chosen|
    ensures multiset(chosen[4 * k..4 * k + 4]) == multiset(AllAttacks)
    decreases k
  {
    if k > 0 {
      RoundBlock(chosen[4..], k - 1);
      SliceOfSuffix(chosen, 4, 4 * (k - 1), 4 * (k - 1) + 4);
    } else {
      assert chosen[4 * k..4 * k + 4] == chosen[..4];
    }
  }

  /** `inputs` drive the boss from `s` one `update` call each, starting from
      a state that satisfies the invariant, with valid draws at every
      step. */
  predicate ValidRun(s: BossState, inputs: seq<Input>)
    decreases |inputs|
  {
    Inv(s) &&
    (inputs == [] ||
     (ValidDraws(s, inputs[0].draws) && ValidRun(Next(s, inputs[0]), inputs[1..])))
  }

  /** The attacks a run of ticks takes from the pool, in order. */
  function RunPicks(s: BossState, inputs: seq<Input>): seq<Attack>
    requires ValidRun(s, inputs)
    decreases |inputs|
  {
    if inputs == [] then []
    else
      var rest := RunPicks(Next(s, inputs[0]), inputs[1..]);
      match Picked(s, inputs[0])
      case Some(a) => [a] + rest
      case None => rest
  }

  /** The boss after a run of ticks. */
  function RunEnd(s: BossState, inputs: seq<Input>): BossState
    requires ValidRun(s, inputs)
    decreases |inputs|
  {
    if inputs == [] then s else RunEnd(Next(s, inputs[0]), inputs[1..])
  }

  /** Over any run the pool changes by exactly the attacks the ticks pick,
      and those are drawn without replacement from the refilling pool. */
  lemma {:induction false} RunDrawsFromPool(s: BossState, inputs: seq<Input>)
    requires ValidRun(s, inputs)
    ensures Drawable(s.availableAttacks, RunPicks(s, inputs))
    ensures RunEnd(s, inputs).availableAttacks == PoolAfter(s.availableAttacks, RunPicks(s, inputs))
    decreases |inputs|
  {
    if inputs != [] {
      var inp := inputs[0];
      var r := Next(s, inp);
      TickPicks(s, inp);
      RunDrawsFromPool(r, inputs[1..]);
      var rest := RunPicks(r, inputs[1..]);
      match Picked(s, inp)
      case Some(a) =>
        assert RunPicks(s, inputs) == [a] + rest;
        assert ([a] + rest)[0] == a && ([a] + rest)[1..] == rest;
      case None =>
        assert RunPicks(s, inputs) == rest;
    }
  }

  /** From a full or an empty pool, every aligned block of four attacks the
      boss picks over a run is a permutation of the four attacks. */
  lemma RunPicksRounds(s: BossState, inputs: seq<Input>, k: nat)
    requires ValidRun(s, inputs)
    requires s.availableAttacks == [] || s.availableAttacks == AllAttacks
    requires 4 * k + 4 <= |RunPicks(s, inputs)|
    ensures multiset(RunPicks(s, inputs)[4 * k..4 * k + 4]) == multiset(AllAttacks)
  {
    RunDrawsFromPool(s, inputs);
    DrawsComeInRounds(s.availableAttacks, RunPicks(s, inputs));
    RoundBlock(RunPicks(s, inputs), k);
  }
}
