/** The boss's bullet patterns.  A bullet is kept in polar form, as the
    angle in degrees and the speed it is launched with; `cos` and `sin` of
    the angle are not modelled. */
module BossPatterns {
  import opened Vectors
  import opened Settings

  /** What one `Bullet(...)` call of a pattern receives, apart from its
      position. */
  datatype Bolt = Bolt(angle: real, speed: real, colour: Rgb, radius: int)

  /** A bullet added to the boss's bullet group. */
  datatype Shot = Shot(origin: Vec, bolt: Bolt)

  /** Every bolt of a pattern fired from one position. */
  function Fire(origin: Vec, bolts: seq<Bolt>): seq<Shot> {
    seq(|bolts|, i requires 0 <= i < |bolts| => Shot(origin, bolts[i]))
  }

  // ---- random spread -------------------------------------------------------

  const SpreadCount: nat := 12

  function RandomSpreadMultiplier(phase2: bool): real {
    if phase2 then 1.2 else 1.0
  }

  /** Twelve yellow bullets around the circle every 30 degrees, each angle
      moved by its `uniform(-20, 20)` draw and each speed a `uniform(3, 5)`
      draw scaled by the phase multiplier. */
  function RandomSpreadBolts(phase2: bool, jitter: seq<real>, speeds: seq<real>): (r: seq<Bolt>)
    requires |jitter| == SpreadCount && |speeds| == SpreadCount
    ensures |r| == 12
    ensures forall i :: 0 <= i < |r| ==> r[i].angle - jitter[i] == 30.0 * i as real
    ensures forall i :: 0 <= i < |r| ==> r[i].colour == Yellow && r[i].radius == 5
  {
    seq(SpreadCount, i requires 0 <= i < SpreadCount =>
      Bolt(i as real * (360.0 / 12.0) + jitter[i], speeds[i] * RandomSpreadMultiplier(phase2), Yellow, 5))
  }

  predicate SpreadDraws(jitter: seq<real>, speeds: seq<real>) {
    |jitter| == SpreadCount && |speeds| == SpreadCount &&
    (forall i :: 0 <= i < SpreadCount ==> -20.0 <= jitter[i] <= 20.0) &&
    (forall i :: 0 <= i < SpreadCount ==> 3.0 <= speeds[i] <= 5.0)
  }

  /** The spread's twelve bullets stay within 20 degrees of their slots and
      within the phase's speed band. */
  lemma RandomSpreadShape(phase2: bool, jitter: seq<real>, speeds: seq<real>)
    requires SpreadDraws(jitter, speeds)
    ensures var b := RandomSpreadBolts(phase2, jitter, speeds);
      |b| == 12 &&
      (forall i :: 0 <= i < 12 ==> 30.0 * i as real - 20.0 <= b[i].angle <= 30.0 * i as real + 20.0) &&
      (forall i :: 0 <= i < 12 ==> b[i].colour == Yellow && b[i].radius == 5) &&
      (!phase2 ==> forall i :: 0 <= i < 12 ==> 3.0 <= b[i].speed <= 5.0) &&
      (phase2 ==> forall i :: 0 <= i < 12 ==> 3.6 <= b[i].speed <= 6.0)
  {
    var b := RandomSpreadBolts(phase2, jitter, speeds);
    forall i | 0 <= i < 12
      ensures b[i].speed == speeds[i] * RandomSpreadMultiplier(phase2)
      ensures 30.0 * i as real - 20.0 <= b[i].angle <= 30.0 * i as real + 20.0
    {
    }
  }

  // ---- wide spread ---------------------------------------------------------

  const WideCount: nat := 12
  const WideArc: real := 60.0

  function WideSpreadMultiplier(phase2: bool): real {
    if phase2 then 1.5 else 1.0
  }

  /** Twelve red bullets fanned over 60 degrees centred on `aim`, the angle
      towards the player's centre. */
  function WideSpreadBolts(phase2: bool, aim: real): (r: seq<Bolt>)
    ensures |r| == 12 && r[0].angle == aim - 30.0 && r[11].angle == aim + 30.0
    ensures forall i :: 0 <= i < |r| ==> r[i].colour == Red && r[i].radius == 5
  {
    var start := aim - WideArc / 2.0;
    var step := WideArc / (WideCount - 1) as real;
    seq(WideCount, i requires 0 <= i < WideCount =>
      Bolt(start + i as real * step, 4.0 * WideSpreadMultiplier(phase2), Red, 5))
  }

  /** The fan runs from aim - 30 to aim + 30 in eleven equal steps, is
      symmetric about the aim and flies at one speed. */
  lemma WideSpreadShape(phase2: bool, aim: real)
    ensures var b := WideSpreadBolts(phase2, aim);
      |b| == 12 &&
      b[0].angle == aim - 30.0 && b[11].angle == aim + 30.0 &&
      (forall i :: 0 <= i < 11 ==> b[i + 1].angle - b[i].angle == 60.0 / 11.0) &&
      (forall i :: 0 <= i < 12 ==> b[i].angle + b[11 - i].angle == 2.0 * aim) &&
      (forall i :: 0 <= i < 12 ==>
        b[i].speed == (if phase2 then 6.0 else 4.0) && b[i].colour == Red && b[i].radius == 5)
  {
    var b := WideSpreadBolts(phase2, aim);
    forall i | 0 <= i < 12
      ensures b[i].angle == aim - 30.0 + i as real * (60.0 / 11.0)
      ensures b[i].speed == 4.0 * WideSpreadMultiplier(phase2) && b[i].colour == Red && b[i].radius == 5
    {
    }
    forall i | 0 <= i < 12 ensures b[i].angle + b[11 - i].angle == 2.0 * aim {
      assert b[11 - i].angle == aim - 30.0 + (11 - i) as real * (60.0 / 11.0);
    }
    forall i | 0 <= i < 11 ensures b[i + 1].angle - b[i].angle == 60.0 / 11.0 {
      assert b[i + 1].angle == aim - 30.0 + (i + 1) as real * (60.0 / 11.0);
    }
  }

  // ---- charge explosion ----------------------------------------------------

  /** One delayed volley of the charge attack.  The position the volley
      leaves from is held by the boss, not by the wave. */
  datatype Wave = Wave(bolts: seq<Bolt>, delay: real)

  datatype ChargeConfig = ChargeConfig(
    perWave: nat, waves: nat, waveDelay: real, baseSpeed: real, radius: int, angleOffset: real)

  function ChargeConfigFor(phase2: bool): (c: ChargeConfig)
    ensures c.perWave > 0
  {
    if !phase2 then ChargeConfig(24, 8, 0.15, 4.0, 4, 0.0)
    else ChargeConfig(32, 10, 0.12, 5.0, 3, 5.0)
  }

  /** Wave `w`: a full green ring, turned by `w` times the offset and half a
      unit of speed faster than the wave before. */
  function ChargeRing(c: ChargeConfig, w: nat): seq<Bolt>
    requires c.perWave > 0
  {
    seq(c.perWave, i requires 0 <= i < c.perWave =>
      Bolt((360.0 / c.perWave as real) * i as real + c.angleOffset * w as real,
           c.baseSpeed + w as real * 0.5, Green, c.radius))
  }

  function ChargeWaves(phase2: bool): (r: seq<Wave>)
    ensures |r| == (if phase2 then 10 else 8) && r[0].delay == 0.0
    ensures forall w :: 0 <= w < |r| ==> |r[w].bolts| == (if phase2 then 32 else 24)
  {
    var c := ChargeConfigFor(phase2);
    seq(c.waves, w requires 0 <= w < c.waves => Wave(ChargeRing(c, w), w as real * c.waveDelay))
  }

  /** Phase 1 queues 8 rings of 24 bullets 0.15 s apart, phase 2 queues 10
      rings of 32 bullets 0.12 s apart; ring `w` is half a unit faster per
      wave and the first is due at once. */
  lemma ChargeWavesShape(phase2: bool)
    ensures var ws := ChargeWaves(phase2);
      var n := if phase2 then 32 else 24;
      var step := if phase2 then 0.12 else 0.15;
      var base := if phase2 then 5.0 else 4.0;
      var offset := if phase2 then 5.0 else 0.0;
      |ws| == (if phase2 then 10 else 8) &&
      ws[0].delay == 0.0 &&
      (forall w :: 0 <= w < |ws| ==> ws[w].delay == w as real * step && |ws[w].bolts| == n) &&
      (forall w :: 0 <= w < |ws| - 1 ==> ws[w].delay < ws[w + 1].delay) &&
      (forall w, i :: 0 <= w < |ws| && 0 <= i < n ==>
        ws[w].bolts[i] == Bolt((360.0 / n as real) * i as real + offset * w as real,
                               base + w as real * 0.5, Green, if phase2 then 3 else 4))
  {
  }

  // ---- gauntlet ------------------------------------------------------------

  const RingA: nat := 16
  const RingB: nat := 8

  /** One gauntlet volley: an inner ring of 16 bullets at speed 8 starting at
      `angle`, and an outer ring of 8 at speed 6 turned by half its spacing. */
  function GauntletBolts(angle: real): (r: seq<Bolt>)
    ensures |r| == 24 && r[0].angle == angle
    ensures forall i :: 0 <= i < |r| ==> r[i].colour == Purple && r[i].radius == 5
  {
    seq(RingA, i requires 0 <= i < RingA =>
      Bolt(angle + (360.0 / RingA as real) * i as real, 8.0 * 1.0, Purple, 5)) +
    seq(RingB, i requires 0 <= i < RingB =>
      Bolt(angle + 360.0 / (RingB * 2) as real + (360.0 / RingB as real) * i as real, 6.0 * 1.0, Purple, 5))
  }

  /** 24 purple bullets: 16 every 22.5 degrees at speed 8, then 8 at speed 6
      whose `i`-th shares the direction of the inner ring's `2i+1`-th. */
  lemma GauntletVolleyShape(angle: real)
    ensures var b := GauntletBolts(angle);
      |b| == 24 &&
      (forall i :: 0 <= i < 24 ==> b[i].colour == Purple && b[i].radius == 5) &&
      (forall i :: 0 <= i < 16 ==> b[i].angle == angle + 22.5 * i as real && b[i].speed == 8.0) &&
      (forall i :: 16 <= i < 24 ==> b[i].angle == angle + 22.5 + 45.0 * (i - 16) as real && b[i].speed == 6.0) &&
      (forall i :: 16 <= i < 24 ==> b[i].angle == b[2 * (i - 16) + 1].angle)
  {
  }

  /** `(angle + direction * 20) % 360`, Python's modulus. */
  function NextGauntletAngle(angle: real, direction: int): (r: real)
    ensures 0.0 <= r < 360.0
    ensures IsWhole((angle + (direction * 20) as real - r) / 360.0)
  {
    var a := angle + (direction * 20) as real;
    assert (a - Mod360(a)) / 360.0 == (a / 360.0).Floor as real;
    Mod360(a)
  }

  /** A real with no fractional part. */
  predicate IsWhole(v: real) {
    v.Floor as real == v
  }

  // ---- corner division -----------------------------------------------------

  const CornerMargin: int := 50

  /** `start_game`'s anchors: the collision rectangle inset by 50, in the
      order top-left, top-right, bottom-left, bottom-right. */
  function CornerAnchors(): seq<Vec> {
    var r := CollisionRect;
    [Vec((r.Left() + CornerMargin) as real, (r.Top() + CornerMargin) as real),
     Vec((r.Right() - CornerMargin) as real, (r.Top() + CornerMargin) as real),
     Vec((r.Left() + CornerMargin) as real, (r.Bottom() - CornerMargin) as real),
     Vec((r.Right() - CornerMargin) as real, (r.Bottom() - CornerMargin) as real)]
  }

  /** The anchors are (120,120), (647,120), (120,647), (647,647) and lie
      strictly inside the collision rectangle. */
  lemma CornerAnchorsAre()
    ensures CornerAnchors() == [Vec(120.0, 120.0), Vec(647.0, 120.0), Vec(120.0, 647.0), Vec(647.0, 647.0)]
    ensures forall k :: 0 <= k < 4 ==>
      CollisionRect.Left() as real < CornerAnchors()[k].x < CollisionRect.Right() as real &&
      CollisionRect.Top() as real < CornerAnchors()[k].y < CollisionRect.Bottom() as real
  {
    CollisionRectIs();
  }

  function CornerCount(phase2: bool): nat {
    if phase2 then 22 else 16
  }

  function CornerSpeedLow(phase2: bool): real { if phase2 then 4.0 else 3.0 }
  function CornerSpeedHigh(phase2: bool): real { if phase2 then 6.0 else 5.0 }

  predicate CornerDraws(phase2: bool, jitter: seq<real>, speeds: seq<real>) {
    |jitter| == CornerCount(phase2) && |speeds| == CornerCount(phase2) &&
    (forall i :: 0 <= i < |jitter| ==> -10.0 <= jitter[i] <= 10.0) &&
    (forall i :: 0 <= i < |speeds| ==> CornerSpeedLow(phase2) <= speeds[i] <= CornerSpeedHigh(phase2))
  }

  /** One corner's burst: red bullets evenly around the circle, each angle
      moved by a `uniform(-10, 10)` draw, each speed drawn from the phase's
      band. */
  function CornerBolts(phase2: bool, jitter: seq<real>, speeds: seq<real>): (r: seq<Bolt>)
    requires |jitter| == CornerCount(phase2) && |speeds| == CornerCount(phase2)
    ensures |r| == (if phase2 then 22 else 16)
    ensures forall i :: 0 <= i < |r| ==> r[i].speed == speeds[i] && r[i].colour == Red && r[i].radius == 5
  {
    var n := CornerCount(phase2);
    seq(n, i requires 0 <= i < n =>
      Bolt((360.0 / n as real) * i as real + jitter[i], speeds[i], Red, 5))
  }

  /** 16 bullets in phase 1 and 22 in phase 2, each within 10 degrees of its
      slot and inside the phase's speed band. */
  lemma CornerBurstShape(phase2: bool, jitter: seq<real>, speeds: seq<real>)
    requires CornerDraws(phase2, jitter, speeds)
    ensures var b := CornerBolts(phase2, jitter, speeds);
      var n := if phase2 then 22 else 16;
      |b| == n &&
      (forall i :: 0 <= i < n ==>
        (360.0 / n as real) * i as real - 10.0 <= b[i].angle <= (360.0 / n as real) * i as real + 10.0) &&
      (forall i :: 0 <= i < n ==> b[i].colour == Red && b[i].radius == 5) &&
      (!phase2 ==> forall i :: 0 <= i < n ==> 3.0 <= b[i].speed <= 5.0) &&
      (phase2 ==> forall i :: 0 <= i < n ==> 4.0 <= b[i].speed <= 6.0)
  {
  }
}
