/** `Boss` as an object whose methods update its fields in place.  The
    attributes are kept in ten fields, the position, health and state on
    their own and the rest in records by concern; `Snapshot` reads them back
    as the flat record `BossState`, and each method is proved to move the
    snapshot exactly as the matching function of `BossLogic` says; the bullets a method adds to the
    bullet group are its returned `shots`. */
module BossMachine {
  import opened Vectors
  import opened Settings
  import opened Lists
  import opened BossPatterns
  import opened WaveScheduler
  import opened BossLogic
  import opened Players

  /** What `update` reads from and writes to the player object. */
  function ViewOf(p: Player): PlayerView
    reads p
  {
    PlayerView(p.Centre(), p.rolling, p.invulnerableTimer, p.hearts)
  }

  /** `for b in bolts: bullet_group.add(Bullet(origin, ...))`. */
  method Spawn(origin: Vec, bolts: seq<Bolt>) returns (shots: seq<Shot>)
    ensures shots == Fire(origin, bolts)
  {
    shots := [];
    for i := 0 to |bolts|
      invariant shots == Fire(origin, bolts[..i])
    {
      FireGrows(origin, bolts, i);
      shots := shots + [Shot(origin, bolts[i])];
    }
    assert bolts[..|bolts|] == bolts;
  }

  /** Firing one more bolt of a pattern appends one shot. */
  lemma FireGrows(origin: Vec, bolts: seq<Bolt>, i: nat)
    requires i < |bolts|
    ensures Fire(origin, bolts[..i + 1]) == Fire(origin, bolts[..i]) + [Shot(origin, bolts[i])]
  {
    assert bolts[..i + 1][i] == bolts[i];
  }

  /** `start_game`'s loop: one stationary marker at each corner. */
  method Markers(corners: seq<Vec>) returns (markers: seq<Shot>)
    ensures markers == CornerMarkers(corners)
  {
    markers := [];
    for k := 0 to |corners|
      invariant markers == CornerMarkers(corners[..k])
    {
      assert corners[..k + 1] == corners[..k] + [corners[k]];
      markers := markers + [Shot(corners[k], Bolt(0.0, 0.0, Purple, 15))];
    }
    assert corners[..|corners|] == corners;
  }

  /** `fire_charge_explosion`'s nested loops: the phase's waves, ring by
      ring. */
  method ChargeQueue(phase2: bool) returns (queue: seq<Wave>)
    ensures queue == ChargeWaves(phase2)
  {
    var c := ChargeConfigFor(phase2);
    ghost var all := ChargeWaves(phase2);
    queue := [];
    for w := 0 to c.waves
      invariant queue == all[..w]
    {
      var bullets := ChargeRingLoop(c, w);
      assert all[..w + 1] == all[..w] + [all[w]];
      queue := queue + [Wave(bullets, w as real * c.waveDelay)];
    }
    assert queue == all;
  }

  /** The inner loop of `fire_charge_explosion`: one ring of wave `w`. */
  method ChargeRingLoop(c: ChargeConfig, w: nat) returns (bullets: seq<Bolt>)
    requires c.perWave > 0
    ensures bullets == ChargeRing(c, w)
  {
    ghost var ring := ChargeRing(c, w);
    bullets := [];
    var waveAngleOffset := c.angleOffset * w as real;
    for i := 0 to c.perWave
      invariant bullets == ring[..i]
    {
      var angle := (360.0 / c.perWave as real) * i as real + waveAngleOffset;
      var speed := c.baseSpeed + w as real * 0.5;
      var b := Bolt(angle, speed, Green, c.radius);
      assert b == ring[i];
      assert ring[..i + 1] == ring[..i] + [b];
      bullets := bullets + [b];
    }
    assert bullets == ring;
  }

  /** The first loop of the wave step: every wave whose delay has come, in
      queue order, and their bullets, all from `origin`. */
  method DueWaves(queue: seq<Wave>, t: real, origin: Vec) returns (due: seq<Wave>, shots: seq<Shot>)
    ensures due == Due(queue, t)
    ensures shots == Released(origin, due)
  {
    due := [];
    shots := [];
    for k := 0 to |queue|
      invariant due == Due(queue[..k], t)
      invariant shots == Released(origin, due)
    {
      var wave := queue[k];
      DueStep(queue, k, t);
      if t >= wave.delay {
        var burst := Spawn(origin, wave.bolts);
        ReleasedStep(origin, due, wave);
        shots := shots + burst;
        due := due + [wave];
      }
    }
    assert queue[..|queue|] == queue;
  }

  /** The second loop of the wave step: `remove` each fired wave in turn. */
  method RemoveWaves(queue: seq<Wave>, fired: seq<Wave>) returns (rest: seq<Wave>)
    ensures rest == RemoveEach(queue, fired)
  {
    rest := queue;
    for k := 0 to |fired|
      invariant RemoveEach(rest, fired[k..]) == RemoveEach(queue, fired)
    {
      assert fired[k..][1..] == fired[k + 1..];
      rest := RemoveFirst(rest, fired[k]);
    }
    assert fired[|fired|..] == [];
  }

  /** Marking the threshold keeps the draws valid for the state. */
  lemma MarkedIsWellFormed(s: BossState, d: Draws)
    requires WellFormed(s) && ValidDraws(s, d)
    ensures WellFormed(Marked(s)) && ValidDraws(Marked(s), d)
  {
  }

  // `Next`, `Emitted` and `PlayerAfter` on each branch of `update`.

  lemma IntroOutcome(s: BossState, inp: Input, r: BossState)
    requires WellFormed(s) && ValidDraws(s, inp.draws) && s.mode == Intro
    requires r == IntroStep(s, inp.dt)
    ensures r == Next(s, inp) && [] == Emitted(s, inp) && inp.player == PlayerAfter(s, inp)
  {
  }

  lemma EnterOutcome(s: BossState, inp: Input, r: BossState)
    requires WellFormed(s) && ValidDraws(s, inp.draws) && BranchOf(s) == EnterBranch
    requires r == BossLogic.StartGauntlet(s.(healthThresholdHit := true).(transitioning := true)).(intermissionDelay := IntermissionTime)
    ensures r == Next(s, inp) && [] == Emitted(s, inp) && inp.player == PlayerAfter(s, inp)
  {
  }

  lemma WaitOutcome(s: BossState, inp: Input, r: BossState)
    requires WellFormed(s) && ValidDraws(s, inp.draws) && BranchOf(s) == WaitBranch
    requires r == Marked(s).(intermissionDelay := s.intermissionDelay - inp.dt)
    ensures r == Next(s, inp) && [] == Emitted(s, inp) && inp.player == PlayerAfter(s, inp)
  {
  }

  lemma GauntletOutcome(s: BossState, inp: Input, r: BossState, shots: seq<Shot>)
    requires WellFormed(s) && ValidDraws(s, inp.draws) && BranchOf(s) == GauntletBranch
    requires r == GauntletStep(Marked(s), inp.dt) && shots == GauntletShots(Marked(s), inp.dt)
    ensures r == Next(s, inp) && shots == Emitted(s, inp) && inp.player == PlayerAfter(s, inp)
  {
  }

  lemma FightOutcome(s: BossState, inp: Input, r: BossState, shots: seq<Shot>, pv: PlayerView)
    requires WellFormed(s) && ValidDraws(s, inp.draws) && BranchOf(s) == FightBranch
    requires r == Fight(Marked(s), inp) && shots == FightShots(Marked(s), inp) && pv == FightPlayer(Marked(s), inp)
    ensures r == Next(s, inp) && shots == Emitted(s, inp) && pv == PlayerAfter(s, inp)
  {
  }

  /** The attack clocks and the attack selection: `state_timer`,
      `attack_cooldown`, `charge_time`, `exploded`, `available_attacks` and
      `current_attack`. */
  datatype AttackClocks = AttackClocks(stateTimer: real, attackCooldown: real, chargeTime: real,
    exploded: bool, availableAttacks: seq<Attack>, currentAttack: Option<Attack>)

  /** The gauntlet's `in_gauntlet` flag, timers, angle and direction. */
  datatype GauntletClocks = GauntletClocks(inGauntlet: bool, gauntletTimer: real, gauntletFireTimer: real,
    gauntletAngle: real, gauntletDirection: int, gauntletSwitchTimer: real)

  /** `phase2`, `intermission_delay` and the phase-transition flags. */
  datatype PhaseFlags = PhaseFlags(phase2: bool, intermissionDelay: real, transitioning: bool,
    healthThresholdHit: bool)

  /** The melee clocks, the hit flash and the colour it tints. */
  datatype Flashes = Flashes(meleeCooldown: real, meleeFlashTimer: real, hitFlash: real, currentColour: Rgb)

  /** The particle division's corners. */
  datatype CornerState = CornerState(cornerPositions: seq<Vec>, cornerPulseTimer: real, isPulsing: bool,
    explosionDelays: seq<real>, cornerExploded: seq<bool>)

  /** The intro's path and clock. */
  datatype IntroCourse = IntroCourse(introStartPos: Vec, introTargetPos: Vec, introTimer: real)

  /** The charge attack's queue of waves and the position object they share. */
  datatype WaveQueue = WaveQueue(pendingWaves: seq<Wave>, firingWaves: bool, waveTimer: real,
    waveOrigin: Vec, waveOriginIsPos: bool)

  class Boss {
    var pos: Vec
    var health: int
    var mode: Mode
    var attack: AttackClocks
    var gauntlet: GauntletClocks
    var phase: PhaseFlags
    var flash: Flashes
    var corners: CornerState
    var intro: IntroCourse
    var waves: WaveQueue

    /** The fields as one flat record. */
    function Snapshot(): BossState
      reads this
    {
      BossState(pos, intro.introStartPos, intro.introTargetPos, health, mode, attack.stateTimer,
                attack.attackCooldown, attack.chargeTime, attack.exploded, gauntlet.inGauntlet,
                gauntlet.gauntletTimer, gauntlet.gauntletFireTimer, gauntlet.gauntletAngle,
                gauntlet.gauntletDirection, gauntlet.gauntletSwitchTimer, phase.phase2,
                phase.intermissionDelay, flash.meleeCooldown, flash.meleeFlashTimer, flash.hitFlash,
                flash.currentColour, corners.cornerPositions, corners.cornerPulseTimer, corners.isPulsing,
                corners.explosionDelays, corners.cornerExploded, attack.availableAttacks,
                attack.currentAttack, intro.introTimer, phase.transitioning, phase.healthThresholdHit,
                waves.pendingWaves, waves.firingWaves, waves.waveTimer, waves.waveOrigin,
                waves.waveOriginIsPos)
    }

    /** `Boss(x, y)`. */
    constructor (x: real, y: real)
      ensures Snapshot() == New(x, y)
    {
      intro := IntroCourse(Vec(x, IntroStartY), ArenaCentre, IntroTime);
      pos := Vec(x, IntroStartY);
      health := StartHealth;
      mode := Intro;
      attack := AttackClocks(0.0, 0.0, 0.0, false, AllAttacks, None);
      gauntlet := GauntletClocks(false, 0.0, 0.0, 0.0, 1, 2.0);
      phase := PhaseFlags(false, 0.0, false, false);
      flash := Flashes(0.0, 0.0, 0.0, BaseColour);
      corners := CornerState([], 0.0, false, [], []);
      waves := WaveQueue([], false, 0.0, Zero, false);
    }

    // ---- start_game, reset, take_damage -----------------------------------

    /** `start_game`: the four corners, and a stationary marker added at each
        of them. */
    method StartGame() returns (markers: seq<Shot>)
      modifies this
      ensures Snapshot() == BossLogic.StartGame(old(Snapshot()))
      ensures markers == StartMarkers(Snapshot())
    {
      corners := corners.(cornerPositions := CornerAnchors());
      markers := Markers(corners.cornerPositions);
    }

    /** `reset`: the intro is restarted, then the attack, phase, gauntlet and
        flash state is cleared. */
    method Reset()
      modifies this
      ensures Snapshot() == BossLogic.Reset(old(Snapshot()))
    {
      RestartIntro();
      ClearAttack();
    }

    method RestartIntro()
      modifies this
      ensures Snapshot() == old(Snapshot()).(health := StartHealth, mode := Intro, introTimer := IntroTime,
        pos := old(intro.introStartPos), waveOriginIsPos := false)
    {
      health := StartHealth;
      mode := Intro;
      intro := intro.(introTimer := IntroTime);
      pos := intro.introStartPos;
      waves := waves.(waveOriginIsPos := false);
    }

    method ClearAttack()
      modifies this
      ensures Snapshot() == old(Snapshot()).(stateTimer := 0.0, attackCooldown := 0.0, currentAttack := None,
        availableAttacks := AllAttacks, phase2 := false, healthThresholdHit := false, transitioning := false,
        inGauntlet := false, chargeTime := 0.0, exploded := false, gauntletTimer := 0.0,
        gauntletFireTimer := 0.0, gauntletAngle := 0.0, meleeCooldown := 0.0, meleeFlashTimer := 0.0,
        hitFlash := 0.0, isPulsing := false, cornerPulseTimer := 0.0)
    {
      attack := AttackClocks(0.0, 0.0, 0.0, false, AllAttacks, None);
      phase := phase.(phase2 := false, healthThresholdHit := false, transitioning := false);
      gauntlet := gauntlet.(inGauntlet := false, gauntletTimer := 0.0, gauntletFireTimer := 0.0,
        gauntletAngle := 0.0);
      flash := flash.(meleeCooldown := 0.0, meleeFlashTimer := 0.0, hitFlash := 0.0);
      corners := corners.(isPulsing := false, cornerPulseTimer := 0.0);
    }

    /** `take_damage`. */
    method TakeDamage()
      modifies this
      ensures Snapshot() == Damaged(old(Snapshot()))
    {
      if mode == Intro || phase.transitioning {
        return;
      }
      flash := flash.(hitFlash := HitFlashTime);
      health := health - HitDamage;
    }

    // ---- the intro and the gauntlet ---------------------------------------

    /** The intro branch of `update`. */
    method IntroTick(dt: real)
      modifies this
      ensures Snapshot() == IntroStep(old(Snapshot()), dt)
    {
      var timer := intro.introTimer - dt;
      var progress := 1.0 - timer / IntroTime;
      progress := SmoothStep(progress);
      var next := intro.introStartPos.Plus(intro.introTargetPos.Minus(intro.introStartPos).Times(progress));
      if timer <= 0.0 {
        mode := Idle;
        next := intro.introTargetPos;
      }
      assert next == IntroPos(Snapshot(), timer);
      intro := intro.(introTimer := timer);
      pos := next;
      waves := waves.(waveOriginIsPos := false);
    }

    /** `start_gauntlet`: the boss leaves its attack for the centre and the
        gauntlet's clocks are armed. */
    method StartGauntlet()
      modifies this
      ensures Snapshot() == BossLogic.StartGauntlet(old(Snapshot()))
    {
      phase := phase.(transitioning := true);
      attack := attack.(currentAttack := None);
      mode := Gauntlet;
      pos := ArenaCentre;
      waves := waves.(waveOriginIsPos := false);
      gauntlet := GauntletClocks(true, GauntletTime, 0.0, GauntletStartAngle, 1, GauntletSwitchTime);
    }

    /** `update_gauntlet`: the clocks and the heading, a volley when the fire
        timer runs out, and phase 2 when the gauntlet timer does. */
    method UpdateGauntlet(dt: real) returns (shots: seq<Shot>)
      modifies this
      ensures Snapshot() == GauntletStep(old(Snapshot()), dt)
      ensures shots == GauntletShots(old(Snapshot()), dt)
    {
      TurnGauntlet(dt);
      shots := FireIfDue();
      EndGauntletIfDone();
    }

    method TurnGauntlet(dt: real)
      modifies this
      ensures Snapshot() == GauntletTurn(old(Snapshot()), dt)
    {
      gauntlet := gauntlet.(gauntletTimer := gauntlet.gauntletTimer - dt,
        gauntletFireTimer := gauntlet.gauntletFireTimer - dt,
        gauntletSwitchTimer := gauntlet.gauntletSwitchTimer - dt);
      if gauntlet.gauntletSwitchTimer <= 0.0 {
        gauntlet := gauntlet.(gauntletDirection := -gauntlet.gauntletDirection,
          gauntletSwitchTimer := GauntletSwitchTime);
      }
    }

    method FireIfDue() returns (shots: seq<Shot>)
      modifies this
      ensures Snapshot() == GauntletFire(old(Snapshot()))
      ensures shots == if old(gauntlet.gauntletFireTimer) <= 0.0
        then Fire(old(pos), GauntletBolts(old(gauntlet.gauntletAngle))) else []
    {
      shots := [];
      if gauntlet.gauntletFireTimer <= 0.0 {
        shots := FireComplexGauntlet();
        gauntlet := gauntlet.(gauntletFireTimer := GauntletFireInterval);
      }
    }

    method EndGauntletIfDone()
      modifies this
      ensures Snapshot() == GauntletFinish(old(Snapshot()))
    {
      if gauntlet.gauntletTimer <= 0.0 {
        gauntlet := gauntlet.(inGauntlet := false);
        phase := phase.(phase2 := true, transitioning := false);
        mode := Idle;
        attack := attack.(attackCooldown := PostGauntletCooldown);
      }
    }

    /** `fire_complex_gauntlet`: the volley, then the angle turns 20 degrees
        in the current direction. */
    method FireComplexGauntlet() returns (shots: seq<Shot>)
      modifies this
      ensures shots == Fire(old(pos), GauntletBolts(old(gauntlet.gauntletAngle)))
      ensures Snapshot() == old(Snapshot()).(gauntletAngle :=
        NextGauntletAngle(old(gauntlet.gauntletAngle), gauntlet.gauntletDirection))
    {
      shots := GauntletVolley();
      gauntlet := gauntlet.(gauntletAngle := NextGauntletAngle(gauntlet.gauntletAngle, gauntlet.gauntletDirection));
    }

    /** The two rings of `fire_complex_gauntlet`, inner then outer. */
    method GauntletVolley() returns (shots: seq<Shot>)
      ensures shots == Fire(pos, GauntletBolts(gauntlet.gauntletAngle))
    {
      var angle := gauntlet.gauntletAngle;
      ghost var volley := GauntletBolts(angle);
      shots := [];
      for i := 0 to RingA
        invariant shots == Fire(pos, volley[..i])
      {
        var b := Bolt(angle + (360.0 / RingA as real) * i as real, 8.0 * 1.0, Purple, 5);
        assert b == volley[i];
        FireGrows(pos, volley, i);
        shots := shots + [Shot(pos, b)];
      }
      var offset := 360.0 / (RingB * 2) as real;
      for i := 0 to RingB
        invariant shots == Fire(pos, volley[..RingA + i])
      {
        var b := Bolt(angle + offset + (360.0 / RingB as real) * i as real, 6.0 * 1.0, Purple, 5);
        assert b == volley[RingA + i];
        FireGrows(pos, volley, RingA + i);
        shots := shots + [Shot(pos, b)];
      }
      assert volley[..RingA + RingB] == volley;
    }

    // ---- the patterns -------------------------------------------------------

    /** `fire_random_spread`. */
    method FireRandomSpread(jitter: seq<real>, speeds: seq<real>) returns (shots: seq<Shot>)
      requires SpreadDraws(jitter, speeds)
      ensures shots == Fire(pos, RandomSpreadBolts(phase.phase2, jitter, speeds))
    {
      ghost var spread := RandomSpreadBolts(phase.phase2, jitter, speeds);
      var multiplier := RandomSpreadMultiplier(phase.phase2);
      shots := [];
      for i := 0 to SpreadCount
        invariant shots == Fire(pos, spread[..i])
      {
        var angle := i as real * (360.0 / 12.0);
        var b := Bolt(angle + jitter[i], speeds[i] * multiplier, Yellow, 5);
        assert b == spread[i];
        FireGrows(pos, spread, i);
        shots := shots + [Shot(pos, b)];
      }
      assert spread[..SpreadCount] == spread;
    }

    /** `fire_wide_spread`; `aim` is the direction to the player, in
        degrees. */
    method FireWideSpread(aim: real) returns (shots: seq<Shot>)
      ensures shots == Fire(pos, WideSpreadBolts(phase.phase2, aim))
    {
      ghost var fan := WideSpreadBolts(phase.phase2, aim);
      var multiplier := WideSpreadMultiplier(phase.phase2);
      var startAngle := aim - WideArc / 2.0;
      var angleStep := WideArc / (WideCount - 1) as real;
      shots := [];
      for i := 0 to WideCount
        invariant shots == Fire(pos, fan[..i])
      {
        var b := Bolt(startAngle + i as real * angleStep, 4.0 * multiplier, Red, 5);
        assert b == fan[i];
        FireGrows(pos, fan, i);
        shots := shots + [Shot(pos, b)];
      }
      assert fan[..WideCount] == fan;
    }

    /** `fire_charge_explosion`: the queue is replaced by the phase's waves,
        all sharing the boss's own position object. */
    method FireChargeExplosion()
      modifies this
      ensures Snapshot() == ChargeExplosion(old(Snapshot()))
    {
      var queue := ChargeQueue(phase.phase2);
      waves := WaveQueue(queue, true, 0.0, pos, true);
    }

    // ---- the corner division ------------------------------------------------

    /** `start_particle_division`; `delays` are the four
        `uniform(0.2, 1.5)` draws. */
    method StartParticleDivision(delays: seq<real>)
      modifies this
      ensures Snapshot() == StartDivision(old(Snapshot()), delays)
    {
      corners := corners.(isPulsing := true, cornerPulseTimer := 0.0, explosionDelays := delays,
        cornerExploded := [false, false, false, false]);
    }

    /** `_create_corner_explosion`: one corner's ring. */
    method CreateCornerExplosion(k: nat, jitter: seq<real>, speeds: seq<real>) returns (shots: seq<Shot>)
      requires k < |corners.cornerPositions| && CornerDraws(phase.phase2, jitter, speeds)
      ensures shots == Fire(corners.cornerPositions[k], CornerBolts(phase.phase2, jitter, speeds))
    {
      var corner := corners.cornerPositions[k];
      var n := if phase.phase2 then 22 else 16;
      ghost var burst := CornerBolts(phase.phase2, jitter, speeds);
      shots := [];
      for i := 0 to n
        invariant shots == Fire(corner, burst[..i])
      {
        var b := Bolt((360.0 / n as real) * i as real + jitter[i], speeds[i], Red, 5);
        assert b == burst[i];
        FireGrows(corner, burst, i);
        shots := shots + [Shot(corner, b)];
      }
      assert burst[..n] == burst;
    }

    /** The loop over the four corners of `update_particle_division`: each
        unexploded corner counts down and bursts once its delay is spent. */
    method CountCorners(dt: real, d: Draws) returns (delays: seq<real>, flags: seq<bool>, shots: seq<Shot>)
      requires WellFormed(Snapshot()) && corners.isPulsing && ValidDraws(Snapshot(), d)
      ensures delays == CountedDelays(Snapshot(), dt)
      ensures flags == CountedFlags(Snapshot(), dt)
      ensures shots == CornerShots(Snapshot(), dt, d, 4)
    {
      ghost var s := Snapshot();
      delays := corners.explosionDelays;
      flags := corners.cornerExploded;
      shots := [];
      for i := 0 to 4
        invariant |delays| == 4 && |flags| == 4
        invariant forall k :: 0 <= k < i ==> delays[k] == CountedDelays(s, dt)[k] && flags[k] == CountedFlags(s, dt)[k]
        invariant forall k :: i <= k < 4 ==> delays[k] == s.explosionDelays[k] && flags[k] == s.cornerExploded[k]
        invariant shots == CornerShots(s, dt, d, i)
      {
        if !flags[i] {
          delays := delays[i := delays[i] - dt];
          if delays[i] <= 0.0 {
            var burst := CreateCornerExplosion(i, d.cornerJitter[i], d.cornerSpeed[i]);
            shots := shots + burst;
            flags := flags[i := true];
          }
        }
      }
      assert delays == CountedDelays(s, dt);
      assert flags == CountedFlags(s, dt);
    }

    /** `update_particle_division`: the corners count down while pulsing,
        and the attack ends once all four have burst. */
    method UpdateParticleDivision(dt: real, d: Draws) returns (shots: seq<Shot>)
      requires WellFormed(Snapshot()) && ValidDraws(Snapshot(), d)
      modifies this
      ensures Snapshot() == DivisionStep(old(Snapshot()), dt)
      ensures shots == DivisionShots(old(Snapshot()), dt, d)
    {
      shots := [];
      if !corners.isPulsing {
        return;
      }
      var delays, flags;
      delays, flags, shots := CountCorners(dt, d);
      StoreCorners(dt, delays, flags);
      SettleDivision();
    }

    method StoreCorners(dt: real, delays: seq<real>, flags: seq<bool>)
      requires WellFormed(Snapshot()) && corners.isPulsing
      requires delays == CountedDelays(Snapshot(), dt) && flags == CountedFlags(Snapshot(), dt)
      modifies this
      ensures Snapshot() == CornersCounted(old(Snapshot()), dt)
    {
      corners := corners.(cornerPulseTimer := corners.cornerPulseTimer + dt, explosionDelays := delays,
        cornerExploded := flags);
    }

    method SettleDivision()
      requires WellFormed(Snapshot())
      modifies this
      ensures Snapshot() == DivisionSettled(old(Snapshot()))
    {
      if AllTrue(corners.cornerExploded) {
        corners := corners.(isPulsing := false);
        mode := Idle;
        attack := attack.(attackCooldown := if !phase.phase2 then 3.0 else 2.0);
      }
    }

    // ---- one fighting tick ----------------------------------------------------

    /** The four countdowns at the top of a fighting tick. */
    method CountDownTimers(dt: real)
      modifies this
      ensures Snapshot() == CountTimers(old(Snapshot()), dt)
    {
      attack := attack.(stateTimer := attack.stateTimer - dt, attackCooldown := attack.attackCooldown - dt);
      if flash.meleeCooldown > 0.0 {
        flash := flash.(meleeCooldown := flash.meleeCooldown - dt);
      }
      if flash.meleeFlashTimer > 0.0 {
        flash := flash.(meleeFlashTimer := flash.meleeFlashTimer - dt);
      }
    }

    /** `choose_attack`; `pick` is the index `random.choice` draws. */
    method ChooseAttack(pick: nat)
      requires pick < |Refill(attack.availableAttacks)|
      modifies this
      ensures Snapshot() == BossLogic.ChooseAttack(old(Snapshot()), pick)
    {
      if attack.attackCooldown > 0.0 {
        return;
      }
      ghost var s := Snapshot();
      var pool := if attack.availableAttacks == [] then AllAttacks else attack.availableAttacks;
      var chosen := pool[pick];
      attack := attack.(availableAttacks := RemoveFirst(pool, chosen), currentAttack := Some(chosen));
      mode := Attacking(chosen);
      assert Snapshot() == Taken(s, chosen);
      ArmAttack(chosen);
    }

    /** The timers `choose_attack` sets for the chosen attack. */
    method ArmAttack(chosen: Attack)
      modifies this
      ensures Snapshot() == Armed(old(Snapshot()), chosen)
    {
      match chosen
      case RandomSpread =>
        attack := attack.(stateTimer := if !phase.phase2 then 3.0 else 2.0);
      case WideSpread =>
        attack := attack.(stateTimer := if !phase.phase2 then 3.0 else 2.0);
      case ChargeAttack =>
        attack := attack.(stateTimer := if !phase.phase2 then 2.0 else 1.5,
          chargeTime := if !phase.phase2 then 1.5 else 1.0, exploded := false);
      case ParticleDivision =>
        attack := attack.(stateTimer := if !phase.phase2 then 6.0 else 4.0);
        corners := corners.(isPulsing := false);
    }

    /** Back to idle once an attack's time is up. */
    method FinishAttack(cooldown: real)
      modifies this
      ensures Snapshot() == EndAttack(old(Snapshot()), cooldown)
    {
      mode := Idle;
      attack := attack.(currentAttack := None, attackCooldown := cooldown);
    }

    /** The idle drift, one unit towards `target`; the in-place `+=` also
        moves the waves' origin while they share the boss's position. */
    method DriftTowards(target: Vec, drift: Vec)
      modifies this
      ensures Snapshot() == Drifted(old(Snapshot()), target, drift)
    {
      var direction := target.Minus(pos);
      if direction != Zero {
        pos := pos.Plus(drift);
        if waves.waveOriginIsPos {
          waves := waves.(waveOrigin := pos);
        }
      }
    }

    /** The idle branch: drift towards the player, then choose. */
    method IdleTick(inp: Input)
      requires ValidDraws(Snapshot(), inp.draws)
      modifies this
      ensures Snapshot() == IdleStep(old(Snapshot()), inp)
    {
      DriftTowards(inp.player.centre, inp.drift);
      if attack.attackCooldown <= 0.0 {
        ChooseAttack(inp.draws.pick);
      }
    }

    /** The random and the wide spread's branch. */
    method SpreadTick(inp: Input, wide: bool) returns (shots: seq<Shot>)
      requires ValidDraws(Snapshot(), inp.draws)
      modifies this
      ensures Snapshot() == SpreadStep(old(Snapshot()))
      ensures shots == SpreadShots(old(Snapshot()), inp, wide)
    {
      shots := [];
      if attack.stateTimer <= 0.0 {
        FinishAttack(if !phase.phase2 then 2.0 else 1.5);
      } else if !wide && inp.draws.roll < 0.15 {
        shots := FireRandomSpread(inp.draws.spreadJitter, inp.draws.spreadSpeed);
      } else if wide && inp.draws.roll < 0.1 {
        shots := FireWideSpread(inp.aim);
      }
    }

    /** The charge attack's branch. */
    method ChargeTick(dt: real)
      modifies this
      ensures Snapshot() == ChargeStep(old(Snapshot()), dt)
    {
      if attack.chargeTime > 0.0 {
        attack := attack.(chargeTime := attack.chargeTime - dt);
        return;
      }
      if !attack.exploded {
        FireChargeExplosion();
        attack := attack.(exploded := true);
      }
      if attack.stateTimer <= 0.0 {
        FinishAttack(if !phase.phase2 then 3.0 else 2.0);
      }
    }

    /** The corner division's branch. */
    method DivisionTick(inp: Input) returns (shots: seq<Shot>)
      requires WellFormed(Snapshot()) && ValidDraws(Snapshot(), inp.draws)
      modifies this
      ensures Snapshot() == DivisionAttackStep(old(Snapshot()), inp)
      ensures shots == DivisionAttackShots(old(Snapshot()), inp)
    {
      if attack.stateTimer <= 0.0 {
        FinishAttack(if !phase.phase2 then 3.0 else 2.0);
        corners := corners.(isPulsing := false);
        shots := [];
        return;
      }
      if !corners.isPulsing && attack.stateTimer > 3.0 {
        StartParticleDivision(inp.draws.cornerDelays);
      }
      shots := UpdateParticleDivision(inp.dt, inp.draws);
    }

    /** The branch for the current state. */
    method StateTick(inp: Input) returns (shots: seq<Shot>)
      requires WellFormed(Snapshot()) && ValidDraws(Snapshot(), inp.draws)
      modifies this
      ensures Snapshot() == AttackStep(old(Snapshot()), inp)
      ensures shots == AttackShots(old(Snapshot()), inp)
    {
      shots := [];
      match mode
      case Idle =>
        IdleTick(inp);
      case Attacking(RandomSpread) =>
        shots := SpreadTick(inp, false);
      case Attacking(WideSpread) =>
        shots := SpreadTick(inp, true);
      case Attacking(ChargeAttack) =>
        ChargeTick(inp.dt);
      case Attacking(ParticleDivision) =>
        shots := DivisionTick(inp);
      case _ =>
    }

    /** The melee check, distances compared squared. */
    method MeleeCheck(player: Player)
      modifies this, player`hearts, player`invulnerableTimer
      ensures Snapshot() == MeleeStep(old(Snapshot()), old(ViewOf(player)))
      ensures ViewOf(player) == Struck(old(Snapshot()), old(ViewOf(player)))
    {
      var meleeRange := Radius + 30;
      var centre := player.Centre();
      if DistSq(pos, centre) < (meleeRange * meleeRange) as real && !player.rolling && flash.meleeCooldown <= 0.0 {
        flash := flash.(meleeCooldown := MeleeCooldownTime, meleeFlashTimer := MeleeFlashTime);
        if player.invulnerableTimer <= 0.0 {
          player.hearts := player.hearts - 1;
          player.invulnerableTimer := MeleeGrace;
        }
      }
    }

    /** The hit flash fading back to the base colour. */
    method FlashTick(dt: real)
      modifies this
      ensures Snapshot() == FlashStep(old(Snapshot()), dt)
    {
      if flash.hitFlash > 0.0 {
        var hitFlash := flash.hitFlash - dt;
        var flashAmount := Min(1.0, hitFlash / HitFlashTime);
        flash := flash.(hitFlash := hitFlash,
          currentColour := Rgb(MinInt(255, TruncInt(200.0 + 55.0 * flashAmount)),
                               MinInt(255, TruncInt(0.0 + 255.0 * flashAmount)),
                               MinInt(255, TruncInt(200.0 + 55.0 * flashAmount))));
      } else {
        flash := flash.(currentColour := BaseColour);
      }
    }

    /** The wave step: fire every due wave from the waves' origin, `remove`
        each fired wave, and stop once the queue is empty. */
    method SpawnDueWaves(dt: real) returns (shots: seq<Shot>)
      modifies this
      ensures Snapshot() == WaveStep(old(Snapshot()), dt)
      ensures shots == WaveShots(old(Snapshot()), dt)
    {
      shots := [];
      if !waves.firingWaves {
        return;
      }
      ghost var s := Snapshot();
      var due;
      due, shots := WaveVolley(dt);
      var rest := RemoveWaves(waves.pendingWaves, due);
      WaveStepStores(s, dt, rest);
      StoreQueue(rest, if rest == [] then 0.0 else waves.waveTimer + dt);
    }

    /** The first loop of the wave step: the waves due and their bullets. */
    method WaveVolley(dt: real) returns (due: seq<Wave>, shots: seq<Shot>)
      requires waves.firingWaves
      ensures due == Due(waves.pendingWaves, waves.waveTimer + dt)
      ensures shots == WaveShots(Snapshot(), dt)
    {
      due, shots := DueWaves(waves.pendingWaves, waves.waveTimer + dt, waves.waveOrigin);
    }

    /** Stores the queue left after the wave step with its flag and timer. */
    method StoreQueue(rest: seq<Wave>, t: real)
      modifies this
      ensures Snapshot() == old(Snapshot()).(pendingWaves := rest, firingWaves := rest != [], waveTimer := t)
    {
      waves := waves.(pendingWaves := rest, firingWaves := rest != [], waveTimer := t);
    }

    /** A fighting tick: timers, the state's branch, melee, the flash, the
        waves. */
    method FightTick(player: Player, inp: Input) returns (shots: seq<Shot>)
      requires WellFormed(Snapshot()) && ValidDraws(Snapshot(), inp.draws) && inp.player == ViewOf(player)
      modifies this, player`hearts, player`invulnerableTimer
      ensures Snapshot() == Fight(old(Snapshot()), inp)
      ensures shots == FightShots(old(Snapshot()), inp)
      ensures ViewOf(player) == FightPlayer(old(Snapshot()), inp)
    {
      ghost var s0 := Snapshot();
      CountDownTimers(inp.dt);
      ghost var s1 := Snapshot();
      var branchShots := StateTick(inp);
      ghost var a := Snapshot();
      MeleeCheck(player);
      FlashTick(inp.dt);
      ghost var f := Snapshot();
      var waveShots := SpawnDueWaves(inp.dt);
      shots := branchShots + waveShots;
      assert f == FlashStep(MeleeStep(a, inp.player), inp.dt);
      assert s1 == CountTimers(s0, inp.dt);
    }

    /** The threshold branch entering the intermission. */
    method EnterIntermission()
      modifies this
      ensures Snapshot() == BossLogic.StartGauntlet(old(Snapshot()).(transitioning := true)).(intermissionDelay := IntermissionTime)
    {
      phase := phase.(transitioning := true);
      StartGauntlet();
      phase := phase.(intermissionDelay := IntermissionTime);
    }

    /** `health_threshold_hit` is set once health first reaches the
        threshold. */
    method MarkThreshold()
      modifies this
      ensures Snapshot() == old(Snapshot()).(healthThresholdHit := true)
    {
      phase := phase.(healthThresholdHit := true);
    }

    method WaitIntermission(dt: real)
      modifies this
      ensures Snapshot() == old(Snapshot()).(intermissionDelay := old(phase.intermissionDelay) - dt)
    {
      phase := phase.(intermissionDelay := phase.intermissionDelay - dt);
    }

    /** `update`.  `drift` is the unit step towards the player's centre and
        `aim` its angle in degrees; `draws` holds the tick's random
        numbers. */
    method Update(player: Player, dt: real, drift: Vec, aim: real, draws: Draws) returns (shots: seq<Shot>)
      requires WellFormed(Snapshot()) && ValidDraws(Snapshot(), draws)
      modifies this, player`hearts, player`invulnerableTimer
      ensures var inp := Input(dt, old(ViewOf(player)), drift, aim, draws);
        Snapshot() == Next(old(Snapshot()), inp) &&
        shots == Emitted(old(Snapshot()), inp) &&
        ViewOf(player) == PlayerAfter(old(Snapshot()), inp)
    {
      ghost var s := Snapshot();
      var inp := Input(dt, ViewOf(player), drift, aim, draws);
      shots := [];
      if mode == Intro {
        IntroTick(dt);
        IntroOutcome(s, inp, Snapshot());
      } else {
        shots := Engage(player, inp);
      }
    }

    /** `update` past the intro: the threshold check, then the intermission,
        the gauntlet or a fighting tick. */
    method Engage(player: Player, inp: Input) returns (shots: seq<Shot>)
      requires WellFormed(Snapshot()) && ValidDraws(Snapshot(), inp.draws)
      requires mode != Intro && inp.player == ViewOf(player)
      modifies this, player`hearts, player`invulnerableTimer
      ensures Snapshot() == Next(old(Snapshot()), inp)
      ensures shots == Emitted(old(Snapshot()), inp)
      ensures ViewOf(player) == PlayerAfter(old(Snapshot()), inp)
    {
      ghost var s := Snapshot();
      var crossing := health <= PhaseThreshold && !phase.phase2 && !phase.healthThresholdHit;
      if crossing {
        MarkThreshold();
      }
      shots := Proceed(player, inp, s, crossing);
    }

    /** The branches after the threshold check, on the marked state. */
    method Proceed(player: Player, inp: Input, ghost s: BossState, crossing: bool) returns (shots: seq<Shot>)
      requires WellFormed(s) && ValidDraws(s, inp.draws) && s.mode != Intro
      requires crossing == CrossesThreshold(s) && Snapshot() == Marked(s) && inp.player == ViewOf(player)
      modifies this, player`hearts, player`invulnerableTimer
      ensures Snapshot() == Next(s, inp)
      ensures shots == Emitted(s, inp)
      ensures ViewOf(player) == PlayerAfter(s, inp)
    {
      shots := [];
      if crossing && !gauntlet.inGauntlet {
        EnterIntermission();
        EnterOutcome(s, inp, Snapshot());
      } else if phase.transitioning && (phase.intermissionDelay > 0.0 || gauntlet.inGauntlet) {
        shots := Transition(inp, s);
      } else {
        MarkedIsWellFormed(s, inp.draws);
        shots := FightTick(player, inp);
        FightOutcome(s, inp, Snapshot(), shots, ViewOf(player));
      }
    }

    /** The intermission pause and then the gauntlet, on the marked state. */
    method Transition(inp: Input, ghost s: BossState) returns (shots: seq<Shot>)
      requires WellFormed(s) && ValidDraws(s, inp.draws)
      requires BranchOf(s) == WaitBranch || BranchOf(s) == GauntletBranch
      requires Snapshot() == Marked(s)
      modifies this
      ensures Snapshot() == Next(s, inp)
      ensures shots == Emitted(s, inp)
      ensures inp.player == PlayerAfter(s, inp)
    {
      if phase.intermissionDelay > 0.0 {
        shots := [];
        WaitIntermission(inp.dt);
        WaitOutcome(s, inp, Snapshot());
      } else {
        shots := UpdateGauntlet(inp.dt);
        GauntletOutcome(s, inp, Snapshot(), shots);
      }
    }
  }
}
