/** What one call of `update` guarantees: the invariant it keeps, the phase
    transition, the gauntlet, melee, the charge attack's waves, the corner
    division and the attack pool. */
module BossProperties {
  import opened Vectors
  import opened Settings
  import opened Lists
  import opened BossPatterns
  import opened WaveScheduler
  import opened BossLogic

  /** The relations between the boss's fields that every state reachable
      after `start_game` keeps. */
  predicate Inv(s: BossState) {
    WellFormed(s) &&
    NoDup(s.availableAttacks) &&
    (s.inGauntlet <==> s.mode == Gauntlet) &&
    (s.transitioning <==> s.mode == Gauntlet) &&
    (s.inGauntlet ==> s.healthThresholdHit && !s.phase2) &&
    (s.phase2 ==> s.healthThresholdHit) &&
    (s.gauntletDirection == 1 || s.gauntletDirection == -1) &&
    0.0 <= s.gauntletAngle < 360.0 &&
    (s.waveOriginIsPos ==> s.waveOrigin == s.pos) &&
    (s.mode.Attacking? ==> s.currentAttack == Some(s.mode.attack))
  }

  /** Under the invariant a fighting tick is one that is past the intro,
      does not cross the threshold and is not in a transition. */
  lemma FightBranchIs(s: BossState)
    requires Inv(s)
    ensures BranchOf(s) == FightBranch <==> s.mode != Intro && !CrossesThreshold(s) && !s.transitioning
    ensures BranchOf(s) != EnterBranch ==> Marked(s) == s
  {
  }

  /** `update` on the intro branch. */
  lemma IntroNext(s: BossState, inp: Input)
    requires WellFormed(s) && ValidDraws(s, inp.draws) && s.mode == Intro
    ensures Next(s, inp) == IntroStep(s, inp.dt)
    ensures Emitted(s, inp) == [] && PlayerAfter(s, inp) == inp.player && Picked(s, inp) == None
  {
  }

  /** `update` on the gauntlet branch, under the invariant. */
  lemma GauntletNext(s: BossState, inp: Input)
    requires Inv(s) && ValidDraws(s, inp.draws) && BranchOf(s) == GauntletBranch
    ensures Next(s, inp) == GauntletStep(s, inp.dt) && Emitted(s, inp) == GauntletShots(s, inp.dt)
    ensures PlayerAfter(s, inp) == inp.player && Picked(s, inp) == None
  {
    FightBranchIs(s);
  }

  /** `update` on the fighting branch, under the invariant. */
  lemma FightNext(s: BossState, inp: Input)
    requires Inv(s) && ValidDraws(s, inp.draws) && BranchOf(s) == FightBranch
    ensures Next(s, inp) == Fight(s, inp) && Emitted(s, inp) == FightShots(s, inp)
    ensures PlayerAfter(s, inp) == FightPlayer(s, inp) && Picked(s, inp) == Choice(CountTimers(s, inp.dt), inp)
  {
    FightBranchIs(s);
  }

  /** A tick of an idle or attacking boss that does not cross the threshold
      is a fighting tick on the state as it is. */
  lemma FightStages(s: BossState, inp: Input)
    requires Inv(s) && ValidDraws(s, inp.draws) && !CrossesThreshold(s)
    requires s.mode == Idle || s.mode.Attacking?
    ensures var s1 := CountTimers(s, inp.dt); var a := AttackStep(s1, inp);
      var e := FlashStep(MeleeStep(a, inp.player), inp.dt);
      Next(s, inp) == WaveStep(e, inp.dt) &&
      Emitted(s, inp) == AttackShots(s1, inp) + WaveShots(e, inp.dt) &&
      PlayerAfter(s, inp) == Struck(a, inp.player) &&
      Picked(s, inp) == Choice(s1, inp)
  {
    FightBranchIs(s);
  }

  /** Melee and the hit flash change only their own four fields. */
  lemma TailFrame(c: BossState, pv: PlayerView, dt: real)
    ensures var e := FlashStep(MeleeStep(c, pv), dt);
      e == c.(meleeCooldown := e.meleeCooldown, meleeFlashTimer := e.meleeFlashTimer,
              hitFlash := e.hitFlash, currentColour := e.currentColour)
  {
    var m := MeleeStep(c, pv);
    assert m == c.(meleeCooldown := m.meleeCooldown, meleeFlashTimer := m.meleeFlashTimer);
    var e := FlashStep(m, dt);
    assert e == m.(hitFlash := e.hitFlash, currentColour := e.currentColour);
  }

  /** What the end of a fighting tick keeps from the branch's state: the
      mode and the corner division; the run of waves stops only when it
      was running. */
  lemma WaveTailKeeps(a: BossState, pv: PlayerView, dt: real)
    ensures var r := WaveStep(FlashStep(MeleeStep(a, pv), dt), dt);
      r.mode == a.mode && r.isPulsing == a.isPulsing && r.cornerExploded == a.cornerExploded &&
      r.explosionDelays == a.explosionDelays && r.availableAttacks == a.availableAttacks &&
      r.currentAttack == a.currentAttack && r.health == a.health && r.phase2 == a.phase2 &&
      r.healthThresholdHit == a.healthThresholdHit
    ensures !a.firingWaves ==> WaveShots(FlashStep(MeleeStep(a, pv), dt), dt) == []
  {
    TailFrame(a, pv, dt);
    var e := FlashStep(MeleeStep(a, pv), dt);
    var r := WaveStep(e, dt);
    assert r == e.(pendingWaves := r.pendingWaves, firingWaves := r.firingWaves, waveTimer := r.waveTimer);
  }

  /** A fighting tick ends in the branch's mode, pool and corner division,
      and adds only the branch's bullets unless waves were running. */
  lemma FightKeepsBranch(s: BossState, inp: Input)
    requires Inv(s) && ValidDraws(s, inp.draws) && !CrossesThreshold(s)
    requires s.mode == Idle || s.mode.Attacking?
    ensures var s1 := CountTimers(s, inp.dt); var a := AttackStep(s1, inp); var r := Next(s, inp);
      r.mode == a.mode && r.isPulsing == a.isPulsing && r.cornerExploded == a.cornerExploded &&
      r.explosionDelays == a.explosionDelays && r.availableAttacks == a.availableAttacks &&
      r.currentAttack == a.currentAttack && r.health == a.health && r.phase2 == a.phase2 &&
      r.healthThresholdHit == a.healthThresholdHit &&
      (!a.firingWaves ==> Emitted(s, inp) == AttackShots(s1, inp))
  {
    var s1 := CountTimers(s, inp.dt);
    var a := AttackStep(s1, inp);
    FightStages(s, inp);
    WaveTailKeeps(a, inp.player, inp.dt);
    if !a.firingWaves {
      assert AttackShots(s1, inp) + [] == AttackShots(s1, inp);
    }
  }

  // ---- the invariant -------------------------------------------------------

  /** A new boss that has run `start_game` satisfies the invariant. */
  lemma StartIsInv(x: real, y: real)
    ensures Inv(StartGame(New(x, y)))
  {
    assert NoDup(StartGame(New(x, y)).availableAttacks);
  }

  /** `reset` re-establishes the invariant. */
  lemma ResetKeepsInv(s: BossState)
    requires Inv(s)
    ensures Inv(Reset(s))
  {
    assert NoDup(AllAttacks);
  }

  /** `take_damage` keeps the invariant. */
  lemma DamagedKeepsInv(s: BossState)
    requires Inv(s)
    ensures Inv(Damaged(s))
  {
  }

  lemma IdleKeepsInv(s: BossState, inp: Input)
    requires Inv(s) && s.mode == Idle && ValidDraws(s, inp.draws)
    ensures Inv(IdleStep(s, inp))
  {
    var s1 := Drifted(s, inp.player.centre, inp.drift);
    assert Inv(s1);
    if s1.attackCooldown <= 0.0 {
      ChooseAttackKeepsNoDup(s1, inp.draws.pick);
    }
  }

  lemma ChargeKeepsInv(s: BossState, dt: real)
    requires Inv(s) && s.mode == Attacking(ChargeAttack)
    ensures Inv(ChargeStep(s, dt))
  {
    if s.chargeTime > 0.0 {
      assert ChargeStep(s, dt) == s.(chargeTime := s.chargeTime - dt);
    } else {
      var s1 := if !s.exploded then ChargeExplosion(s).(exploded := true) else s;
      assert Inv(s1);
      var k := if !s.phase2 then 3.0 else 2.0;
      assert ChargeStep(s, dt) == if s1.stateTimer <= 0.0 then EndAttack(s1, k) else s1;
    }
  }

  lemma DivisionKeepsInv(s: BossState, inp: Input)
    requires Inv(s) && s.mode == Attacking(ParticleDivision) && ValidDraws(s, inp.draws)
    ensures Inv(DivisionAttackStep(s, inp))
  {
    if s.stateTimer > 0.0 {
      var s1 := DivisionArmed(s, inp);
      assert Inv(s1);
      assert Inv(DivisionStep(s1, inp.dt));
    }
  }

  lemma SpreadKeepsInv(s: BossState)
    requires Inv(s) && s.mode.Attacking?
    ensures Inv(SpreadStep(s))
  {
  }

  /** The state branch of a fighting tick keeps the invariant. */
  lemma AttackStepKeepsInv(s: BossState, inp: Input)
    requires Inv(s) && !s.transitioning && s.mode != Intro && ValidDraws(s, inp.draws)
    ensures Inv(AttackStep(s, inp))
  {
    match s.mode
    case Idle =>
      IdleKeepsInv(s, inp);
    case Attacking(RandomSpread) =>
      SpreadKeepsInv(s);
    case Attacking(WideSpread) =>
      SpreadKeepsInv(s);
    case Attacking(ChargeAttack) =>
      ChargeKeepsInv(s, inp.dt);
    case Attacking(ParticleDivision) =>
      DivisionKeepsInv(s, inp);
  }

  /** A fighting tick keeps the invariant. */
  lemma FightKeepsInv(s: BossState, inp: Input)
    requires Inv(s) && !s.transitioning && s.mode != Intro && ValidDraws(s, inp.draws)
    ensures Inv(Fight(s, inp))
  {
    var s1 := CountTimers(s, inp.dt);
    AttackStepKeepsInv(s1, inp);
    var a := AttackStep(s1, inp);
    var m := MeleeStep(a, inp.player);
    var f := FlashStep(m, inp.dt);
    assert Inv(f);
    assert Fight(s, inp) == WaveStep(f, inp.dt);
  }

  lemma IntroKeepsInv(s: BossState, dt: real)
    requires Inv(s) && s.mode == Intro
    ensures Inv(IntroStep(s, dt))
  {
  }

  /** Entering the intermission and waiting it out keep the invariant. */
  lemma IntermissionKeepsInv(s: BossState, inp: Input)
    requires Inv(s) && ValidDraws(s, inp.draws)
    requires BranchOf(s) == EnterBranch || BranchOf(s) == WaitBranch
    ensures Inv(Next(s, inp))
  {
    if BranchOf(s) == EnterBranch {
      assert Next(s, inp) == StartGauntlet(s.(healthThresholdHit := true)).(intermissionDelay := IntermissionTime);
    } else {
      FightBranchIs(s);
      assert Next(s, inp) == s.(intermissionDelay := s.intermissionDelay - inp.dt);
    }
  }

  lemma GauntletKeepsInv(s: BossState, dt: real)
    requires Inv(s) && s.mode == Gauntlet
    ensures Inv(GauntletStep(s, dt))
  {
    var t := GauntletTurn(s, dt);
    assert Inv(t);
    var f := GauntletFire(t);
    assert Inv(f);
  }

  /** Every call of `update` keeps the invariant. */
  lemma NextKeepsInv(s: BossState, inp: Input)
    requires Inv(s) && ValidDraws(s, inp.draws)
    ensures Inv(Next(s, inp))
  {
    FightBranchIs(s);
    match BranchOf(s)
    case IntroBranch =>
      IntroNext(s, inp);
      IntroKeepsInv(s, inp.dt);
    case EnterBranch =>
      IntermissionKeepsInv(s, inp);
    case WaitBranch =>
      IntermissionKeepsInv(s, inp);
    case GauntletBranch =>
      GauntletNext(s, inp);
      GauntletKeepsInv(s, inp.dt);
    case FightBranch =>
      FightNext(s, inp);
      FightKeepsInv(s, inp);
  }

  // ---- health and damage ---------------------------------------------------

  /** `update` itself never changes health: only `take_damage` lowers it and
      only `reset` restores it. */
  lemma NextKeepsHealth(s: BossState, inp: Input)
    requires WellFormed(s) && ValidDraws(s, inp.draws)
    ensures Next(s, inp).health == s.health
  {
    if BranchOf(s) == IntroBranch {
      IntroNext(s, inp);
    } else if BranchOf(s) == FightBranch {
      FightKeepsHealth(Marked(s), inp);
    }
  }

  lemma FightKeepsHealth(s: BossState, inp: Input)
    requires WellFormed(s) && ValidDraws(s, inp.draws)
    ensures Fight(s, inp).health == s.health
  {
    var a := AttackStep(CountTimers(s, inp.dt), inp);
    WaveTailKeeps(a, inp.player, inp.dt);
  }

  /** The boss cannot be hurt during the gauntlet or its intermission. */
  lemma NoDamageInGauntlet(s: BossState)
    requires Inv(s) && (s.mode == Gauntlet || s.inGauntlet || s.transitioning)
    ensures Damaged(s) == s
  {
  }

  // ---- the phase transition ------------------------------------------------

  /** The first post-intro tick that sees health at or below 350 before
      phase 2 starts the intermission: the boss is at the centre, the
      gauntlet is armed at angle 30 with 10 s to run, a 2 s delay precedes
      it, and nothing else happens on that tick. */
  lemma ThresholdStartsGauntlet(s: BossState, inp: Input)
    requires Inv(s) && ValidDraws(s, inp.draws) && CrossesThreshold(s)
    ensures var r := Next(s, inp);
      r.mode == Gauntlet && r.transitioning && r.inGauntlet && r.healthThresholdHit && !r.phase2 &&
      r.pos == ArenaCentre && r.gauntletTimer == GauntletTime &&
      r.gauntletAngle == GauntletStartAngle && r.gauntletDirection == 1 &&
      r.intermissionDelay == IntermissionTime && r.currentAttack == None
    ensures Emitted(s, inp) == [] && PlayerAfter(s, inp) == inp.player && Picked(s, inp) == None
  {
    assert BranchOf(s) == EnterBranch;
  }

  /** The gauntlet is entered only through the threshold, and the flags
      that guard it, once set, stay set. */
  lemma GauntletEntryNeedsThreshold(s: BossState, inp: Input)
    requires Inv(s) && ValidDraws(s, inp.draws)
    ensures s.mode != Gauntlet && Next(s, inp).mode == Gauntlet ==> CrossesThreshold(s)
    ensures s.healthThresholdHit ==> Next(s, inp).healthThresholdHit
    ensures s.phase2 ==> Next(s, inp).phase2
  {
    match BranchOf(s)
    case IntroBranch =>
      IntroNext(s, inp);
    case EnterBranch =>
    case WaitBranch =>
      IntermissionFlags(s, inp);
    case GauntletBranch =>
      GauntletNext(s, inp);
    case FightBranch =>
      FightFlags(s, inp);
  }

  /** Waiting out the intermission keeps the boss in the gauntlet state and
      keeps the phase flags. */
  lemma IntermissionFlags(s: BossState, inp: Input)
    requires Inv(s) && ValidDraws(s, inp.draws) && BranchOf(s) == WaitBranch
    ensures var r := Next(s, inp);
      s.mode == Gauntlet && r.healthThresholdHit == s.healthThresholdHit && r.phase2 == s.phase2
  {
    FightBranchIs(s);
    assert Next(s, inp) == s.(intermissionDelay := s.intermissionDelay - inp.dt);
  }

  /** A fighting tick never enters the gauntlet and keeps the phase
      flags. */
  lemma FightFlags(s: BossState, inp: Input)
    requires Inv(s) && ValidDraws(s, inp.draws) && BranchOf(s) == FightBranch
    ensures var r := Next(s, inp);
      r.mode != Gauntlet && r.healthThresholdHit == s.healthThresholdHit && r.phase2 == s.phase2
  {
    FightBranchIs(s);
    FightKeepsBranch(s, inp);
  }

  /** While the intermission delay runs, a tick only counts it down. */
  lemma IntermissionOnlyWaits(s: BossState, inp: Input)
    requires Inv(s) && ValidDraws(s, inp.draws)
    requires s.mode == Gauntlet && s.intermissionDelay > 0.0
    ensures Next(s, inp) == s.(intermissionDelay := s.intermissionDelay - inp.dt)
    ensures Emitted(s, inp) == [] && PlayerAfter(s, inp) == inp.player && Picked(s, inp) == None
  {
    assert BranchOf(s) == WaitBranch;
  }

  /** A gauntlet tick after the delay: a 24-bullet volley from the boss
      whenever the fire timer expires, the angle kept in [0, 360), the
      direction flipped when the switch timer expires, and phase 2 begun
      (idle, cooldown 3, transition over) when the gauntlet timer
      expires. */
  lemma GauntletTick(s: BossState, inp: Input)
    requires Inv(s) && ValidDraws(s, inp.draws)
    requires s.mode == Gauntlet && s.intermissionDelay <= 0.0
    ensures var r := Next(s, inp); var dt := inp.dt;
      (s.gauntletSwitchTimer - dt <= 0.0 ==>
        r.gauntletDirection == -s.gauntletDirection && r.gauntletSwitchTimer == GauntletSwitchTime) &&
      (s.gauntletSwitchTimer - dt > 0.0 ==> r.gauntletDirection == s.gauntletDirection) &&
      (s.gauntletFireTimer - dt <= 0.0 ==> r.gauntletFireTimer == GauntletFireInterval) &&
      (s.gauntletFireTimer - dt > 0.0 ==> r.gauntletAngle == s.gauntletAngle) &&
      0.0 <= r.gauntletAngle < 360.0 &&
      (s.gauntletTimer - dt <= 0.0 ==>
        r.phase2 && !r.transitioning && !r.inGauntlet && r.mode == Idle && r.attackCooldown == PostGauntletCooldown) &&
      (s.gauntletTimer - dt > 0.0 ==> r.mode == Gauntlet && r.transitioning && !r.phase2) &&
      r.pos == s.pos
    ensures s.gauntletFireTimer - inp.dt <= 0.0 ==>
      Emitted(s, inp) == Fire(s.pos, GauntletBolts(s.gauntletAngle)) && |Emitted(s, inp)| == 24
    ensures s.gauntletFireTimer - inp.dt > 0.0 ==> Emitted(s, inp) == []
    ensures PlayerAfter(s, inp) == inp.player && Picked(s, inp) == None
  {
    assert BranchOf(s) == GauntletBranch;
    assert Marked(s) == s;
    assert Next(s, inp) == GauntletStep(s, inp.dt);
    assert Emitted(s, inp) == GauntletShots(s, inp.dt);
    GauntletVolleyShape(s.gauntletAngle);
  }

  // ---- melee ---------------------------------------------------------------

  /** Melee cannot happen on intro, threshold or transition ticks. */
  lemma NoMeleeOutsideFight(s: BossState, inp: Input)
    requires Inv(s) && ValidDraws(s, inp.draws)
    requires s.mode == Intro || CrossesThreshold(s) || s.transitioning
    ensures PlayerAfter(s, inp) == inp.player
  {
    FightBranchIs(s);
  }

  /** On a fighting tick the swing is judged at the boss's position after
      this tick's drift, with the cooldown already counted down; a swing
      costs a heart only when the player's `invulnerable_timer` is spent,
      and it restarts the boss's melee cooldown. */
  lemma MeleeOnFightingTick(s: BossState, inp: Input)
    requires Inv(s) && ValidDraws(s, inp.draws)
    requires s.mode != Intro && !CrossesThreshold(s) && !s.transitioning
    ensures var a := AttackStep(CountTimers(s, inp.dt), inp);
      var swing := DistSq(a.pos, inp.player.centre) < 4900.0 && !inp.player.rolling &&
                   CountDown(s.meleeCooldown, inp.dt) <= 0.0;
      var r := Next(s, inp); var p := PlayerAfter(s, inp);
      (swing ==> r.meleeCooldown == MeleeCooldownTime && r.meleeFlashTimer == MeleeFlashTime) &&
      (!swing ==> r.meleeCooldown == CountDown(s.meleeCooldown, inp.dt)) &&
      (swing && inp.player.invulnerableTimer <= 0.0 <==> p.hearts == inp.player.hearts - 1) &&
      (swing && inp.player.invulnerableTimer <= 0.0 ==> p.invulnerableTimer == MeleeGrace) &&
      (!(swing && inp.player.invulnerableTimer <= 0.0) ==> p == inp.player)
  {
    FightBranchIs(s);
    var s1 := CountTimers(s, inp.dt);
    var a := AttackStep(s1, inp);
    assert a.meleeCooldown == CountDown(s.meleeCooldown, inp.dt);
    assert PlayerAfter(s, inp) == Struck(a, inp.player);
    var m := MeleeStep(a, inp.player);
    assert Next(s, inp) == WaveStep(FlashStep(m, inp.dt), inp.dt);
    assert Next(s, inp).meleeCooldown == m.meleeCooldown;
  }

  // ---- the wave scheduler inside a tick ------------------------------------

  /** The wave loop is the scheduler: it fires exactly the due waves and
      keeps exactly the waiting ones, and it stops once the queue is
      empty. */
  lemma WaveStepFollowsSchedule(s: BossState, dt: real)
    ensures !s.firingWaves ==> WaveStep(s, dt) == s && WaveShots(s, dt) == []
    ensures s.firingWaves ==> WaveStep(s, dt).pendingWaves == Waiting(s.pendingWaves, s.waveTimer + dt)
    ensures s.firingWaves ==> WaveShots(s, dt) == Released(s.waveOrigin, Due(s.pendingWaves, s.waveTimer + dt))
    ensures s.firingWaves ==> (WaveStep(s, dt).firingWaves <==> WaveStep(s, dt).pendingWaves != [])
    ensures s.firingWaves && WaveStep(s, dt).firingWaves ==> WaveStep(s, dt).waveTimer == s.waveTimer + dt
    ensures s.firingWaves && !WaveStep(s, dt).firingWaves ==> WaveStep(s, dt).waveTimer == 0.0
  {
    if s.firingWaves {
      WaveStepFiring(s, dt, WaveStep(s, dt));
    }
  }

  lemma WaveStepFiring(s: BossState, dt: real, r: BossState)
    requires s.firingWaves && r == WaveStep(s, dt)
    ensures r.pendingWaves == Waiting(s.pendingWaves, s.waveTimer + dt)
    ensures r.firingWaves <==> r.pendingWaves != []
    ensures r.waveTimer == if r.firingWaves then s.waveTimer + dt else 0.0
  {
    RemovingDueLeavesWaiting(s.pendingWaves, s.waveTimer + dt);
  }

  /** Only the first wave of a fresh charge queue is due before the second
      wave's delay. */
  lemma ChargeFirstWaveOnly(phase2: bool, t: real)
    requires 0.0 <= t < (if phase2 then 0.12 else 0.15)
    ensures Due(ChargeWaves(phase2), t) == [ChargeWaves(phase2)[0]]
    ensures Waiting(ChargeWaves(phase2), t) == ChargeWaves(phase2)[1..]
  {
    var ws := ChargeWaves(phase2);
    ChargeWavesShape(phase2);
    assert ws == [ws[0]] + ws[1..];
    var rest := ws[1..];
    forall i | 0 <= i < |rest| ensures rest[i].delay > t {
      assert rest[i] == ws[i + 1];
    }
    NothingDueYet(rest, t);
  }

  /** A fighting tick of the charge attack: the charge branch, melee, the
      flash, then the wave loop; the branch itself fires nothing. */
  lemma ChargeTickStages(s: BossState, inp: Input)
    requires Inv(s) && ValidDraws(s, inp.draws)
    requires s.mode == Attacking(ChargeAttack) && !CrossesThreshold(s)
    ensures var e := FlashStep(MeleeStep(ChargeStep(CountTimers(s, inp.dt), inp.dt), inp.player), inp.dt);
      Next(s, inp) == WaveStep(e, inp.dt) && Emitted(s, inp) == WaveShots(e, inp.dt)
  {
    FightBranchIs(s);
    var s1 := CountTimers(s, inp.dt);
    assert AttackStep(s1, inp) == ChargeStep(s1, inp.dt);
    assert AttackShots(s1, inp) == [];
    var e := FlashStep(MeleeStep(ChargeStep(s1, inp.dt), inp.player), inp.dt);
    assert Fight(s, inp) == WaveStep(e, inp.dt);
    assert FightShots(s, inp) == [] + WaveShots(e, inp.dt);
  }

  /** Melee and the hit flash leave the wave queue and the charge alone. */
  lemma TailKeepsWaves(c: BossState, pv: PlayerView, dt: real)
    ensures var e := FlashStep(MeleeStep(c, pv), dt);
      e.pendingWaves == c.pendingWaves && e.firingWaves == c.firingWaves && e.waveTimer == c.waveTimer &&
      e.waveOrigin == c.waveOrigin && e.chargeTime == c.chargeTime && e.exploded == c.exploded
  {
    var m := MeleeStep(c, pv);
    assert m == c.(meleeCooldown := m.meleeCooldown, meleeFlashTimer := m.meleeFlashTimer);
    var e := FlashStep(m, dt);
    assert e == m.(hitFlash := e.hitFlash, currentColour := e.currentColour);
  }

  /** What a charge tick hands to the wave loop in `c`: the wind-up counts
      down, or the charge has exploded; a fresh queue of the phase's rings
      from the boss on the exploding tick, the old queue otherwise. */
  predicate ChargeHandOver(s: BossState, dt: real, c: BossState) {
    (s.chargeTime > 0.0 ==> c.chargeTime == s.chargeTime - dt && c.exploded == s.exploded) &&
    (s.chargeTime <= 0.0 ==> c.exploded) &&
    (s.chargeTime <= 0.0 && !s.exploded ==>
      c.pendingWaves == ChargeWaves(s.phase2) && c.firingWaves && c.waveTimer == 0.0 && c.waveOrigin == s.pos) &&
    (s.exploded || s.chargeTime > 0.0 ==>
      c.pendingWaves == s.pendingWaves && c.firingWaves == s.firingWaves && c.waveTimer == s.waveTimer)
  }

  /** What the charge branch leaves for the wave loop. */
  lemma ChargeQueue(s: BossState, dt: real)
    requires s.mode == Attacking(ChargeAttack)
    ensures ChargeHandOver(s, dt, ChargeStep(s, dt))
  {
    if s.chargeTime > 0.0 {
      assert ChargeStep(s, dt) == s.(chargeTime := s.chargeTime - dt);
    } else if !s.exploded {
      ExplodingCharge(s, dt);
    } else {
      SpentCharge(s, dt);
    }
  }

  lemma ExplodingCharge(s: BossState, dt: real)
    requires s.chargeTime <= 0.0 && !s.exploded
    ensures var c := ChargeStep(s, dt);
      c.exploded && c.pendingWaves == ChargeWaves(s.phase2) && c.firingWaves && c.waveTimer == 0.0 &&
      c.waveOrigin == s.pos
  {
    var x := ChargeExplosion(s).(exploded := true);
    var k := if !s.phase2 then 3.0 else 2.0;
    assert ChargeStep(s, dt) == if x.stateTimer <= 0.0 then EndAttack(x, k) else x;
  }

  lemma SpentCharge(s: BossState, dt: real)
    requires s.chargeTime <= 0.0 && s.exploded
    ensures var c := ChargeStep(s, dt);
      c.exploded && c.pendingWaves == s.pendingWaves && c.firingWaves == s.firingWaves &&
      c.waveTimer == s.waveTimer
  {
    var k := if !s.phase2 then 3.0 else 2.0;
    assert ChargeStep(s, dt) == if s.stateTimer <= 0.0 then EndAttack(s, k) else s;
  }

  /** The wave loop run on a freshly exploded charge: the rings not yet due
      stay queued, the due ones leave from the boss, and before the second
      ring's delay that is the first ring alone. */
  lemma FreshRingsTick(e: BossState, dt: real, phase2: bool, p: Vec)
    requires e.pendingWaves == ChargeWaves(phase2) && e.firingWaves && e.waveTimer == 0.0 && e.waveOrigin == p
    ensures WaveStep(e, dt).pendingWaves == Waiting(ChargeWaves(phase2), dt)
    ensures WaveShots(e, dt) == Released(p, Due(ChargeWaves(phase2), dt))
    ensures 0.0 <= dt < (if phase2 then 0.12 else 0.15) ==>
      WaveShots(e, dt) == Fire(p, ChargeWaves(phase2)[0].bolts) &&
      |WaveShots(e, dt)| == (if phase2 then 32 else 24)
  {
    WaveStepFollowsSchedule(e, dt);
    assert 0.0 + dt == dt;
    if 0.0 <= dt < (if phase2 then 0.12 else 0.15) {
      ChargeWavesShape(phase2);
      ChargeFirstWaveOnly(phase2, dt);
      var w0 := ChargeWaves(phase2)[0];
      assert Released(p, [w0]) == Fire(p, w0.bolts) + Released(p, []);
      assert Fire(p, w0.bolts) + [] == Fire(p, w0.bolts);
    }
  }

  /** The state the charge tick hands to the wave loop, in terms of the
      state before it. */
  lemma ChargeTickQueue(s: BossState, inp: Input)
    requires s.mode == Attacking(ChargeAttack)
    ensures ChargeHandOver(s, inp.dt,
      FlashStep(MeleeStep(ChargeStep(CountTimers(s, inp.dt), inp.dt), inp.player), inp.dt))
  {
    var s1 := CountTimers(s, inp.dt);
    assert s1.chargeTime == s.chargeTime && s1.exploded == s.exploded && s1.phase2 == s.phase2;
    assert s1.pendingWaves == s.pendingWaves && s1.firingWaves == s.firingWaves && s1.waveTimer == s.waveTimer;
    ChargeQueue(s1, inp.dt);
    TailKeepsWaves(ChargeStep(s1, inp.dt), inp.player, inp.dt);
  }

  /** A charge tick's outcome `r` and bullets `shots`: the wind-up counts
      down or the charge has exploded; on the exploding tick the queue is the
      phase's rings not yet due and the bullets are the due rings' from the
      boss, which before the second ring's delay is the first ring alone;
      on any other tick the queue is what the wave loop leaves of the old
      one. */
  predicate ChargeResult(s: BossState, dt: real, r: BossState, shots: seq<Shot>) {
    (s.chargeTime > 0.0 ==> r.chargeTime == s.chargeTime - dt && r.exploded == s.exploded) &&
    (s.chargeTime <= 0.0 ==> r.exploded) &&
    (s.chargeTime <= 0.0 && !s.exploded ==>
      r.pendingWaves == Waiting(ChargeWaves(s.phase2), dt) &&
      shots == Released(s.pos, Due(ChargeWaves(s.phase2), dt))) &&
    (s.chargeTime <= 0.0 && !s.exploded && 0.0 <= dt < (if s.phase2 then 0.12 else 0.15) ==>
      shots == Fire(s.pos, ChargeWaves(s.phase2)[0].bolts) && |shots| == (if s.phase2 then 32 else 24)) &&
    (s.exploded || s.chargeTime > 0.0 ==>
      r.pendingWaves == (if s.firingWaves then Waiting(s.pendingWaves, s.waveTimer + dt) else s.pendingWaves))
  }

  /** The charge tick's outcome given what the branch handed to the wave
      loop. */
  lemma ChargeOutcome(s: BossState, dt: real, e: BossState)
    requires ChargeHandOver(s, dt, e)
    ensures ChargeResult(s, dt, WaveStep(e, dt), WaveShots(e, dt))
  {
    var r := WaveStep(e, dt);
    assert r == e.(pendingWaves := r.pendingWaves, firingWaves := r.firingWaves, waveTimer := r.waveTimer);
    if s.chargeTime <= 0.0 && !s.exploded {
      FreshRingsTick(e, dt, s.phase2, s.pos);
    } else {
      WaveStepFollowsSchedule(e, dt);
    }
  }

  /** The charge attack's explosion: on the first tick that starts with the
      wind-up spent it queues the phase's rings and the first ring (delay 0)
      leaves at once from the boss; `exploded` then keeps it from firing
      again until the next charge is chosen. */
  lemma ChargeExplodesOnce(s: BossState, inp: Input)
    requires Inv(s) && ValidDraws(s, inp.draws)
    requires s.mode == Attacking(ChargeAttack) && !CrossesThreshold(s)
    ensures ChargeResult(s, inp.dt, Next(s, inp), Emitted(s, inp))
  {
    var dt := inp.dt;
    var e := FlashStep(MeleeStep(ChargeStep(CountTimers(s, dt), dt), inp.player), dt);
    ChargeTickStages(s, inp);
    ChargeTickQueue(s, inp);
    ChargeOutcome(s, dt, e);
  }

  // ---- the corner division -------------------------------------------------

  /** One countdown of the corner division: an exploded corner keeps its
      delay and flag; an unexploded one loses `dt` and explodes exactly when
      its delay is spent; the bursts are those corners' rings; and the attack
      ends (pulse off, idle, the phase's cooldown) exactly when all four have
      exploded. */
  lemma CornerCountdown(s: BossState, dt: real, d: Draws)
    requires WellFormed(s) && ValidDraws(s, d) && s.isPulsing
    ensures var r := DivisionStep(s, dt);
      |r.cornerExploded| == 4 && |r.explosionDelays| == 4 &&
      (forall i :: 0 <= i < 4 && s.cornerExploded[i] ==>
        r.cornerExploded[i] && r.explosionDelays[i] == s.explosionDelays[i]) &&
      (forall i :: 0 <= i < 4 && !s.cornerExploded[i] ==>
        r.explosionDelays[i] == s.explosionDelays[i] - dt &&
        (r.cornerExploded[i] <==> r.explosionDelays[i] <= 0.0)) &&
      (AllTrue(r.cornerExploded) ==>
        !r.isPulsing && r.mode == Idle && r.attackCooldown == (if s.phase2 then 2.0 else 3.0)) &&
      (!AllTrue(r.cornerExploded) ==> r.isPulsing && r.mode == s.mode)
    ensures |DivisionShots(s, dt, d)| == CornerCount(s.phase2) * BurstCount(s, dt, 4)
  {
    var c := CornersCounted(s, dt);
    assert DivisionStep(s, dt) == DivisionSettled(c);
    CornerShotsCount(s, dt, d, 4);
  }

  /** No corner bursting means no corner bullets. */
  lemma {:induction false} QuietCorners(s: BossState, dt: real, d: Draws, n: nat)
    requires WellFormed(s) && s.isPulsing && ValidDraws(s, d) && n <= 4
    requires forall i :: 0 <= i < n ==> !Bursting(s, dt, i)
    ensures CornerShots(s, dt, d, n) == [] && BurstCount(s, dt, n) == 0
  {
    if n > 0 {
      QuietCorners(s, dt, d, n - 1);
      assert !Bursting(s, dt, n - 1);
    }
  }

  /** The division's first branch: the four delays are drawn, each corner
      counts down once from its draw, none is spent yet, and nothing is
      fired. */
  lemma DivisionFirstStep(s: BossState, inp: Input)
    requires WellFormed(s) && ValidDraws(s, inp.draws)
    requires s.mode == Attacking(ParticleDivision) && !s.isPulsing && s.stateTimer > 3.0
    requires 0.0 <= inp.dt < 0.2
    ensures var a := AttackStep(s, inp);
      a.isPulsing && a.cornerExploded == [false, false, false, false] && |a.explosionDelays| == 4 &&
      (forall i :: 0 <= i < 4 ==> a.explosionDelays[i] == inp.draws.cornerDelays[i] - inp.dt) &&
      a.mode == Attacking(ParticleDivision) && a.firingWaves == s.firingWaves
    ensures AttackShots(s, inp) == []
  {
    var s2 := StartDivision(s, inp.draws.cornerDelays);
    assert DivisionArmed(s, inp) == s2;
    assert AttackStep(s, inp) == DivisionAttackStep(s, inp) == DivisionStep(s2, inp.dt);
    assert AttackShots(s, inp) == DivisionAttackShots(s, inp) == DivisionShots(s2, inp.dt, inp.draws);
    FreshCountdown(s2, inp.dt, inp.draws);
  }

  /** The first countdown after the delays are drawn: every delay is at
      least 0.2, so a shorter tick spends none of them. */
  lemma FreshCountdown(s: BossState, dt: real, d: Draws)
    requires WellFormed(s) && ValidDraws(s, d) && s.isPulsing && 0.0 <= dt < 0.2
    requires s.explosionDelays == d.cornerDelays && s.cornerExploded == [false, false, false, false]
    ensures var r := DivisionStep(s, dt);
      r.isPulsing && r.cornerExploded == [false, false, false, false] && |r.explosionDelays| == 4 &&
      (forall i :: 0 <= i < 4 ==> r.explosionDelays[i] == d.cornerDelays[i] - dt) &&
      r.mode == s.mode && r.firingWaves == s.firingWaves
    ensures DivisionShots(s, dt, d) == []
  {
    assert forall i :: 0 <= i < 4 ==> !Bursting(s, dt, i);
    var flags := CountedFlags(s, dt);
    assert flags == [false, false, false, false];
    assert !flags[0];
    assert DivisionStep(s, dt) == s.(cornerPulseTimer := s.cornerPulseTimer + dt,
      explosionDelays := CountedDelays(s, dt), cornerExploded := flags);
    QuietCorners(s, dt, d, 4);
  }

  /** The division arms on its first fighting tick: its state timer starts
      at 6 or 4, so after one short tick it is still above 3, and the four
      corners count down from the tick's delay draws, none of them yet
      spent. */
  lemma DivisionArmsAtOnce(s: BossState, inp: Input)
    requires Inv(s) && ValidDraws(s, inp.draws) && !CrossesThreshold(s)
    requires s.mode == Attacking(ParticleDivision) && !s.isPulsing
    requires s.stateTimer == (if s.phase2 then 4.0 else 6.0) && 0.0 <= inp.dt < 0.2
    ensures var r := Next(s, inp);
      r.isPulsing && r.cornerExploded == [false, false, false, false] && |r.explosionDelays| == 4 &&
      (forall i :: 0 <= i < 4 ==> r.explosionDelays[i] == inp.draws.cornerDelays[i] - inp.dt) &&
      r.mode == Attacking(ParticleDivision)
    ensures !s.firingWaves ==> Emitted(s, inp) == []
  {
    var s1 := CountTimers(s, inp.dt);
    FightKeepsBranch(s, inp);
    DivisionFirstStep(s1, inp);
    assert s1.firingWaves == s.firingWaves;
  }

  // ---- choosing attacks inside a tick --------------------------------------

  /** An idle branch takes from the pool exactly the attack it chooses. */
  lemma IdlePool(s: BossState, inp: Input)
    requires WellFormed(s) && ValidDraws(s, inp.draws) && s.mode == Idle
    ensures var a := AttackStep(s, inp); var c := Choice(s, inp);
      (c == None ==> a.availableAttacks == s.availableAttacks) &&
      (c.Some? ==>
        c.value in Refill(s.availableAttacks) &&
        a.availableAttacks == RemoveFirst(Refill(s.availableAttacks), c.value) &&
        a.mode == Attacking(c.value))
  {
    var s2 := Drifted(s, inp.player.centre, inp.drift);
    assert AttackStep(s, inp) == IdleStep(s, inp);
    if s2.attackCooldown <= 0.0 {
      var chosen := Refill(s.availableAttacks)[inp.draws.pick];
      assert chosen in Refill(s.availableAttacks);
      var a := ChooseAttack(s2, inp.draws.pick);
      assert a.availableAttacks == RemoveFirst(Refill(s.availableAttacks), chosen);
      assert AttackStep(s, inp) == a;
    } else {
      assert AttackStep(s, inp) == s2;
    }
  }

  /** An attack's branch leaves the pool alone and chooses nothing. */
  lemma BusyPool(s: BossState, inp: Input)
    requires WellFormed(s) && ValidDraws(s, inp.draws) && s.mode.Attacking?
    ensures AttackStep(s, inp).availableAttacks == s.availableAttacks && Choice(s, inp) == None
  {
    match s.mode.attack
    case RandomSpread =>
      assert AttackStep(s, inp) == SpreadStep(s);
    case WideSpread =>
      assert AttackStep(s, inp) == SpreadStep(s);
    case ChargeAttack =>
      assert AttackStep(s, inp) == ChargeStep(s, inp.dt);
    case ParticleDivision =>
      assert AttackStep(s, inp) == DivisionAttackStep(s, inp);
  }

  /** Outside the fighting branch the pool is left alone and nothing is
      chosen. */
  lemma QuietPool(s: BossState, inp: Input)
    requires Inv(s) && ValidDraws(s, inp.draws) && BranchOf(s) != FightBranch
    ensures Next(s, inp).availableAttacks == s.availableAttacks && Picked(s, inp) == None
  {
    match BranchOf(s)
    case IntroBranch =>
      assert Next(s, inp) == IntroStep(s, inp.dt);
    case EnterBranch =>
    case WaitBranch =>
    case GauntletBranch =>
      assert Next(s, inp) == GauntletStep(Marked(s), inp.dt);
  }

  /** A tick changes the attack pool only by the choice it reports: the
      chosen attack is taken from the (refilled) pool and becomes the
      state. */
  lemma TickPicks(s: BossState, inp: Input)
    requires Inv(s) && ValidDraws(s, inp.draws)
    ensures var r := Next(s, inp); var c := Picked(s, inp);
      (c == None ==> r.availableAttacks == s.availableAttacks) &&
      (c.Some? ==>
        c.value in Refill(s.availableAttacks) &&
        r.availableAttacks == RemoveFirst(Refill(s.availableAttacks), c.value) &&
        r.mode == Attacking(c.value))
  {
    FightBranchIs(s);
    if BranchOf(s) == FightBranch {
      var s1 := CountTimers(s, inp.dt);
      FightStages(s, inp);
      FightKeepsBranch(s, inp);
      if s.mode == Idle {
        IdlePool(s1, inp);
      } else {
        BusyPool(s1, inp);
      }
    } else {
      QuietPool(s, inp);
    }
  }
}
