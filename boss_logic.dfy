/** The boss's combat state machine as a function on a record of its fields:
    `Tick` is one call of `Boss.update`, `Damaged` one call of
    `take_damage`, `Reset` one call of `reset`.  The class in `BossMachine`
    is proved to update its fields exactly as these functions say. */
module BossLogic {
  import opened Vectors
  import opened Settings
  import opened Lists
  import opened BossPatterns
  import opened WaveScheduler

  datatype Option<T> = None | Some(value: T)

  datatype Attack = RandomSpread | WideSpread | ChargeAttack | ParticleDivision

  /** `all_attacks`, in its stored order. */
  const AllAttacks: seq<Attack> := [RandomSpread, WideSpread, ChargeAttack, ParticleDivision]

  /** The `state` string: the intro, idle, one of the four attacks, or the
      intermission gauntlet. */
  datatype Mode = Intro | Idle | Attacking(attack: Attack) | Gauntlet

  const Radius: int := 40
  const MeleeReach: int := Radius + 30
  const StartHealth: int := 700
  const PhaseThreshold: int := 350
  const HitDamage: int := 3
  const HitFlashTime: real := 0.1
  const IntroTime: real := 3.0
  const IntroStartY: real := 50.0
  const ArenaCentre: Vec := Vec(Width as real / 2.0, Height as real / 2.0)
  const GauntletTime: real := 10.0
  const GauntletFireInterval: real := 0.2
  const GauntletSwitchTime: real := 2.0
  const GauntletStartAngle: real := 30.0
  const IntermissionTime: real := 2.0
  const PostGauntletCooldown: real := 3.0
  const MeleeCooldownTime: real := 2.0
  const MeleeFlashTime: real := 0.3
  const MeleeGrace: real := 0.5
  const BaseColour: Rgb := Rgb(200, 0, 200)

  /** The fields of `Boss` that its logic reads or writes.  `waveOrigin` is
      the position object the queued charge waves were given: pygame's
      `Vector2 +=` works in place, so while `waveOriginIsPos` holds the waves
      share the boss's own `pos` and follow its drift; any assignment
      `self.pos = ...` leaves them with the old object. */
  datatype BossState = BossState(
    pos: Vec,
    introStartPos: Vec,
    introTargetPos: Vec,
    health: int,
    mode: Mode,
    stateTimer: real,
    attackCooldown: real,
    chargeTime: real,
    exploded: bool,
    inGauntlet: bool,
    gauntletTimer: real,
    gauntletFireTimer: real,
    gauntletAngle: real,
    gauntletDirection: int,
    gauntletSwitchTimer: real,
    phase2: bool,
    intermissionDelay: real,
    meleeCooldown: real,
    meleeFlashTimer: real,
    hitFlash: real,
    currentColour: Rgb,
    cornerPositions: seq<Vec>,
    cornerPulseTimer: real,
    isPulsing: bool,
    explosionDelays: seq<real>,
    cornerExploded: seq<bool>,
    availableAttacks: seq<Attack>,
    currentAttack: Option<Attack>,
    introTimer: real,
    transitioning: bool,
    healthThresholdHit: bool,
    pendingWaves: seq<Wave>,
    firingWaves: bool,
    waveTimer: real,
    waveOrigin: Vec,
    waveOriginIsPos: bool)

  /** What `update` reads from and writes to the player. */
  datatype PlayerView = PlayerView(centre: Vec, rolling: bool, invulnerableTimer: real, hearts: int)

  /** The random numbers one tick may consume: `random.random()` for the
      spreads' fire test, the `random.choice` index, the random spread's
      jitters and speeds, the four corner delays and each corner's jitters
      and speeds. */
  datatype Draws = Draws(
    roll: real,
    pick: nat,
    spreadJitter: seq<real>,
    spreadSpeed: seq<real>,
    cornerDelays: seq<real>,
    cornerJitter: seq<seq<real>>,
    cornerSpeed: seq<seq<real>>)

  /** One tick's inputs.  `drift` is `direction.normalize()` for the vector
      from the boss to the player's centre and `aim` that vector's
      `atan2` in degrees; both are computed outside the model. */
  datatype Input = Input(dt: real, player: PlayerView, drift: Vec, aim: real, draws: Draws)

  /** The pool a choice is made from: refilled only when empty. */
  function Refill(pool: seq<Attack>): (r: seq<Attack>)
    ensures |r| > 0
    ensures pool != [] ==> r == pool
    ensures pool == [] ==> r == AllAttacks
  {
    if pool == [] then AllAttacks else pool
  }

  /** The ranges Python's random functions guarantee. */
  predicate ValidDraws(s: BossState, d: Draws) {
    0.0 <= d.roll < 1.0 &&
    d.pick < |Refill(s.availableAttacks)| &&
    SpreadDraws(d.spreadJitter, d.spreadSpeed) &&
    |d.cornerDelays| == 4 &&
    (forall k :: 0 <= k < 4 ==> 0.2 <= d.cornerDelays[k] <= 1.5) &&
    |d.cornerJitter| == 4 && |d.cornerSpeed| == 4 &&
    (forall k :: 0 <= k < 4 ==> CornerDraws(s.phase2, d.cornerJitter[k], d.cornerSpeed[k]))
  }

  /** `start_game` has placed the four corners, and the corner lists exist
      whenever a division is pulsing. */
  predicate WellFormed(s: BossState) {
    |s.cornerPositions| == 4 &&
    (s.isPulsing ==> |s.explosionDelays| == 4 && |s.cornerExploded| == 4)
  }

  // ---- construction, start_game, reset ------------------------------------

  /** `Boss(x, y)`: `y` is overwritten before it is used, the intro starts
      from height 50 and heads for the arena centre. */
  function New(x: real, y: real): (s: BossState)
    ensures s.pos == Vec(x, IntroStartY) && s.pos == s.introStartPos
    ensures s.mode == Intro && s.health == StartHealth && s.introTimer == IntroTime
    ensures s.availableAttacks == AllAttacks && !s.firingWaves && s.pendingWaves == []
  {
    BossState(
      pos := Vec(x, IntroStartY),
      introStartPos := Vec(x, IntroStartY),
      introTargetPos := ArenaCentre,
      health := StartHealth,
      mode := Intro,
      stateTimer := 0.0,
      attackCooldown := 0.0,
      chargeTime := 0.0,
      exploded := false,
      inGauntlet := false,
      gauntletTimer := 0.0,
      gauntletFireTimer := 0.0,
      gauntletAngle := 0.0,
      gauntletDirection := 1,
      gauntletSwitchTimer := 2.0,
      phase2 := false,
      intermissionDelay := 0.0,
      meleeCooldown := 0.0,
      meleeFlashTimer := 0.0,
      hitFlash := 0.0,
      currentColour := BaseColour,
      cornerPositions := [],
      cornerPulseTimer := 0.0,
      isPulsing := false,
      explosionDelays := [],
      cornerExploded := [],
      availableAttacks := AllAttacks,
      currentAttack := None,
      introTimer := IntroTime,
      transitioning := false,
      healthThresholdHit := false,
      pendingWaves := [],
      firingWaves := false,
      waveTimer := 0.0,
      waveOrigin := Zero,
      waveOriginIsPos := false)
  }

  /** The four persistent corner markers: stationary purple bullets of
      radius 15. */
  function CornerMarkers(corners: seq<Vec>): seq<Shot> {
    seq(|corners|, k requires 0 <= k < |corners| => Shot(corners[k], Bolt(0.0, 0.0, Purple, 15)))
  }

  /** `start_game`: places the four corners. */
  function StartGame(s: BossState): (r: BossState)
    ensures r.cornerPositions == CornerAnchors()
    ensures !s.isPulsing ==> WellFormed(r)
    ensures r == s.(cornerPositions := CornerAnchors())
  {
    s.(cornerPositions := CornerAnchors())
  }

  /** The bullets `start_game` adds: one stationary marker per corner. */
  function StartMarkers(s: BossState): (r: seq<Shot>)
    ensures |r| == |s.cornerPositions|
    ensures forall k :: 0 <= k < |r| ==> r[k].origin == s.cornerPositions[k] && r[k].bolt.speed == 0.0
  {
    CornerMarkers(s.cornerPositions)
  }

  /** `reset`: health, state, intro, attack pool, phase flags and the listed
      timers go back to their starting values; the gauntlet's direction and
      switch timer, the intermission delay, the wave queue and the corner
      lists are left as they are. */
  function Reset(s: BossState): (r: BossState)
    ensures r.mode == Intro && r.pos == s.introStartPos && !r.waveOriginIsPos
    ensures r.health == StartHealth && r.availableAttacks == AllAttacks && r.currentAttack == None
    ensures !r.phase2 && !r.healthThresholdHit && !r.transitioning && !r.inGauntlet && !r.isPulsing
    ensures WellFormed(s) ==> WellFormed(r)
  {
    s.(health := StartHealth, mode := Intro, introTimer := IntroTime,
       pos := s.introStartPos, waveOriginIsPos := false,
       stateTimer := 0.0, attackCooldown := 0.0, currentAttack := None,
       availableAttacks := AllAttacks,
       phase2 := false, healthThresholdHit := false, transitioning := false, inGauntlet := false,
       chargeTime := 0.0, exploded := false, gauntletTimer := 0.0, gauntletFireTimer := 0.0,
       gauntletAngle := 0.0, meleeCooldown := 0.0, meleeFlashTimer := 0.0, hitFlash := 0.0,
       isPulsing := false, cornerPulseTimer := 0.0)
  }

  /** A reset boss matches a freshly built one (that has run `start_game`)
      in everything `reset` writes, and keeps everything else it had. */
  lemma ResetRestoresStart(s: BossState)
    requires s.introStartPos == Vec(s.introStartPos.x, IntroStartY)
    ensures var r := Reset(s); var f := New(s.introStartPos.x, 0.0);
      r.health == f.health && r.mode == f.mode && r.introTimer == f.introTimer &&
      r.pos == f.pos && r.availableAttacks == f.availableAttacks &&
      r.phase2 == f.phase2 && r.healthThresholdHit == f.healthThresholdHit &&
      r.transitioning == f.transitioning && r.inGauntlet == f.inGauntlet &&
      r.stateTimer == f.stateTimer && r.attackCooldown == f.attackCooldown &&
      r.gauntletAngle == f.gauntletAngle && r.isPulsing == f.isPulsing &&
      r.currentAttack == f.currentAttack && r.chargeTime == f.chargeTime && r.exploded == f.exploded &&
      r.gauntletTimer == f.gauntletTimer && r.gauntletFireTimer == f.gauntletFireTimer &&
      r.meleeCooldown == f.meleeCooldown && r.meleeFlashTimer == f.meleeFlashTimer &&
      r.hitFlash == f.hitFlash && r.cornerPulseTimer == f.cornerPulseTimer &&
      r.waveOriginIsPos == f.waveOriginIsPos == false
    ensures var r := Reset(s);
      r.gauntletDirection == s.gauntletDirection && r.gauntletSwitchTimer == s.gauntletSwitchTimer &&
      r.intermissionDelay == s.intermissionDelay && r.pendingWaves == s.pendingWaves &&
      r.firingWaves == s.firingWaves && r.waveTimer == s.waveTimer &&
      r.explosionDelays == s.explosionDelays && r.cornerExploded == s.cornerExploded &&
      r.cornerPositions == s.cornerPositions
  {
  }

  // ---- take_damage ---------------------------------------------------------

  /** `take_damage`: ignored during the intro and any transition; otherwise
      exactly 3 health is lost, with no floor, and the hit flash starts. */
  function Damaged(s: BossState): (r: BossState)
    ensures s.mode == Intro || s.transitioning ==> r == s
    ensures !(s.mode == Intro || s.transitioning) ==>
      r.health == s.health - HitDamage && r.hitFlash == HitFlashTime &&
      r == s.(health := r.health, hitFlash := r.hitFlash)
    ensures r.health <= s.health
  {
    if s.mode == Intro || s.transitioning then s
    else s.(hitFlash := HitFlashTime, health := s.health - HitDamage)
  }

  // ---- the intro -----------------------------------------------------------

  /** The smooth-step easing `p * p * (3 - 2p)`: it maps [0, 1] into
      [0, 1] and fixes both ends. */
  function SmoothStep(p: real): (r: real)
    ensures 0.0 <= p <= 1.0 ==> 0.0 <= r <= 1.0
    ensures p == 0.0 ==> r == 0.0
    ensures p == 1.0 ==> r == 1.0
  {
    EasingInUnit(p);
    p * p * (3.0 - 2.0 * p)
  }

  /** The cubic of the easing lies in [0, 1] on [0, 1]: it is a product of
      non-negative factors, and so is its distance from 1. */
  lemma EasingInUnit(p: real)
    ensures 0.0 <= p <= 1.0 ==> 0.0 <= p * p * (3.0 - 2.0 * p) <= 1.0
  {
    if 0.0 <= p <= 1.0 {
      SquarePositive(p);
      MulNonNeg(p * p, 3.0 - 2.0 * p);
      assert 1.0 - p * p * (3.0 - 2.0 * p) == (1.0 - p) * (1.0 - p) * (1.0 + 2.0 * p);
      SquarePositive(1.0 - p);
      MulNonNeg((1.0 - p) * (1.0 - p), 1.0 + 2.0 * p);
    }
  }

  /** A point moved a fraction `q` in [0, 1] of the way from `a` to `b` lies
      between them. */
  lemma LerpBetween(a: real, b: real, q: real)
    requires 0.0 <= q <= 1.0
    ensures Between(a + (b - a) * q, a, b)
  {
    if a <= b {
      MulNonNeg(b - a, q);
      MulNonNeg(b - a, 1.0 - q);
    } else {
      MulNonNeg(a - b, q);
      MulNonNeg(a - b, 1.0 - q);
    }
  }

  /** Where the boss is drawn during the intro with `t` seconds left: eased
      from the start position towards the target, and exactly on the target
      once the timer is spent. */
  function IntroPos(s: BossState, t: real): (r: Vec)
    ensures t <= IntroTime ==>
      Between(r.x, s.introStartPos.x, s.introTargetPos.x) && Between(r.y, s.introStartPos.y, s.introTargetPos.y)
    ensures t <= 0.0 ==> r == s.introTargetPos
    ensures t == IntroTime ==> r == s.introStartPos
  {
    if t <= 0.0 then s.introTargetPos
    else
      var q := SmoothStep(1.0 - t / IntroTime);
      LerpBetween(s.introStartPos.x, s.introTargetPos.x, if t <= IntroTime then q else 0.0);
      LerpBetween(s.introStartPos.y, s.introTargetPos.y, if t <= IntroTime then q else 0.0);
      s.introStartPos.Plus(s.introTargetPos.Minus(s.introStartPos).Times(q))
  }

  /** One intro tick: the timer runs down, the boss moves along the easing,
      and when the timer is spent the fight begins. */
  function IntroStep(s: BossState, dt: real): (r: BossState)
    ensures r == s.(introTimer := s.introTimer - dt, pos := r.pos, mode := r.mode, waveOriginIsPos := false)
    ensures r.mode == (if s.introTimer - dt <= 0.0 then Idle else s.mode)
    ensures r.health == s.health
  {
    var t := s.introTimer - dt;
    s.(introTimer := t, pos := IntroPos(s, t), mode := if t <= 0.0 then Idle else s.mode, waveOriginIsPos := false)
  }

  /** During the intro the boss stays on the segment from the start to the
      target, and it ends the intro exactly on the target. */
  lemma IntroPath(s: BossState, dt: real)
    requires s.introTimer - dt <= IntroTime
    ensures var r := IntroStep(s, dt);
      r.introTimer == s.introTimer - dt &&
      Between(r.pos.x, s.introStartPos.x, s.introTargetPos.x) &&
      Between(r.pos.y, s.introStartPos.y, s.introTargetPos.y) &&
      (r.introTimer <= 0.0 ==> r.pos == s.introTargetPos && r.mode == Idle) &&
      (r.introTimer > 0.0 ==> r.mode == s.mode)
  {
    var t := s.introTimer - dt;
    if t > 0.0 {
      var p := 1.0 - t / IntroTime;
      var q := SmoothStep(p);
      LerpBetween(s.introStartPos.x, s.introTargetPos.x, q);
      LerpBetween(s.introStartPos.y, s.introTargetPos.y, q);
    }
  }


  // ---- phase transition and gauntlet ---------------------------------------

  /** `start_gauntlet`: the boss teleports to the centre and the 10-second
      gauntlet is armed. */
  function StartGauntlet(s: BossState): (r: BossState)
    ensures r.mode == Gauntlet && r.inGauntlet && r.transitioning && r.currentAttack == None
    ensures r.pos == ArenaCentre && !r.waveOriginIsPos && r.gauntletTimer == GauntletTime
    ensures r.health == s.health && r.availableAttacks == s.availableAttacks && r.phase2 == s.phase2
    ensures WellFormed(s) ==> WellFormed(r)
  {
    s.(transitioning := true, currentAttack := None, mode := Gauntlet,
       pos := ArenaCentre, waveOriginIsPos := false, inGauntlet := true,
       gauntletTimer := GauntletTime, gauntletFireTimer := 0.0,
       gauntletAngle := GauntletStartAngle, gauntletDirection := 1,
       gauntletSwitchTimer := GauntletSwitchTime)
  }

  /** The gauntlet's turning direction after a tick: it flips when the
      switch timer runs out. */
  function GauntletHeading(s: BossState, dt: real): int {
    if s.gauntletSwitchTimer - dt <= 0.0 then -s.gauntletDirection else s.gauntletDirection
  }

  /** The start of a gauntlet tick: its three timers run down, and the
      direction flips and the switch timer restarts when it runs out. */
  function GauntletTurn(s: BossState, dt: real): (r: BossState)
    ensures r == s.(gauntletTimer := r.gauntletTimer, gauntletFireTimer := r.gauntletFireTimer,
                    gauntletSwitchTimer := r.gauntletSwitchTimer, gauntletDirection := r.gauntletDirection)
    ensures r.gauntletTimer == s.gauntletTimer - dt && r.gauntletFireTimer == s.gauntletFireTimer - dt
    ensures s.gauntletSwitchTimer - dt <= 0.0 ==>
      r.gauntletSwitchTimer == GauntletSwitchTime && r.gauntletDirection == -s.gauntletDirection
    ensures s.gauntletSwitchTimer - dt > 0.0 ==>
      r.gauntletSwitchTimer == s.gauntletSwitchTimer - dt && r.gauntletDirection == s.gauntletDirection
  {
    var switch := s.gauntletSwitchTimer - dt;
    s.(gauntletTimer := s.gauntletTimer - dt,
       gauntletFireTimer := s.gauntletFireTimer - dt,
       gauntletSwitchTimer := if switch <= 0.0 then GauntletSwitchTime else switch,
       gauntletDirection := GauntletHeading(s, dt))
  }

  /** A volley is due once the fire timer has run out: the angle advances in
      the current direction and the fire timer restarts. */
  function GauntletFire(s: BossState): (r: BossState)
    ensures r == s.(gauntletFireTimer := r.gauntletFireTimer, gauntletAngle := r.gauntletAngle)
  {
    if s.gauntletFireTimer <= 0.0 then
      s.(gauntletFireTimer := GauntletFireInterval,
         gauntletAngle := NextGauntletAngle(s.gauntletAngle, s.gauntletDirection))
    else s
  }

  /** Once the gauntlet timer has run out, phase 2 begins. */
  function GauntletFinish(s: BossState): (r: BossState)
    ensures r == s.(inGauntlet := r.inGauntlet, phase2 := r.phase2, transitioning := r.transitioning,
                    mode := r.mode, attackCooldown := r.attackCooldown)
    ensures r.mode == (if s.gauntletTimer <= 0.0 then Idle else s.mode)
  {
    if s.gauntletTimer <= 0.0 then
      s.(inGauntlet := false, phase2 := true, transitioning := false, mode := Idle,
         attackCooldown := PostGauntletCooldown)
    else s
  }

  /** One gauntlet tick: the clocks and the heading, the volley when due,
      and the end of the gauntlet when its timer expires. */
  function GauntletStep(s: BossState, dt: real): (r: BossState)
    ensures r == s.(gauntletTimer := r.gauntletTimer, gauntletFireTimer := r.gauntletFireTimer,
                    gauntletSwitchTimer := r.gauntletSwitchTimer, gauntletDirection := r.gauntletDirection,
                    gauntletAngle := r.gauntletAngle, inGauntlet := r.inGauntlet, phase2 := r.phase2,
                    transitioning := r.transitioning, mode := r.mode, attackCooldown := r.attackCooldown)
    ensures r.gauntletTimer == s.gauntletTimer - dt
    ensures r.mode == (if s.gauntletTimer - dt <= 0.0 then Idle else s.mode)
    ensures r.health == s.health
  {
    GauntletFinish(GauntletFire(GauntletTurn(s, dt)))
  }

  /** The volley a gauntlet tick fires, from the angle before it advances. */
  function GauntletShots(s: BossState, dt: real): (r: seq<Shot>)
    ensures s.gauntletFireTimer - dt <= 0.0 <==> |r| == RingA + RingB
    ensures s.gauntletFireTimer - dt > 0.0 ==> r == []
    ensures forall k :: 0 <= k < |r| ==> r[k].origin == s.pos
  {
    if s.gauntletFireTimer - dt <= 0.0 then Fire(s.pos, GauntletBolts(s.gauntletAngle)) else []
  }

  // ---- the fight -----------------------------------------------------------

  /** The fields no state branch of a fighting tick touches: health, the
      phase flags, the gauntlet's heading, the corners, the melee timers
      and the hit flash. */
  predicate Untouched(a: BossState, b: BossState) {
    a.health == b.health && a.healthThresholdHit == b.healthThresholdHit && a.phase2 == b.phase2 &&
    a.inGauntlet == b.inGauntlet && a.transitioning == b.transitioning &&
    a.gauntletDirection == b.gauntletDirection && a.gauntletAngle == b.gauntletAngle &&
    a.cornerPositions == b.cornerPositions && a.meleeCooldown == b.meleeCooldown &&
    a.meleeFlashTimer == b.meleeFlashTimer && a.hitFlash == b.hitFlash
  }

  lemma UntouchedChain(a: BossState, b: BossState, c: BossState)
    requires Untouched(a, b) && Untouched(b, c)
    ensures Untouched(a, c)
  {
  }

  /** The four unconditional countdowns at the top of a fighting tick;
      `attack_cooldown` has no floor, the melee timers stop once spent. */
  function CountTimers(s: BossState, dt: real): (r: BossState)
    ensures Untouched(s, r.(meleeCooldown := s.meleeCooldown, meleeFlashTimer := s.meleeFlashTimer))
    ensures r.mode == s.mode && r.availableAttacks == s.availableAttacks && r.currentAttack == s.currentAttack
    ensures r.pos == s.pos && r.isPulsing == s.isPulsing && r.explosionDelays == s.explosionDelays
    ensures r.cornerExploded == s.cornerExploded && r.waveOrigin == s.waveOrigin && r.waveOriginIsPos == s.waveOriginIsPos
  {
    s.(stateTimer := s.stateTimer - dt,
       attackCooldown := s.attackCooldown - dt,
       meleeCooldown := CountDown(s.meleeCooldown, dt),
       meleeFlashTimer := CountDown(s.meleeFlashTimer, dt))
  }

  /** `choose_attack`: nothing while the cooldown runs; otherwise the pool is
      refilled if empty, the chosen attack is removed from it and becomes the
      state, and that attack's timers are set for the phase. */
  function ChooseAttack(s: BossState, pick: nat): (r: BossState)
    requires pick < |Refill(s.availableAttacks)|
    ensures s.attackCooldown > 0.0 ==> r == s
    ensures s.attackCooldown <= 0.0 ==>
      var chosen := Refill(s.availableAttacks)[pick];
      r.mode == Attacking(chosen) && r.currentAttack == Some(chosen) &&
      r.availableAttacks == RemoveFirst(Refill(s.availableAttacks), chosen) &&
      |r.availableAttacks| == |Refill(s.availableAttacks)| - 1 &&
      multiset(r.availableAttacks) + multiset{chosen} == multiset(Refill(s.availableAttacks))
    ensures Untouched(s, r)
    ensures r.pos == s.pos && r.waveOrigin == s.waveOrigin && r.waveOriginIsPos == s.waveOriginIsPos
    ensures r.isPulsing ==> s.isPulsing && r.explosionDelays == s.explosionDelays && r.cornerExploded == s.cornerExploded
  {
    if s.attackCooldown > 0.0 then s
    else
      var chosen := Refill(s.availableAttacks)[pick];
      var t := Taken(s, chosen);
      UntouchedChain(s, t, Armed(t, chosen));
      Armed(t, chosen)
  }

  /** The chosen attack leaves the (refilled) pool and becomes the state. */
  function Taken(s: BossState, chosen: Attack): (r: BossState)
    requires chosen in Refill(s.availableAttacks)
    ensures r.mode == Attacking(chosen) && r.currentAttack == Some(chosen)
    ensures r.availableAttacks == RemoveFirst(Refill(s.availableAttacks), chosen)
    ensures |r.availableAttacks| == |Refill(s.availableAttacks)| - 1
    ensures multiset(r.availableAttacks) + multiset{chosen} == multiset(Refill(s.availableAttacks))
    ensures Untouched(s, r)
    ensures r.pos == s.pos && r.waveOrigin == s.waveOrigin && r.waveOriginIsPos == s.waveOriginIsPos
    ensures r.isPulsing == s.isPulsing && r.explosionDelays == s.explosionDelays && r.cornerExploded == s.cornerExploded
  {
    RemoveFirstPutBack(Refill(s.availableAttacks), chosen);
    s.(availableAttacks := RemoveFirst(Refill(s.availableAttacks), chosen), currentAttack := Some(chosen),
       mode := Attacking(chosen))
  }

  /** The timers `choose_attack` sets for the chosen attack and phase. */
  function Armed(s: BossState, chosen: Attack): (r: BossState)
    ensures r.mode == s.mode && r.currentAttack == s.currentAttack && r.availableAttacks == s.availableAttacks
    ensures Untouched(s, r)
    ensures r.pos == s.pos && r.waveOrigin == s.waveOrigin && r.waveOriginIsPos == s.waveOriginIsPos
    ensures r.isPulsing ==> s.isPulsing && r.explosionDelays == s.explosionDelays && r.cornerExploded == s.cornerExploded
  {
    match chosen
    case RandomSpread => s.(stateTimer := if !s.phase2 then 3.0 else 2.0)
    case WideSpread => s.(stateTimer := if !s.phase2 then 3.0 else 2.0)
    case ChargeAttack =>
      s.(stateTimer := if !s.phase2 then 2.0 else 1.5, chargeTime := if !s.phase2 then 1.5 else 1.0,
         exploded := false)
    case ParticleDivision => s.(stateTimer := if !s.phase2 then 6.0 else 4.0, isPulsing := false)
  }

  /** The pool never holds an attack twice, and the chosen attack leaves
      it. */
  lemma ChooseAttackKeepsNoDup(s: BossState, pick: nat)
    requires pick < |Refill(s.availableAttacks)| && NoDup(s.availableAttacks)
    ensures NoDup(ChooseAttack(s, pick).availableAttacks)
    ensures s.attackCooldown <= 0.0 ==>
      Refill(s.availableAttacks)[pick] !in ChooseAttack(s, pick).availableAttacks
  {
    var pool := Refill(s.availableAttacks);
    assert NoDup(pool);
    RemoveFirstNoDup(pool, pool[pick]);
  }

  /** Back to idle once an attack's time is up. */
  function EndAttack(s: BossState, cooldown: real): (r: BossState)
    ensures Untouched(s, r) && r.mode == Idle && r.currentAttack == None && r.availableAttacks == s.availableAttacks
    ensures r.pos == s.pos && r.waveOrigin == s.waveOrigin && r.waveOriginIsPos == s.waveOriginIsPos
    ensures r.isPulsing == s.isPulsing && r.explosionDelays == s.explosionDelays && r.cornerExploded == s.cornerExploded
  {
    s.(mode := Idle, currentAttack := None, attackCooldown := cooldown)
  }

  /** The idle drift: one unit towards the player's centre unless already on
      it.  The in-place `+=` moves the queued waves' origin with the boss
      while they share its position. */
  function Drifted(s: BossState, target: Vec, drift: Vec): (r: BossState)
    ensures Untouched(s, r) && r.mode == s.mode && r.currentAttack == s.currentAttack
    ensures r.availableAttacks == s.availableAttacks && r.attackCooldown == s.attackCooldown
    ensures r.waveOriginIsPos == s.waveOriginIsPos && (s.waveOriginIsPos && s.waveOrigin == s.pos ==> r.waveOrigin == r.pos)
    ensures r.isPulsing == s.isPulsing && r.explosionDelays == s.explosionDelays && r.cornerExploded == s.cornerExploded
  {
    if target.Minus(s.pos) != Zero then
      var p := s.pos.Plus(drift);
      s.(pos := p, waveOrigin := if s.waveOriginIsPos then p else s.waveOrigin)
    else s
  }

  /** `fire_charge_explosion`: the whole queue of waves is replaced by the
      phase's rings, all leaving from the boss's current position object. */
  function ChargeExplosion(s: BossState): (r: BossState)
    ensures Untouched(s, r) && r.mode == s.mode && r.currentAttack == s.currentAttack
    ensures r.waveOriginIsPos && r.waveOrigin == r.pos == s.pos
    ensures r.pendingWaves == ChargeWaves(s.phase2) && r.firingWaves && r.waveTimer == 0.0
  {
    s.(pendingWaves := ChargeWaves(s.phase2), firingWaves := true, waveTimer := 0.0,
       waveOrigin := s.pos, waveOriginIsPos := true)
  }

  /** `start_particle_division`: four fresh delays, no corner exploded. */
  function StartDivision(s: BossState, delays: seq<real>): (r: BossState)
    ensures Untouched(s, r) && r.mode == s.mode && r.currentAttack == s.currentAttack && r.pos == s.pos
    ensures r.isPulsing && r.explosionDelays == delays && r.cornerExploded == [false, false, false, false]
  {
    s.(isPulsing := true, cornerPulseTimer := 0.0, explosionDelays := delays,
       cornerExploded := [false, false, false, false])
  }

  /** Corner `i` bursts this tick: it had not exploded and its delay runs
      out now. */
  predicate Bursting(s: BossState, dt: real, i: nat)
    requires i < |s.explosionDelays| && i < |s.cornerExploded|
  {
    !s.cornerExploded[i] && s.explosionDelays[i] - dt <= 0.0
  }

  /** The delays after one tick: only unexploded corners count down. */
  function CountedDelays(s: BossState, dt: real): (r: seq<real>)
    requires WellFormed(s) && s.isPulsing
    ensures |r| == 4
    ensures forall i :: 0 <= i < 4 ==> r[i] == if s.cornerExploded[i] then s.explosionDelays[i] else s.explosionDelays[i] - dt
  {
    seq(4, i requires 0 <= i < 4 =>
      if s.cornerExploded[i] then s.explosionDelays[i] else s.explosionDelays[i] - dt)
  }

  /** The flags after one tick: a corner has exploded once it had or once it
      bursts now. */
  function CountedFlags(s: BossState, dt: real): (r: seq<bool>)
    requires WellFormed(s) && s.isPulsing
    ensures |r| == 4
    ensures forall i :: 0 <= i < 4 ==> (r[i] <==> s.cornerExploded[i] || Bursting(s, dt, i))
  {
    seq(4, i requires 0 <= i < 4 => s.cornerExploded[i] || Bursting(s, dt, i))
  }

  /** The bursts of corners `0 .. n-1` this tick, in corner order. */
  function CornerShots(s: BossState, dt: real, d: Draws, n: nat): seq<Shot>
    requires WellFormed(s) && s.isPulsing && ValidDraws(s, d) && n <= 4
  {
    if n == 0 then []
    else
      CornerShots(s, dt, d, n - 1) +
      (if Bursting(s, dt, n - 1)
       then Fire(s.cornerPositions[n - 1], CornerBolts(s.phase2, d.cornerJitter[n - 1], d.cornerSpeed[n - 1]))
       else [])
  }

  /** How many of corners `0 .. n-1` burst this tick. */
  function BurstCount(s: BossState, dt: real, n: nat): nat
    requires WellFormed(s) && s.isPulsing && n <= 4
  {
    if n == 0 then 0 else BurstCount(s, dt, n - 1) + (if Bursting(s, dt, n - 1) then 1 else 0)
  }

  predicate AllTrue(flags: seq<bool>) {
    forall i :: 0 <= i < |flags| ==> flags[i]
  }

  /** The corners after one tick of the countdown loop. */
  function CornersCounted(s: BossState, dt: real): (r: BossState)
    requires WellFormed(s) && s.isPulsing
    ensures WellFormed(r) && r.isPulsing
    ensures r.explosionDelays == CountedDelays(s, dt) && r.cornerExploded == CountedFlags(s, dt)
    ensures Untouched(s, r) && r.mode == s.mode && r.currentAttack == s.currentAttack && r.pos == s.pos
    ensures r.waveOrigin == s.waveOrigin && r.waveOriginIsPos == s.waveOriginIsPos
    ensures r.availableAttacks == s.availableAttacks
  {
    s.(cornerPulseTimer := s.cornerPulseTimer + dt,
       explosionDelays := CountedDelays(s, dt), cornerExploded := CountedFlags(s, dt))
  }

  /** The division ends once every corner has exploded. */
  function DivisionSettled(s: BossState): (r: BossState)
    requires WellFormed(s)
    ensures WellFormed(r)
    ensures r.explosionDelays == s.explosionDelays && r.cornerExploded == s.cornerExploded
    ensures Untouched(s, r) && (r.mode == s.mode || r.mode == Idle) && r.currentAttack == s.currentAttack
    ensures r.pos == s.pos && r.waveOrigin == s.waveOrigin && r.waveOriginIsPos == s.waveOriginIsPos
    ensures r.availableAttacks == s.availableAttacks
    ensures AllTrue(s.cornerExploded) ==>
      !r.isPulsing && r.mode == Idle && r.attackCooldown == (if s.phase2 then 2.0 else 3.0)
    ensures !AllTrue(s.cornerExploded) ==> r == s
  {
    if AllTrue(s.cornerExploded) then
      s.(isPulsing := false, mode := Idle, attackCooldown := if !s.phase2 then 3.0 else 2.0)
    else s
  }

  /** `update_particle_division`: while pulsing, the unexploded corners
      count down, and when all four have burst the attack ends (leaving
      `current_attack` set). */
  function DivisionStep(s: BossState, dt: real): (r: BossState)
    requires WellFormed(s)
    ensures Untouched(s, r) && (r.mode == s.mode || r.mode == Idle) && r.currentAttack == s.currentAttack
    ensures r.pos == s.pos && r.waveOrigin == s.waveOrigin && r.waveOriginIsPos == s.waveOriginIsPos
    ensures r.availableAttacks == s.availableAttacks && WellFormed(r)
  {
    if !s.isPulsing then s else DivisionSettled(CornersCounted(s, dt))
  }

  /** Each burst holds one corner's full ring, so a tick's corner bullets
      number the phase's count times the corners that burst. */
  lemma {:induction false} CornerShotsCount(s: BossState, dt: real, d: Draws, n: nat)
    requires WellFormed(s) && s.isPulsing && ValidDraws(s, d) && n <= 4
    ensures |CornerShots(s, dt, d, n)| == CornerCount(s.phase2) * BurstCount(s, dt, n)
  {
    if n > 0 {
      CornerShotsCount(s, dt, d, n - 1);
      if Bursting(s, dt, n - 1) {
        CornerBurstShape(s.phase2, d.cornerJitter[n - 1], d.cornerSpeed[n - 1]);
      }
    }
  }

  /** `o` is the position of a corner that bursts on this tick. */
  predicate AtBurstingCorner(s: BossState, dt: real, o: Vec)
    requires WellFormed(s) && s.isPulsing
  {
    exists i :: 0 <= i < 4 && Bursting(s, dt, i) && o == s.cornerPositions[i]
  }

  /** Every corner bullet of a tick leaves from a corner that bursts on
      it. */
  lemma {:induction false} CornerShotsOrigin(s: BossState, dt: real, d: Draws, n: nat)
    requires WellFormed(s) && s.isPulsing && ValidDraws(s, d) && n <= 4
    ensures forall j :: 0 <= j < |CornerShots(s, dt, d, n)| ==>
      AtBurstingCorner(s, dt, CornerShots(s, dt, d, n)[j].origin)
  {
    if n > 0 {
      CornerShotsOrigin(s, dt, d, n - 1);
      var prev := CornerShots(s, dt, d, n - 1);
      var here: seq<Shot> := if Bursting(s, dt, n - 1)
        then Fire(s.cornerPositions[n - 1], CornerBolts(s.phase2, d.cornerJitter[n - 1], d.cornerSpeed[n - 1]))
        else [];
      var both: seq<Shot> := prev + here;
      assert CornerShots(s, dt, d, n) == both;
      forall j | 0 <= j < |both|
        ensures AtBurstingCorner(s, dt, both[j].origin)
      {
        if j < |prev| {
          assert both[j] == prev[j];
        } else {
          assert both[j] == here[j - |prev|];
          assert Bursting(s, dt, n - 1) && both[j].origin == s.cornerPositions[n - 1];
        }
      }
    } else {
      assert CornerShots(s, dt, d, 0) == [];
    }
  }

  /** The rings of the corners that burst on a division tick: one full ring
      per bursting corner, each bullet leaving from its corner, and nothing
      while no division is pulsing. */
  function DivisionShots(s: BossState, dt: real, d: Draws): (r: seq<Shot>)
    requires WellFormed(s) && ValidDraws(s, d)
    ensures !s.isPulsing ==> r == []
    ensures s.isPulsing ==> |r| == CornerCount(s.phase2) * BurstCount(s, dt, 4)
    ensures s.isPulsing ==> forall j :: 0 <= j < |r| ==> AtBurstingCorner(s, dt, r[j].origin)
  {
    if s.isPulsing then
      CornerShotsCount(s, dt, d, 4);
      CornerShotsOrigin(s, dt, d, 4);
      CornerShots(s, dt, d, 4)
    else []
  }

  /** Idle: drift towards the player, then choose an attack once the
      cooldown is spent. */
  function IdleStep(s: BossState, inp: Input): (r: BossState)
    requires ValidDraws(s, inp.draws)
    ensures Untouched(s, r) && (r.mode == s.mode || r.mode.Attacking?)
  {
    var s1 := Drifted(s, inp.player.centre, inp.drift);
    if s1.attackCooldown <= 0.0 then ChooseAttack(s1, inp.draws.pick) else s1
  }

  /** The two spreads: back to idle once the state timer is spent. */
  function SpreadStep(s: BossState): (r: BossState)
    ensures Untouched(s, r) && (r.mode == s.mode || r.mode == Idle) && r.availableAttacks == s.availableAttacks
  {
    if s.stateTimer <= 0.0 then EndAttack(s, if !s.phase2 then 2.0 else 1.5) else s
  }

  /** The two spreads fire on a successful roll while the state timer
      lasts. */
  function SpreadShots(s: BossState, inp: Input, wide: bool): (r: seq<Shot>)
    requires ValidDraws(s, inp.draws)
    ensures s.stateTimer <= 0.0 ==> r == []
    ensures r == [] || |r| == (if wide then WideCount else SpreadCount)
    ensures forall k :: 0 <= k < |r| ==> r[k].origin == s.pos
  {
    var d := inp.draws;
    if s.stateTimer <= 0.0 then []
    else if !wide && d.roll < 0.15 then Fire(s.pos, RandomSpreadBolts(s.phase2, d.spreadJitter, d.spreadSpeed))
    else if wide && d.roll < 0.1 then Fire(s.pos, WideSpreadBolts(s.phase2, inp.aim))
    else []
  }

  /** The charge: wind up, then explode once, then wait out the state
      timer. */
  function ChargeStep(s: BossState, dt: real): (r: BossState)
    ensures Untouched(s, r) && (r.mode == s.mode || r.mode == Idle) && r.availableAttacks == s.availableAttacks
  {
    if s.chargeTime > 0.0 then s.(chargeTime := s.chargeTime - dt)
    else
      var s1 := if !s.exploded then ChargeExplosion(s).(exploded := true) else s;
      if s1.stateTimer <= 0.0 then EndAttack(s1, if !s.phase2 then 3.0 else 2.0) else s1
  }

  /** The corner division armed: on the first tick (state timer above 3 and
      not yet pulsing) the four delays are drawn. */
  function DivisionArmed(s: BossState, inp: Input): (r: BossState)
    requires WellFormed(s) && ValidDraws(s, inp.draws)
    ensures WellFormed(r) && ValidDraws(r, inp.draws) && Untouched(s, r)
    ensures r.mode == s.mode && r.currentAttack == s.currentAttack && r.pos == s.pos
    ensures r.availableAttacks == s.availableAttacks
  {
    if !s.isPulsing && s.stateTimer > 3.0 then StartDivision(s, inp.draws.cornerDelays) else s
  }

  /** The corner division: arm on the first tick, count down while the state
      timer lasts. */
  function DivisionAttackStep(s: BossState, inp: Input): (r: BossState)
    requires WellFormed(s) && ValidDraws(s, inp.draws)
    ensures Untouched(s, r) && (r.mode == s.mode || r.mode == Idle) && r.availableAttacks == s.availableAttacks
  {
    if s.stateTimer <= 0.0 then EndAttack(s, if !s.phase2 then 3.0 else 2.0).(isPulsing := false)
    else DivisionStep(DivisionArmed(s, inp), inp.dt)
  }

  function DivisionAttackShots(s: BossState, inp: Input): seq<Shot>
    requires WellFormed(s) && ValidDraws(s, inp.draws)
  {
    if s.stateTimer <= 0.0 then [] else DivisionShots(DivisionArmed(s, inp), inp.dt, inp.draws)
  }

  /** The branch of `update` for the current state. */
  function AttackStep(s: BossState, inp: Input): (r: BossState)
    requires WellFormed(s) && ValidDraws(s, inp.draws)
    ensures Untouched(s, r)
    ensures s.mode != Gauntlet && s.mode != Intro ==> r.mode != Gauntlet && r.mode != Intro
  {
    match s.mode
    case Idle => IdleStep(s, inp)
    case Attacking(RandomSpread) => SpreadStep(s)
    case Attacking(WideSpread) => SpreadStep(s)
    case Attacking(ChargeAttack) => ChargeStep(s, inp.dt)
    case Attacking(ParticleDivision) => DivisionAttackStep(s, inp)
    case _ => s
  }

  /** The bullets the current state's branch fires. */
  function AttackShots(s: BossState, inp: Input): seq<Shot>
    requires WellFormed(s) && ValidDraws(s, inp.draws)
  {
    match s.mode
    case Attacking(RandomSpread) => SpreadShots(s, inp, false)
    case Attacking(WideSpread) => SpreadShots(s, inp, true)
    case Attacking(ParticleDivision) => DivisionAttackShots(s, inp)
    case _ => []
  }

  /** The melee swing happens within reach, the player not rolling and the
      cooldown spent.  Distances are compared squared. */
  predicate Swings(s: BossState, pv: PlayerView): (r: bool)
    ensures forall d :: d >= 0.0 && Square(d) == DistSq(s.pos, pv.centre) ==>
      (r <==> d < MeleeReach as real && !pv.rolling && s.meleeCooldown <= 0.0)
  {
    RootsCompare(DistSq(s.pos, pv.centre), MeleeReach as real);
    DistSq(s.pos, pv.centre) < (MeleeReach * MeleeReach) as real && !pv.rolling && s.meleeCooldown <= 0.0
  }

  /** The boss after the melee check: a swing restarts its cooldown and
      flash. */
  function MeleeStep(s: BossState, pv: PlayerView): (r: BossState)
    ensures Swings(s, pv) ==> r.meleeCooldown == MeleeCooldownTime && r.meleeFlashTimer == MeleeFlashTime
    ensures !Swings(s, pv) ==> r == s
    ensures r == s.(meleeCooldown := r.meleeCooldown, meleeFlashTimer := r.meleeFlashTimer)
    ensures r.health == s.health
  {
    if Swings(s, pv) then s.(meleeCooldown := MeleeCooldownTime, meleeFlashTimer := MeleeFlashTime) else s
  }

  /** The player after the melee check: a swing costs a heart and grants
      0.5 s of grace only when the player's `invulnerable_timer` is
      spent. */
  function Struck(s: BossState, pv: PlayerView): (r: PlayerView)
    ensures Swings(s, pv) && pv.invulnerableTimer <= 0.0 <==> r.hearts == pv.hearts - 1
    ensures Swings(s, pv) && pv.invulnerableTimer <= 0.0 ==> r.invulnerableTimer == MeleeGrace
    ensures !(Swings(s, pv) && pv.invulnerableTimer <= 0.0) ==> r == pv
    ensures r.centre == pv.centre && r.rolling == pv.rolling
  {
    if Swings(s, pv) && pv.invulnerableTimer <= 0.0 then pv.(hearts := pv.hearts - 1, invulnerableTimer := MeleeGrace)
    else pv
  }

  function MinInt(a: int, b: int): int { if a <= b then a else b }

  /** The hit flash: it fades over 0.1 s from white back towards the base
      colour; `int()` truncates each channel. */
  function FlashStep(s: BossState, dt: real): (r: BossState)
    ensures r == s.(hitFlash := r.hitFlash, currentColour := r.currentColour)
    ensures r.health == s.health
  {
    if s.hitFlash > 0.0 then
      var h := s.hitFlash - dt;
      var amount := Min(1.0, h / HitFlashTime);
      s.(hitFlash := h,
         currentColour := Rgb(MinInt(255, TruncInt(200.0 + 55.0 * amount)),
                              MinInt(255, TruncInt(0.0 + 255.0 * amount)),
                              MinInt(255, TruncInt(200.0 + 55.0 * amount))))
    else s.(currentColour := BaseColour)
  }

  /** While the flash has not overrun, the colour is a valid RGB triple
      between the base colour and white; without a flash it is the base
      colour, which is `PURPLE`. */
  lemma FlashColourInRange(s: BossState, dt: real)
    ensures s.hitFlash <= 0.0 ==> FlashStep(s, dt).currentColour == BaseColour == Purple
    ensures s.hitFlash > 0.0 && s.hitFlash - dt >= 0.0 ==>
      var c := FlashStep(s, dt).currentColour;
      IsRgb(c) && 200 <= c.r <= 255 && c.r == c.b
    ensures s.hitFlash > 0.0 && s.hitFlash - dt >= HitFlashTime ==>
      FlashStep(s, dt).currentColour == White
  {
  }

  /** The wave loop: while firing, the wave timer advances, every due wave
      is removed, and the flag and timer are cleared once the queue is
      empty. */
  function WaveStep(s: BossState, dt: real): (r: BossState)
    ensures r == s.(pendingWaves := r.pendingWaves, firingWaves := r.firingWaves, waveTimer := r.waveTimer)
  {
    if !s.firingWaves then s
    else
      var t := s.waveTimer + dt;
      var rest := RemoveEach(s.pendingWaves, Due(s.pendingWaves, t));
      s.(pendingWaves := rest, firingWaves := rest != [], waveTimer := if rest == [] then 0.0 else t)
  }

  /** A firing step keeps the queue left after removing the due waves, and
      clears the timer once that queue is empty. */
  lemma WaveStepStores(s: BossState, dt: real, rest: seq<Wave>)
    requires s.firingWaves && rest == RemoveEach(s.pendingWaves, Due(s.pendingWaves, s.waveTimer + dt))
    ensures WaveStep(s, dt) == s.(pendingWaves := rest, firingWaves := rest != [],
                                  waveTimer := if rest == [] then 0.0 else s.waveTimer + dt)
  {
  }

  /** The bullets of the waves due this tick, from the waves' origin. */
  function WaveShots(s: BossState, dt: real): (r: seq<Shot>)
    ensures !s.firingWaves ==> r == []
    ensures forall k :: 0 <= k < |r| ==> r[k].origin == s.waveOrigin
  {
    if s.firingWaves then Released(s.waveOrigin, Due(s.pendingWaves, s.waveTimer + dt)) else []
  }

  // ---- one call of update --------------------------------------------------

  /** A fighting tick: timers, the current state's branch, melee, the hit
      flash and the wave loop, in that order. */
  function Fight(s: BossState, inp: Input): (r: BossState)
    requires WellFormed(s) && ValidDraws(s, inp.draws)
    ensures r.health == s.health
  {
    var a := AttackStep(CountTimers(s, inp.dt), inp);
    WaveStep(FlashStep(MeleeStep(a, inp.player), inp.dt), inp.dt)
  }

  /** The bullets of a fighting tick: the branch's, then the waves'. */
  function FightShots(s: BossState, inp: Input): seq<Shot>
    requires WellFormed(s) && ValidDraws(s, inp.draws)
  {
    var s1 := CountTimers(s, inp.dt);
    var a := AttackStep(s1, inp);
    AttackShots(s1, inp) + WaveShots(FlashStep(MeleeStep(a, inp.player), inp.dt), inp.dt)
  }

  /** The player after a fighting tick's melee check. */
  function FightPlayer(s: BossState, inp: Input): PlayerView
    requires WellFormed(s) && ValidDraws(s, inp.draws)
  {
    Struck(AttackStep(CountTimers(s, inp.dt), inp), inp.player)
  }

  /** The attack an idle tick chooses, once its cooldown is spent. */
  function Choice(s: BossState, inp: Input): Option<Attack>
    requires ValidDraws(s, inp.draws)
  {
    if s.mode == Idle && s.attackCooldown <= 0.0 then Some(Refill(s.availableAttacks)[inp.draws.pick]) else None
  }

  /** The threshold that starts the phase transition. */
  predicate CrossesThreshold(s: BossState) {
    s.mode != Intro && s.health <= PhaseThreshold && !s.phase2 && !s.healthThresholdHit
  }

  /** Which branch of `update` a tick takes. */
  datatype Branch = IntroBranch | EnterBranch | WaitBranch | GauntletBranch | FightBranch

  /** The state the branches after the threshold check see: the flag is set
      when the threshold is crossed. */
  function Marked(s: BossState): BossState {
    if CrossesThreshold(s) then s.(healthThresholdHit := true) else s
  }

  function BranchOf(s: BossState): (b: Branch)
    ensures b == IntroBranch <==> s.mode == Intro
    ensures b == EnterBranch <==> s.mode != Intro && CrossesThreshold(s) && !s.inGauntlet
    ensures b == WaitBranch || b == GauntletBranch ==> s.mode != Intro && s.transitioning
    ensures b == FightBranch ==>
      s.mode != Intro && (!CrossesThreshold(s) || s.inGauntlet) &&
      (!s.transitioning || (s.intermissionDelay <= 0.0 && !s.inGauntlet))
  {
    if s.mode == Intro then IntroBranch
    else if CrossesThreshold(s) && !s.inGauntlet then EnterBranch
    else if s.transitioning && s.intermissionDelay > 0.0 then WaitBranch
    else if s.transitioning && s.inGauntlet then GauntletBranch
    else FightBranch
  }

  /** The boss after one call of `update`. */
  function Next(s: BossState, inp: Input): (r: BossState)
    requires WellFormed(s) && ValidDraws(s, inp.draws)
    ensures r.health == s.health
  {
    match BranchOf(s)
    case IntroBranch => IntroStep(s, inp.dt)
    case EnterBranch => StartGauntlet(s.(healthThresholdHit := true)).(intermissionDelay := IntermissionTime)
    case WaitBranch => Marked(s).(intermissionDelay := s.intermissionDelay - inp.dt)
    case GauntletBranch => GauntletStep(Marked(s), inp.dt)
    case FightBranch => Fight(Marked(s), inp)
  }

  /** The bullets one call of `update` adds. */
  function Emitted(s: BossState, inp: Input): (r: seq<Shot>)
    requires WellFormed(s) && ValidDraws(s, inp.draws)
    ensures BranchOf(s) != GauntletBranch && BranchOf(s) != FightBranch ==> r == []
  {
    match BranchOf(s)
    case GauntletBranch => GauntletShots(Marked(s), inp.dt)
    case FightBranch => FightShots(Marked(s), inp)
    case _ => []
  }

  /** The player after one call of `update`: only a fighting tick can
      strike. */
  function PlayerAfter(s: BossState, inp: Input): (p: PlayerView)
    requires WellFormed(s) && ValidDraws(s, inp.draws)
    ensures BranchOf(s) != FightBranch ==> p == inp.player
    ensures p.hearts == inp.player.hearts || p.hearts == inp.player.hearts - 1
    ensures p.centre == inp.player.centre && p.rolling == inp.player.rolling
  {
    if BranchOf(s) == FightBranch then FightPlayer(Marked(s), inp) else inp.player
  }

  /** The attack one call of `update` takes from the pool, if any. */
  function Picked(s: BossState, inp: Input): (c: Option<Attack>)
    requires WellFormed(s) && ValidDraws(s, inp.draws)
    ensures c.Some? ==> BranchOf(s) == FightBranch && c.value in Refill(s.availableAttacks)
  {
    if BranchOf(s) == FightBranch then Choice(CountTimers(Marked(s), inp.dt), inp) else None
  }

}
