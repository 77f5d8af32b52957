/** The player: an axis-aligned 20x20 square steered by the arrow/WASD keys,
    with a dodge roll, three hearts and the timers that grant invulnerability
    after a hit and after a roll. */
module Players {
  import opened Vectors
  import opened Settings

  const Speed: int := 5
  const Side: int := 20
  const RollTime: real := 0.35
  const RollCooldownDuration: real := 0.8
  const PostRollGrace: real := 0.5
  const HitGrace: real := 1.5
  const DamageFlashTime: real := 0.3
  const StartHearts: int := 3

  /** A per-frame displacement in whole pixels. */
  datatype Move = Move(dx: int, dy: int)

  const Still: Move := Move(0, 0)

  /** The walking displacement for the held keys: right wins over left and
      down wins over up when both are held. */
  function KeyMove(left: bool, right: bool, up: bool, down: bool): (m: Move)
    ensures m.dx == Speed <==> right
    ensures m.dx == -Speed <==> left && !right
    ensures m.dx == 0 <==> !left && !right
    ensures m.dy == Speed <==> down
    ensures m.dy == -Speed <==> up && !down
    ensures m.dy == 0 <==> !up && !down
  {
    var dx := if right then Speed else if left then -Speed else 0;
    var dy := if down then Speed else if up then -Speed else 0;
    Move(dx, dy)
  }

  /** One axis of pygame's `Rect.clamp_ip`: a segment of length `size` is
      moved the least distance that puts it inside `[lo, lo + span]`, or is
      centred on that interval when it is too long to fit. */
  function ClampAxis(p: int, size: int, lo: int, span: int): (r: int)
    requires 0 <= size && 0 <= span
    ensures size <= span ==> lo <= r && r + size <= lo + span
    ensures lo <= p && p + size <= lo + span ==> r == p
    ensures size <= span && p < lo ==> r == lo
    ensures size <= span && lo + span < p + size ==> r == lo + span - size
  {
    if size >= span then lo + span / 2 - size / 2
    else if p < lo then lo
    else if p + size > lo + span then lo + span - size
    else p
  }

  class Player {
    /** Top-left corner of the player's rect. */
    var x: int
    var y: int
    var rolling: bool
    var rollTimer: real
    var rollCooldown: real
    /** Un-normalised direction of the last walking step, and of the roll in
        progress (the source keeps their normalised vectors). */
    var lastDir: Move
    var rollDirection: Move
    var hearts: int
    var invulnerableTimer: real
    var postRollInvulnerable: real
    var damageFlashTime: real
    var debugInvulnerable: bool

    function Bounds(): Rect
      reads this
    {
      Rect(x, y, Side, Side)
    }

    /** `rect.center`, which the boss reads as the player's position. */
    function Centre(): Vec
      reads this
    {
      Vec((x + Side / 2) as real, (y + Side / 2) as real)
    }

    constructor (cx: int, cy: int)
      ensures Centre() == Vec(cx as real, cy as real)
      ensures !rolling && rollTimer == 0.0 && rollCooldown == 0.0
      ensures hearts == StartHearts && invulnerableTimer == 0.0 && postRollInvulnerable == 0.0
      ensures damageFlashTime == 0.0 && !debugInvulnerable
      ensures lastDir == Still && rollDirection == Still
    {
      x := cx - Side / 2;
      y := cy - Side / 2;
      rolling := false;
      rollTimer := 0.0;
      rollCooldown := 0.0;
      lastDir := Still;
      rollDirection := Still;
      hearts := StartHearts;
      invulnerableTimer := 0.0;
      postRollInvulnerable := 0.0;
      damageFlashTime := 0.0;
      debugInvulnerable := false;
    }

    /** A roll always protects; otherwise only the hit timer or the grace
        after a roll does. */
    predicate IsInvulnerable(): (r: bool)
      reads this
      ensures rolling ==> r
      ensures !rolling ==> (r <==> invulnerableTimer > 0.0 || postRollInvulnerable > 0.0)
    {
      invulnerableTimer > 0.0 || rolling || postRollInvulnerable > 0.0
    }

    /** No roll starts during another; between rolls one may start exactly
        when the cooldown is spent. */
    predicate CanRoll(): (r: bool)
      reads this
      ensures rolling ==> !r
      ensures !rolling ==> (r <==> rollCooldown <= 0.0)
    {
      !rolling && rollCooldown <= 0.0
    }

    /** One frame.  The key flags stand for `pygame.key.get_pressed()`;
        `rollStep` is the whole-pixel displacement that a roll moves the rect
        by, `roll_direction * 7.5` as the rect stores it. */
    method Update(dt: real, left: bool, right: bool, up: bool, down: bool, rollStep: Move)
      modifies this
      ensures hearts == old(hearts) && debugInvulnerable == old(debugInvulnerable)
      ensures rollDirection == old(rollDirection)
      ensures rolling == (old(rolling) && old(rollTimer) - dt > 0.0)
      ensures rollTimer == if old(rolling) then old(rollTimer) - dt else old(rollTimer)
      ensures !old(rolling) ==> postRollInvulnerable == CountDown(old(postRollInvulnerable), dt)
      ensures old(rolling) && rolling ==> postRollInvulnerable == old(postRollInvulnerable)
      ensures old(rolling) && !rolling ==> postRollInvulnerable == PostRollGrace
      ensures rollCooldown == CountDown(if old(rolling) && !rolling then RollCooldownDuration else old(rollCooldown), dt)
      ensures invulnerableTimer == CountDown(old(invulnerableTimer), dt)
      ensures damageFlashTime == CountDown(old(damageFlashTime), dt)
      ensures var step := if old(rolling) then rollStep else KeyMove(left, right, up, down);
        && x == ClampAxis(old(x) + step.dx, Side, CollisionRect.x, CollisionRect.w)
        && y == ClampAxis(old(y) + step.dy, Side, CollisionRect.y, CollisionRect.h)
      ensures lastDir == if !old(rolling) && KeyMove(left, right, up, down) != Still
                         then KeyMove(left, right, up, down) else old(lastDir)
      ensures CollisionRect.Contains(Bounds())
      ensures rolling || (old(rolling) && !rolling) ==> IsInvulnerable()
      ensures old(rolling) && !rolling && dt < RollCooldownDuration ==> !CanRoll()
    {
      if !rolling {
        Walk(dt, KeyMove(left, right, up, down));
      } else {
        Roll(dt, rollStep);
      }
      EndFrame(dt);
    }

    /** The walking half of `Update`. */
    method Walk(dt: real, m: Move)
      requires !rolling
      modifies this
      ensures x == old(x) + m.dx && y == old(y) + m.dy
      ensures lastDir == if m != Still then m else old(lastDir)
      ensures postRollInvulnerable == CountDown(old(postRollInvulnerable), dt)
      ensures rolling == old(rolling) && rollTimer == old(rollTimer) && rollCooldown == old(rollCooldown)
      ensures rollDirection == old(rollDirection) && hearts == old(hearts) && debugInvulnerable == old(debugInvulnerable)
      ensures invulnerableTimer == old(invulnerableTimer) && damageFlashTime == old(damageFlashTime)
    {
      if m != Still {
        lastDir := m;
      }
      x, y := x + m.dx, y + m.dy;
      if postRollInvulnerable > 0.0 {
        postRollInvulnerable := postRollInvulnerable - dt;
      }
    }

    /** The rolling half of `Update`. */
    method Roll(dt: real, rollStep: Move)
      requires rolling
      modifies this
      ensures x == old(x) + rollStep.dx && y == old(y) + rollStep.dy
      ensures rollTimer == old(rollTimer) - dt
      ensures rolling == (rollTimer > 0.0)
      ensures postRollInvulnerable == if rolling then old(postRollInvulnerable) else PostRollGrace
      ensures rollCooldown == if rolling then old(rollCooldown) else RollCooldownDuration
      ensures lastDir == old(lastDir) && rollDirection == old(rollDirection) && hearts == old(hearts)
      ensures debugInvulnerable == old(debugInvulnerable)
      ensures invulnerableTimer == old(invulnerableTimer) && damageFlashTime == old(damageFlashTime)
    {
      x, y := x + rollStep.dx, y + rollStep.dy;
      rollTimer := rollTimer - dt;
      if rollTimer <= 0.0 {
        rolling := false;
        postRollInvulnerable := PostRollGrace;
        rollCooldown := RollCooldownDuration;
      }
    }

    /** The timers and the clamp that follow either half of `Update`. */
    method EndFrame(dt: real)
      modifies this
      ensures invulnerableTimer == CountDown(old(invulnerableTimer), dt)
      ensures damageFlashTime == CountDown(old(damageFlashTime), dt)
      ensures x == ClampAxis(old(x), Side, CollisionRect.x, CollisionRect.w)
      ensures y == ClampAxis(old(y), Side, CollisionRect.y, CollisionRect.h)
      ensures CollisionRect.Contains(Bounds())
      ensures rollCooldown == CountDown(old(rollCooldown), dt)
      ensures rolling == old(rolling) && rollTimer == old(rollTimer) && postRollInvulnerable == old(postRollInvulnerable)
      ensures lastDir == old(lastDir) && rollDirection == old(rollDirection) && hearts == old(hearts)
      ensures debugInvulnerable == old(debugInvulnerable)
    {
      CollisionRectIs();
      if invulnerableTimer > 0.0 {
        invulnerableTimer := invulnerableTimer - dt;
      }
      if damageFlashTime > 0.0 {
        damageFlashTime := damageFlashTime - dt;
      }
      x := ClampAxis(x, Side, CollisionRect.x, CollisionRect.w);
      y := ClampAxis(y, Side, CollisionRect.y, CollisionRect.h);
      if rollCooldown > 0.0 {
        rollCooldown := rollCooldown - dt;
      }
    }

    /** A boss bullet reached the player.  The hit lands, costing one heart,
        unless the debug flag is set or the hit-grace timer is still running;
        a roll alone does not stop it (the caller tests `IsInvulnerable`). */
    method TakeDamage() returns (hit: bool)
      modifies this
      ensures hit <==> !debugInvulnerable && old(invulnerableTimer) <= 0.0
      ensures !old(IsInvulnerable()) && !debugInvulnerable ==> hit
      ensures hit ==> hearts == old(hearts) - 1 && invulnerableTimer == HitGrace && damageFlashTime == DamageFlashTime
      ensures !hit ==> hearts == old(hearts) && invulnerableTimer == old(invulnerableTimer) && damageFlashTime == old(damageFlashTime)
      ensures x == old(x) && y == old(y) && rolling == old(rolling) && rollTimer == old(rollTimer)
      ensures rollCooldown == old(rollCooldown) && postRollInvulnerable == old(postRollInvulnerable)
      ensures lastDir == old(lastDir) && rollDirection == old(rollDirection) && debugInvulnerable == old(debugInvulnerable)
    {
      if debugInvulnerable {
        return false;
      }
      if invulnerableTimer <= 0.0 {
        hearts := hearts - 1;
        invulnerableTimer := HitGrace;
        damageFlashTime := DamageFlashTime;
        return true;
      }
      return false;
    }

    /** The space-bar handler of the game loop: a roll starts only when the
        player may roll and has walked in some direction. */
    method PressRoll() returns (started: bool)
      modifies this
      ensures started == (old(CanRoll()) && old(lastDir) != Still)
      ensures started ==> rolling && rollTimer == RollTime && rollDirection == old(lastDir)
      ensures started ==> IsInvulnerable() && !CanRoll()
      ensures !started ==> rolling == old(rolling) && rollTimer == old(rollTimer) && rollDirection == old(rollDirection)
      ensures x == old(x) && y == old(y) && hearts == old(hearts) && rollCooldown == old(rollCooldown)
      ensures invulnerableTimer == old(invulnerableTimer) && postRollInvulnerable == old(postRollInvulnerable)
      ensures damageFlashTime == old(damageFlashTime) && lastDir == old(lastDir) && debugInvulnerable == old(debugInvulnerable)
    {
      started := CanRoll() && lastDir != Still;
      if started {
        rolling := true;
        rollTimer := RollTime;
        rollDirection := lastDir;
      }
    }

    /** Back to three hearts with every timer cleared, centred horizontally
        with the rect's bottom 50 pixels above the window's. */
    method Reset()
      modifies this
      ensures x + Side / 2 == Width / 2 && y + Side == Height - 50
      ensures hearts == StartHearts && !rolling && rollTimer == 0.0 && rollCooldown == 0.0
      ensures invulnerableTimer == 0.0 && postRollInvulnerable == 0.0 && damageFlashTime == 0.0
      ensures rollDirection == Still && lastDir == Still
      ensures debugInvulnerable == old(debugInvulnerable)
      ensures !IsInvulnerable() && CanRoll()
    {
      x := Width / 2 - Side / 2;
      y := Height - 50 - Side;
      hearts := StartHearts;
      rolling := false;
      rollTimer := 0.0;
      rollCooldown := 0.0;
      rollDirection := Still;
      lastDir := Still;
      invulnerableTimer := 0.0;
      postRollInvulnerable := 0.0;
      damageFlashTime := 0.0;
    }
  }
}
