/** Two short-lived visual effects: the screen shake started when the player
    is hit, and the eight-particle impact burst left where a player bullet
    strikes the boss. */
module Effects {
  import opened Vectors

  class ScreenShake {
    var duration: real
    var intensity: real
    var offset: Vec

    constructor ()
      ensures duration == 0.0 && intensity == 0.0 && offset == Zero
    {
      duration := 0.0;
      intensity := 0.0;
      offset := Zero;
    }

    method StartShake(duration: real, intensity: real)
      modifies this
      ensures this.duration == duration && this.intensity == intensity
      ensures offset == old(offset)
    {
      this.duration := duration;
      this.intensity := intensity;
    }

    /** One frame of shaking.  `ox` and `oy` are the two
        `random.uniform(-intensity, intensity)` draws; they are used only
        while the shake is running. */
    method Update(dt: real, ox: real, oy: real) returns (r: Vec)
      requires Between(ox, -intensity, intensity) && Between(oy, -intensity, intensity)
      modifies this
      ensures intensity == old(intensity)
      ensures duration == CountDown(old(duration), dt)
      ensures old(duration) <= 0.0 ==> offset == old(offset)
      ensures old(duration) > 0.0 && duration <= 0.0 ==> offset == Zero
      ensures old(duration) > 0.0 && duration > 0.0 ==> offset == Vec(ox, oy)
      ensures old(duration) > 0.0 ==> Between(offset.x, -intensity, intensity) && Between(offset.y, -intensity, intensity)
      ensures r == offset
    {
      if duration > 0.0 {
        duration := duration - dt;
        offset := Vec(ox, oy);
        if duration <= 0.0 {
          offset := Zero;
        }
      }
      r := offset;
    }
  }

  /** One spark of an impact burst. */
  datatype Particle = Particle(pos: Vec, vel: Vec, size: int, alpha: real)

  const ImpactLifetime: real := 0.2
  const ImpactParticles: nat := 8
  /** Alpha lost per second: the full 255 over the burst's lifetime. */
  const FadeSpeed: real := 255.0 / ImpactLifetime

  /** `max(0, alpha - FadeSpeed * dt)`. */
  function FadedAlpha(alpha: real, dt: real): (r: real)
    ensures r >= 0.0
    ensures dt >= 0.0 ==> r <= Max(alpha, 0.0)
    ensures alpha - FadeSpeed * dt > 0.0 ==> r == alpha - FadeSpeed * dt
    ensures alpha - FadeSpeed * dt <= 0.0 ==> r == 0.0
  {
    Max(0.0, alpha - FadeSpeed * dt)
  }

  /** Alpha stays in [0, 255] and never rises while time moves forward. */
  lemma FadedAlphaStaysInRange(alpha: real, dt: real)
    requires 0.0 <= alpha <= 255.0 && dt >= 0.0
    ensures 0.0 <= FadedAlpha(alpha, dt) <= alpha <= 255.0
  {
  }

  /** What one frame does to a live particle. */
  function Stepped(p: Particle, dt: real): Particle {
    p.(pos := p.pos.Plus(p.vel), alpha := FadedAlpha(p.alpha, dt))
  }

  /** The burst's velocities in polar form: particle `k` is aimed at
      `45 * k` degrees plus its jitter. */
  function Heading(k: nat, jitter: real): real {
    45.0 * k as real + jitter
  }

  class Impact {
    var pos: Vec
    var lifetime: real
    var particles: array<Particle>
    var killed: bool

    /** `polar(speed, degrees)` stands for `(speed * cos, speed * sin)`.
        `speeds`, `jitters` and `sizes` are the burst's draws of
        `uniform(2, 5)`, `uniform(-10, 10)` and `randint(2, 4)`, one of each
        per particle. */
    constructor (pos: Vec, polar: (real, real) -> Vec, speeds: seq<real>, jitters: seq<real>, sizes: seq<int>)
      requires |speeds| == ImpactParticles && |jitters| == ImpactParticles && |sizes| == ImpactParticles
      requires forall k :: 0 <= k < ImpactParticles ==> 2.0 <= speeds[k] <= 5.0
      requires forall k :: 0 <= k < ImpactParticles ==> -10.0 <= jitters[k] <= 10.0
      requires forall k :: 0 <= k < ImpactParticles ==> 2 <= sizes[k] <= 4
      ensures this.pos == pos && lifetime == ImpactLifetime && !killed
      ensures fresh(particles) && particles.Length == ImpactParticles
      ensures forall k :: 0 <= k < ImpactParticles ==>
        particles[k] == Particle(pos, polar(speeds[k], Heading(k, jitters[k])), sizes[k], 255.0)
      ensures forall k :: 0 <= k < ImpactParticles ==>
        45.0 * k as real - 10.0 <= Heading(k, jitters[k]) <= 45.0 * k as real + 10.0
    {
      this.pos := pos;
      lifetime := ImpactLifetime;
      killed := false;
      var ps := new Particle[ImpactParticles];
      var k := 0;
      while k < ImpactParticles
        invariant 0 <= k <= ImpactParticles
        invariant forall j :: 0 <= j < k ==>
          ps[j] == Particle(pos, polar(speeds[j], Heading(j, jitters[j])), sizes[j], 255.0)
      {
        ps[k] := Particle(pos, polar(speeds[k], Heading(k, jitters[k])), sizes[k], 255.0);
        k := k + 1;
      }
      particles := ps;
    }

    /** One frame: the burst ages by `dt`; once its lifetime is spent it is
        killed and nothing moves, otherwise every particle moves and fades. */
    method Update(dt: real)
      modifies this, particles
      ensures particles == old(particles) && pos == old(pos)
      ensures lifetime == old(lifetime) - dt
      ensures killed == (old(killed) || lifetime <= 0.0)
      ensures lifetime <= 0.0 ==> particles[..] == old(particles[..])
      ensures lifetime > 0.0 ==> forall k :: 0 <= k < particles.Length ==>
        particles[k] == Stepped(old(particles[k]), dt)
    {
      lifetime := lifetime - dt;
      if lifetime <= 0.0 {
        killed := true;
        return;
      }
      var ps := particles;
      var k := 0;
      while k < ps.Length
        modifies ps
        invariant 0 <= k <= ps.Length
        invariant forall j :: 0 <= j < k ==> ps[j] == Stepped(old(ps[j]), dt)
        invariant forall j :: k <= j < ps.Length ==> ps[j] == old(ps[j])
      {
        ps[k] := Stepped(ps[k], dt);
        k := k + 1;
      }
    }
  }
}
