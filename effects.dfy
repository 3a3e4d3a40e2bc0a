/** Visual effect bookkeeping (src/game/effects.ts): floating score texts,
    particles and screen shake. The pure functions say what one update does
    to a value; the methods apply them to the shared state record the way
    the source does, by pushing, mutating each element and re-filtering.
    components/Game.tsx uses the same text, particle and shake values. */
module Effects {
  import opened Constants
  import opened Types
  import opened Physics
  import opened Sequences
  import opened GameState

  /** Rise speed of a floating text, pixels per second (negative is up). */
  const TEXT_RISE: real := -50.0

  /** A new floating text at (x, y): fully opaque, one second to live. */
  function NewText(text: string, x: real, y: real): (t: FloatingText)
    ensures t.text == text && t.x == x && t.y == y
    ensures t.life == 1.0 && t.opacity == 1.0 && t.vy == TEXT_RISE
  {
    FloatingText(text, x, y, TEXT_RISE, 1.0, 1.0)
  }

  /** The random values one particle takes: its velocity (the source builds
      it from a random angle and speed through cos and sin) and two uniform
      draws for radius and life. */
  datatype ParticleDraw = ParticleDraw(vx: real, vy: real, radiusDraw: real, lifeDraw: real)

  /** A new particle at (x, y). */
  function NewParticle(x: real, y: real, color: string, d: ParticleDraw): (p: Particle)
    ensures p.x == x && p.y == y && p.color == color && p.opacity == 1.0
    ensures 0.0 <= d.lifeDraw < 1.0 ==> 0.5 <= p.life < 1.0
    ensures 0.0 <= d.radiusDraw < 1.0 ==> 2.0 <= p.radius < 5.0
  {
    Particle(x, y, d.vx, d.vy, d.radiusDraw * 3.0 + 2.0, color, d.lifeDraw * 0.5 + 0.5, 1.0)
  }

  /** The `count` particles `createParticles` pushes, the i-th taking draw
      `draw(base + i)`. */
  function NewParticles(x: real, y: real, color: string, count: nat, draw: nat -> ParticleDraw, base: nat): (ps: seq<Particle>)
    ensures |ps| == count
    ensures forall i :: 0 <= i < count ==> ps[i] == NewParticle(x, y, color, draw(base + i))
  {
    seq(count, i requires 0 <= i < count => NewParticle(x, y, color, draw(base + i)))
  }

  /** Every new particle sits at the burst point and is fully opaque. */
  lemma NewParticlesAtBurst(x: real, y: real, color: string, count: nat, draw: nat -> ParticleDraw, base: nat)
    ensures forall p :: p in NewParticles(x, y, color, count, draw, base) ==> p.x == x && p.y == y && p.opacity == 1.0
  {
    var ps := NewParticles(x, y, color, count, draw, base);
    forall p | p in ps ensures p.x == x && p.y == y && p.opacity == 1.0 {
      var i :| 0 <= i < |ps| && ps[i] == p;
    }
  }

  /** One frame of a particle: it moves by its velocity per frame, loses
      `dt` of life and its opacity follows its life. */
  function AgeParticle(p: Particle, dt: real): (q: Particle)
    ensures q.x == p.x + p.vx && q.y == p.y + p.vy
    ensures q.life == p.life - dt && q.opacity == q.life
    ensures q.color == p.color && q.vx == p.vx && q.vy == p.vy && q.radius == p.radius
  {
    p.(x := p.x + p.vx, y := p.y + p.vy, life := p.life - dt, opacity := p.life - dt)
  }

  /** One frame of a floating text: it rises, loses `dt` of life, and its
      opacity follows its life but never drops below zero. */
  function AgeText(t: FloatingText, dt: real): (u: FloatingText)
    ensures u.life == t.life - dt && u.opacity >= 0.0
    ensures u.life >= 0.0 ==> u.opacity == u.life
    ensures u.text == t.text && u.x == t.x && u.vy == t.vy && u.y == t.y + t.vy * dt
  {
    t.(y := t.y + t.vy * dt, life := t.life - dt, opacity := Max(0.0, t.life - dt))
  }

  function AgeParticles(ps: seq<Particle>, dt: real): (r: seq<Particle>)
    ensures |r| == |ps|
    ensures forall i :: 0 <= i < |ps| ==> r[i] == AgeParticle(ps[i], dt)
  {
    seq(|ps|, i requires 0 <= i < |ps| => AgeParticle(ps[i], dt))
  }

  function AgeTexts(ts: seq<FloatingText>, dt: real): (r: seq<FloatingText>)
    ensures |r| == |ts|
    ensures forall i :: 0 <= i < |ts| ==> r[i] == AgeText(ts[i], dt)
  {
    seq(|ts|, i requires 0 <= i < |ts| => AgeText(ts[i], dt))
  }

  predicate ParticleAlive(p: Particle) { p.life > 0.0 }
  predicate TextAlive(t: FloatingText) { t.life > 0.0 }

  /** The particles after one update: aged, then the dead ones dropped. */
  function UpdatedParticles(ps: seq<Particle>, dt: real): seq<Particle> {
    Filter(AgeParticles(ps, dt), ParticleAlive)
  }

  /** The floating texts after one update: aged, then the dead ones dropped. */
  function UpdatedTexts(ts: seq<FloatingText>, dt: real): seq<FloatingText> {
    Filter(AgeTexts(ts, dt), TextAlive)
  }

  /** After an update every remaining particle is alive and is the aged form
      of a particle that was there before; nothing new appears, and a
      particle whose life outlasts `dt` is kept. */
  lemma UpdatedParticlesSpec(ps: seq<Particle>, dt: real)
    ensures |UpdatedParticles(ps, dt)| <= |ps|
    ensures forall q :: q in UpdatedParticles(ps, dt) ==> q.life > 0.0 && q.opacity == q.life
    ensures forall q :: q in UpdatedParticles(ps, dt) ==> exists i :: 0 <= i < |ps| && q == AgeParticle(ps[i], dt)
    ensures forall i :: 0 <= i < |ps| && ps[i].life > dt ==> AgeParticle(ps[i], dt) in UpdatedParticles(ps, dt)
  {
    var aged := AgeParticles(ps, dt);
    forall q | q in UpdatedParticles(ps, dt)
      ensures exists i :: 0 <= i < |ps| && q == AgeParticle(ps[i], dt)
    {
      var i :| 0 <= i < |aged| && aged[i] == q;
    }
    forall i | 0 <= i < |ps| && ps[i].life > dt
      ensures AgeParticle(ps[i], dt) in UpdatedParticles(ps, dt)
    {
      FilterKeeps(aged, ParticleAlive, aged[i]);
    }
  }

  /** After an update every remaining text is alive, has a non-negative
      opacity equal to its life, and is the aged form of an earlier text. */
  lemma UpdatedTextsSpec(ts: seq<FloatingText>, dt: real)
    ensures |UpdatedTexts(ts, dt)| <= |ts|
    ensures forall u :: u in UpdatedTexts(ts, dt) ==> u.life > 0.0 && u.opacity == u.life
    ensures forall u :: u in UpdatedTexts(ts, dt) ==> exists i :: 0 <= i < |ts| && u == AgeText(ts[i], dt)
    ensures forall i :: 0 <= i < |ts| && ts[i].life > dt ==> AgeText(ts[i], dt) in UpdatedTexts(ts, dt)
  {
    var aged := AgeTexts(ts, dt);
    forall u | u in UpdatedTexts(ts, dt)
      ensures exists i :: 0 <= i < |ts| && u == AgeText(ts[i], dt)
    {
      var i :| 0 <= i < |aged| && aged[i] == u;
    }
    forall i | 0 <= i < |ts| && ts[i].life > dt
      ensures AgeText(ts[i], dt) in UpdatedTexts(ts, dt)
    {
      FilterKeeps(aged, TextAlive, aged[i]);
    }
  }

  /** Survivors keep their relative order: updating two lists one after the
      other is updating their concatenation. */
  lemma UpdatedTextsKeepOrder(a: seq<FloatingText>, b: seq<FloatingText>, dt: real)
    ensures UpdatedTexts(a + b, dt) == UpdatedTexts(a, dt) + UpdatedTexts(b, dt)
  {
    assert AgeTexts(a + b, dt) == AgeTexts(a, dt) + AgeTexts(b, dt);
    FilterAppend(AgeTexts(a, dt), AgeTexts(b, dt), TextAlive);
  }

  lemma UpdatedParticlesKeepOrder(a: seq<Particle>, b: seq<Particle>, dt: real)
    ensures UpdatedParticles(a + b, dt) == UpdatedParticles(a, dt) + UpdatedParticles(b, dt)
  {
    assert AgeParticles(a + b, dt) == AgeParticles(a, dt) + AgeParticles(b, dt);
    FilterAppend(AgeParticles(a, dt), AgeParticles(b, dt), ParticleAlive);
  }

  /** The shake countdown of src/game/effects.ts: a running shake loses
      dt * 1000 ms and its magnitude drops to zero on the frame its duration
      runs out; a shake that is not running is left alone. */
  function UpdateShake(s: Shake, dt: real): (r: Shake)
    ensures s.duration <= 0.0 ==> r == s
    ensures s.duration > 0.0 ==> r.duration == s.duration - dt * 1000.0
    ensures s.duration > 0.0 && r.duration <= 0.0 ==> r.magnitude == 0.0
    ensures r.duration > 0.0 ==> r.magnitude == s.magnitude
  {
    if s.duration > 0.0 then
      var d := s.duration - dt * 1000.0;
      if d <= 0.0 then Shake(0.0, d) else Shake(s.magnitude, d)
    else s
  }

  /** The shake countdown of the two screen loops (GameScreen.tsx and
      Game.tsx): a running shake loses dt * 1000 ms; the magnitude is only
      cleared on a later frame that finds the duration already spent. */
  function ScreenShakeTick(s: Shake, dt: real): (r: Shake)
    ensures s.duration > 0.0 ==> r == s.(duration := s.duration - dt * 1000.0)
    ensures s.duration <= 0.0 ==> r == s.(magnitude := 0.0)
  {
    if s.duration > 0.0 then s.(duration := s.duration - dt * 1000.0) else s.(magnitude := 0.0)
  }

  /** With a positive frame time, the screen loops still show a shake's full
      magnitude on the frame its duration runs out, and clear it on the next
      frame; the effects.ts update clears it at once. */
  lemma ShakeCountdownsDiffer(s: Shake, dt: real)
    requires s.duration > 0.0 && s.magnitude != 0.0 && dt > 0.0 && s.duration <= dt * 1000.0
    ensures UpdateShake(s, dt).magnitude == 0.0
    ensures ScreenShakeTick(s, dt).magnitude == s.magnitude
    ensures ScreenShakeTick(ScreenShakeTick(s, dt), dt).magnitude == 0.0
  {
  }

  // ----- Methods on the shared state record -----

  /** `addFloatingText`: push one new text; nothing else changes. */
  method AddFloatingText(state: GameStateRef, text: string, x: real, y: real)
    modifies state
    ensures state.View() == old(state.View()).(floatingTexts := old(state.floatingTexts) + [NewText(text, x, y)])
  {
    state.floatingTexts := state.floatingTexts + [NewText(text, x, y)];
  }

  /** `triggerScreenShake`: overwrite both magnitude and duration. */
  method TriggerScreenShake(state: GameStateRef, magnitude: real, duration: real)
    modifies state
    ensures state.View() == old(state.View()).(shake := Shake(magnitude, duration))
  {
    state.shake := Shake(magnitude, duration);
  }

  /** `createParticles`: push `count` particles, one per loop round. */
  method CreateParticles(state: GameStateRef, x: real, y: real, color: string, count: nat, draw: nat -> ParticleDraw)
    modifies state
    ensures state.View() == old(state.View()).(particles := old(state.particles) + NewParticles(x, y, color, count, draw, |old(state.particles)|))
  {
    var base := |state.particles|;
    for i := 0 to count
      invariant state.View() == old(state.View()).(particles := old(state.particles) + NewParticles(x, y, color, i, draw, base))
    {
      state.particles := state.particles + [NewParticle(x, y, color, draw(base + i))];
      assert NewParticles(x, y, color, i + 1, draw, base) == NewParticles(x, y, color, i, draw, base) + [NewParticle(x, y, color, draw(base + i))];
    }
  }

  /** The `forEach` that ages every particle in place. */
  method AgeParticlesLoop(ps0: seq<Particle>, dt: real) returns (ps: seq<Particle>)
    ensures ps == AgeParticles(ps0, dt)
  {
    ps := ps0;
    for i := 0 to |ps|
      invariant |ps| == |ps0|
      invariant forall k :: 0 <= k < i ==> ps[k] == AgeParticle(ps0[k], dt)
      invariant forall k :: i <= k < |ps| ==> ps[k] == ps0[k]
    {
      ps := ps[i := AgeParticle(ps[i], dt)];
    }
  }

  /** The `forEach` that ages every floating text in place. */
  method AgeTextsLoop(ts0: seq<FloatingText>, dt: real) returns (ts: seq<FloatingText>)
    ensures ts == AgeTexts(ts0, dt)
  {
    ts := ts0;
    for i := 0 to |ts|
      invariant |ts| == |ts0|
      invariant forall k :: 0 <= k < i ==> ts[k] == AgeText(ts0[k], dt)
      invariant forall k :: i <= k < |ts| ==> ts[k] == ts0[k]
    {
      ts := ts[i := AgeText(ts[i], dt)];
    }
  }

  /** `updateEffects`: age every particle and text, drop the dead ones, and
      count the shake down. */
  method UpdateEffects(state: GameStateRef, dt: real)
    modifies state
    ensures state.View() == old(state.View()).(
      particles := UpdatedParticles(old(state.particles), dt),
      floatingTexts := UpdatedTexts(old(state.floatingTexts), dt),
      shake := UpdateShake(old(state.shake), dt))
  {
    var aged := AgeParticlesLoop(state.particles, dt);
    state.particles := FilterLoop(aged, ParticleAlive);
    var agedTexts := AgeTextsLoop(state.floatingTexts, dt);
    state.floatingTexts := FilterLoop(agedTexts, TextAlive);
    assert state.View() == old(state.View()).(
      particles := UpdatedParticles(old(state.particles), dt),
      floatingTexts := UpdatedTexts(old(state.floatingTexts), dt));
    if state.shake.duration > 0.0 {
      state.shake := state.shake.(duration := state.shake.duration - dt * 1000.0);
      if state.shake.duration <= 0.0 {
        state.shake := state.shake.(magnitude := 0.0);
      }
    }
  }
}
