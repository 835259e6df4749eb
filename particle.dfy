/** Particles and the player orb of eternal_loop/src/core/particle.py.

    A Particle is a dataclass and compares by value. The one list that shares
    particles with a pool is the `ate` list of the eating loop, and nothing
    mutates a particle while both lists hold it; so the model keeps particles
    as values in the pools, and an in-place `update` becomes the replacement
    of that element.
    The Orb is a single object whose fields change in place, so it is a class;
    OrbState is its value, and the functions over OrbState specify the Orb's
    methods. */
module Particles {
  import opened Common
  import opened Easing

  /** Particle radius is fixed at spawn; its colour only feeds drawing. */
  datatype Particle = Particle(pos: Vec, vel: Vec, radius: real, phase: real)
  {
    /** Particle.update(dt, flow_t): advance the phase, nudge the velocity by
        the flow field at the new phase, decay it by 0.995 and integrate. */
    function Update(dt: real, flowT: real, m: Maths): Particle
    {
      var ph := phase + dt * 0.2;
      var v := vel.Plus(Flow(m, ph, flowT).Scale(dt).Scale(0.2)).Scale(0.995);
      Particle(pos.Plus(v.Scale(dt)), v, radius, ph)
    }
  }

  /** The flow-field vector (cos(phase + flow_t), sin(0.5 phase + 0.7 flow_t)) * 12. */
  function Flow(m: Maths, phase: real, flowT: real): (f: Vec)
    ensures Lawful(m) ==> -12.0 <= f.x <= 12.0 && -12.0 <= f.y <= 12.0
  {
    Vec(m.cos(phase + flowT), m.sin(phase * 0.5 + flowT * 0.7)).Scale(12.0)
  }

  /** The largest speed per axis that spawning produces (food velocities are
      drawn from [-20, 20], hazard velocities from [-10, 10]). */
  const SpeedBound := 20.0

  /** With the frame delta clamped to [0, 1/30] as the application does, one
      update keeps each velocity component inside [-20, 20]:
      (20 + 12 * dt * 0.2) * 0.995 <= 20.08 * 0.995 < 20. */
  lemma UpdateKeepsSpeedBound(p: Particle, dt: real, flowT: real, m: Maths)
    requires Lawful(m)
    requires 0.0 <= dt <= 1.0 / 30.0
    requires -SpeedBound <= p.vel.x <= SpeedBound && -SpeedBound <= p.vel.y <= SpeedBound
    ensures var q := p.Update(dt, flowT, m);
      -SpeedBound <= q.vel.x <= SpeedBound && -SpeedBound <= q.vel.y <= SpeedBound
  {
    var q := p.Update(dt, flowT, m);
    var f := Flow(m, q.phase, flowT);
    AxisBound(p.vel.x, f.x, dt);
    AxisBound(p.vel.y, f.y, dt);
  }

  /** Beyond the 0.995 decay, one update moves each velocity component by at
      most 12 * 0.2 * 0.995 * dt = 2.388 dt, in either direction; the radius
      is kept. */
  lemma UpdateNudge(p: Particle, dt: real, flowT: real, m: Maths)
    requires Lawful(m) && 0.0 <= dt
    ensures var q := p.Update(dt, flowT, m);
      && -2.388 * dt <= q.vel.x - p.vel.x * 0.995 <= 2.388 * dt
      && -2.388 * dt <= q.vel.y - p.vel.y * 0.995 <= 2.388 * dt
      && q.radius == p.radius
  {
    var q := p.Update(dt, flowT, m);
    var f := Flow(m, q.phase, flowT);
    assert q.vel.x == (p.vel.x + f.x * dt * 0.2) * 0.995;
    assert q.vel.y == (p.vel.y + f.y * dt * 0.2) * 0.995;
    AxisNudge(p.vel.x, f.x, dt);
    AxisNudge(p.vel.y, f.y, dt);
  }

  lemma AxisNudge(v: real, f: real, dt: real)
    requires -12.0 <= f <= 12.0 && 0.0 <= dt
    ensures -2.388 * dt <= (v + f * dt * 0.2) * 0.995 - v * 0.995 <= 2.388 * dt
  {
    var n := f * dt;
    assert -12.0 * dt <= n <= 12.0 * dt by {
      if f >= 0.0 {
        calc { f * dt; <= 12.0 * dt; }
      } else {
        calc { f * dt; >= -12.0 * dt; }
      }
    }
    assert (v + n * 0.2) * 0.995 - v * 0.995 == n * 0.199;
  }

  lemma AxisBound(v: real, f: real, dt: real)
    requires -12.0 <= f <= 12.0 && 0.0 <= dt <= 1.0 / 30.0 && -SpeedBound <= v <= SpeedBound
    ensures -SpeedBound <= (v + f * dt * 0.2) * 0.995 <= SpeedBound
  {
    var n := f * dt;
    assert -0.4 <= n <= 0.4 by {
      if f >= 0.0 {
        calc { f * dt; <= 12.0 * dt; <= 12.0 * (1.0 / 30.0); }
        calc { f * dt; >= 0.0 * dt; }
      } else {
        calc { f * dt; >= -12.0 * dt; >= -12.0 * (1.0 / 30.0); }
        calc { f * dt; <= 0.0 * dt; }
      }
    }
    assert -20.08 <= v + n * 0.2 <= 20.08;
  }

  const MinRadius := 6.0
  const MaxRadius := 240.0
  const TrailMax := 32

  /** Orb.grow: the radius after growing by `amount`, capped at 240. */
  function Grown(radius: real, amount: real): (r: real)
    ensures r <= MaxRadius && r <= radius + amount
    ensures r == radius + amount || r == MaxRadius
  {
    Min(radius + amount, MaxRadius)
  }

  /** Orb.shrink: the radius after shrinking by `amount`, floored at 6. */
  function Shrunk(radius: real, amount: real): (r: real)
    ensures r >= MinRadius && r >= radius - amount
    ensures r == radius - amount || r == MinRadius
  {
    Max(radius - amount, MinRadius)
  }

  /** For a non-negative amount, growing and shrinking keep a radius that is
      inside [6, 240] inside it; growing never shrinks it and shrinking never
      grows it. */
  lemma GrowShrinkKeepBounds(radius: real, amount: real)
    requires MinRadius <= radius <= MaxRadius && 0.0 <= amount
    ensures radius <= Grown(radius, amount) <= MaxRadius
    ensures MinRadius <= Shrunk(radius, amount) <= radius
  {
  }

  /** The trail after recording `p`: append, then drop the oldest entry when
      the trail is longer than 32. */
  function PushTrail(trail: seq<Vec>, p: Vec): (t: seq<Vec>)
    requires |trail| <= TrailMax
    ensures |t| == if |trail| < TrailMax then |trail| + 1 else TrailMax
    ensures t[|t| - 1] == p
    ensures t[..|t| - 1] == trail[|trail| - (|t| - 1)..]
    ensures |trail| < TrailMax ==> t == trail + [p]
    ensures |trail| == TrailMax ==> t == trail[1..] + [p]
  {
    var s := trail + [p];
    if |s| > TrailMax then s[1..] else s
  }

  /** The observable state of an Orb (colour left out). */
  datatype OrbState = OrbState(pos: Vec, vel: Vec, radius: real, trail: seq<Vec>, breath: real)

  /** A new orb at `pos`: radius 16, still, no trail, breath 0. */
  function NewOrb(pos: Vec): OrbState
  {
    OrbState(pos, Zero, 16.0, [], 0.0)
  }

  /** The state after Orb.update(dt, cursor). */
  function Moved(o: OrbState, dt: real, cursor: Vec, m: Maths): OrbState
    requires |o.trail| <= TrailMax
  {
    var pos := Vec(Damp(m, o.pos.x, cursor.x, 4.0, dt), Damp(m, o.pos.y, cursor.y, 4.0, dt));
    OrbState(pos, o.vel.Scale(0.9).Plus(cursor.Minus(pos).Scale(0.1)), o.radius,
             PushTrail(o.trail, pos), o.breath + dt * 0.6)
  }

  /** Each axis of the orb moves towards the cursor without overshooting it,
      and the trail stays within 32 entries and ends at the new position. */
  lemma MovedTowardsCursor(o: OrbState, dt: real, cursor: Vec, m: Maths)
    requires Lawful(m) && 0.0 <= dt && |o.trail| <= TrailMax
    ensures var n := Moved(o, dt, cursor, m);
      && Min(o.pos.x, cursor.x) <= n.pos.x <= Max(o.pos.x, cursor.x)
      && Min(o.pos.y, cursor.y) <= n.pos.y <= Max(o.pos.y, cursor.y)
      && |n.trail| <= TrailMax && n.trail[|n.trail| - 1] == n.pos
      && n.radius == o.radius
  {
    DampBetween(m, o.pos.x, cursor.x, 4.0, dt);
    DampBetween(m, o.pos.y, cursor.y, 4.0, dt);
  }

  /** With no time elapsed the orb stays where it is. */
  lemma MovedNoTime(o: OrbState, cursor: Vec, m: Maths)
    requires Lawful(m) && |o.trail| <= TrailMax
    ensures Moved(o, 0.0, cursor, m).pos == o.pos
    ensures Moved(o, 0.0, cursor, m).breath == o.breath
  {
    DampNoTime(m, o.pos.x, cursor.x, 4.0);
    DampNoTime(m, o.pos.y, cursor.y, 4.0);
  }

  class Orb {
    var pos: Vec
    var vel: Vec
    var radius: real
    var trail: seq<Vec>
    const trailMax: nat
    var breath: real

    ghost predicate Valid()
      reads this
    {
      trailMax == TrailMax && |trail| <= trailMax
    }

    ghost function State(): OrbState
      reads this
    {
      OrbState(pos, vel, radius, trail, breath)
    }

    /** Orb.__init__ */
    constructor (pos: Vec)
      ensures Valid() && State() == NewOrb(pos)
    {
      this.pos := pos;
      vel := Zero;
      radius := 16.0;
      trail := [];
      trailMax := TrailMax;
      breath := 0.0;
    }

    /** Orb.update: damp towards the cursor, smooth the velocity, record the
        new position in the bounded trail, advance the breath phase. */
    method Update(dt: real, cursor: Vec, m: Maths)
      requires Valid()
      modifies this
      ensures Valid() && State() == Moved(old(State()), dt, cursor, m)
    {
      pos := Vec(Damp(m, pos.x, cursor.x, 4.0, dt), Damp(m, pos.y, cursor.y, 4.0, dt));
      vel := vel.Scale(0.9).Plus(cursor.Minus(pos).Scale(0.1));
      trail := trail + [pos];
      if |trail| > trailMax {
        trail := trail[1..];
      }
      breath := breath + dt * 0.6;
    }

    method Grow(amount: real)
      modifies this
      ensures radius == Grown(old(radius), amount)
      ensures pos == old(pos) && vel == old(vel) && trail == old(trail) && breath == old(breath)
    {
      radius := Min(radius + amount, MaxRadius);
    }

    method Shrink(amount: real)
      modifies this
      ensures radius == Shrunk(old(radius), amount)
      ensures pos == old(pos) && vel == old(vel) && trail == old(trail) && breath == old(breath)
    {
      radius := Max(radius - amount, MinRadius);
    }
  }
}
