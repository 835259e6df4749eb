/** The simulation core of eternal_loop/src/core/game.py.

    `CoreState` is the value of a GameCore; `Step` is what `update(dt)` does
    to it, built from one function per phase of the frame, in the source's
    order. The GameCore class holds the same fields and its methods are
    proved to follow these functions; the lemmas below state what the frame
    promises. Random draws, the cursor position and exp/sin/cos are
    parameters. */
module Game {
  import opened Common
  import opened Particles
  import opened Persistence
  import opened Filtering
  import opened Sound

  const FoodCap := 120
  const HazardCap := 18
  /** Two food particles are added whenever fewer than 120 exist, so 121 is
      the largest food pool that can occur. */
  const FoodBound := FoodCap + 1
  const SpawnInterval := 0.15
  const Margin := 50.0
  const WaveSpeed := 180.0
  const Gleam := "Gleam 100"
  const GleamRadius := 100.0
  /** math.tau as a double. */
  const Tau := 6.283185307179586

  /** An expanding ripple: origin and radius (its colour only feeds drawing). */
  datatype Wave = Wave(origin: Vec, radius: real)

  // ---------------------------------------------------------------------
  // Random draws

  predicate Unit(u: real) { 0.0 <= u < 1.0 }

  /** random.uniform(a, b) = a + (b - a) * random.random(). */
  function Uniform(a: real, b: real, u: real): (r: real)
    requires Unit(u)
    ensures a <= b ==> a <= r <= b
  {
    var d := (b - a) * u;
    UnitScale(b - a, u, d);
    a + d
  }

  lemma UnitScale(k: real, u: real, d: real)
    requires Unit(u) && d == k * u
    ensures 0.0 <= k ==> 0.0 <= d <= k
  {
    if 0.0 <= k {
      calc { d; == k * u; <= k * 1.0; }
    }
  }

  /** The draws one spawned particle consumes: randrange(0, w), randrange(0, h),
      and unit draws behind its radius, its two velocity components and its
      phase. */
  datatype Draw = Draw(x: int, y: int, ur: real, uvx: real, uvy: real, uphase: real)

  predicate DrawFits(d: Draw, w: int, h: int)
  {
    0 <= d.x < w && 0 <= d.y < h && Unit(d.ur) && Unit(d.uvx) && Unit(d.uvy) && Unit(d.uphase)
  }

  /** The draws of one spawn_particles call: two food particles and a hazard. */
  datatype SpawnDraws = SpawnDraws(food: seq<Draw>, hazard: Draw)

  predicate DrawsFit(ds: SpawnDraws, w: int, h: int)
  {
    |ds.food| == 2 && DrawFits(ds.food[0], w, h) && DrawFits(ds.food[1], w, h) && DrawFits(ds.hazard, w, h)
  }

  /** A food particle: radius uniform in [3, max(5, 10 - 0.02 pr)], velocity
      uniform in [-20, 20] per axis, position on the screen. */
  function FoodParticle(d: Draw, pr: real): (p: Particle)
    requires Unit(d.ur) && Unit(d.uvx) && Unit(d.uvy) && Unit(d.uphase)
    ensures 3.0 <= p.radius <= Max(5.0, 10.0 - pr * 0.02)
    ensures -20.0 <= p.vel.x <= 20.0 && -20.0 <= p.vel.y <= 20.0
  {
    Particle(Vec(d.x as real, d.y as real),
             Vec(Uniform(-20.0, 20.0, d.uvx), Uniform(-20.0, 20.0, d.uvy)),
             Uniform(3.0, Max(5.0, 10.0 - pr * 0.02), d.ur),
             d.uphase * Tau)
  }

  /** A hazard particle: radius uniform in [1.1 pr, 1.6 pr + 18], velocity
      uniform in [-10, 10] per axis. */
  function HazardParticle(d: Draw, pr: real): (p: Particle)
    requires Unit(d.ur) && Unit(d.uvx) && Unit(d.uvy) && Unit(d.uphase)
    ensures pr >= 0.0 ==> pr * 1.1 <= p.radius <= pr * 1.6 + 18.0
    ensures -10.0 <= p.vel.x <= 10.0 && -10.0 <= p.vel.y <= 10.0
  {
    Particle(Vec(d.x as real, d.y as real),
             Vec(Uniform(-10.0, 10.0, d.uvx), Uniform(-10.0, 10.0, d.uvy)),
             Uniform(pr * 1.1, pr * 1.6 + 18.0, d.ur),
             d.uphase * Tau)
  }

  /** The food pool after spawn_particles: two more only while below 120. */
  function FoodSpawned(food: seq<Particle>, pr: real, ds: SpawnDraws): (r: seq<Particle>)
    requires |ds.food| == 2
    requires Unit(ds.food[0].ur) && Unit(ds.food[0].uvx) && Unit(ds.food[0].uvy) && Unit(ds.food[0].uphase)
    requires Unit(ds.food[1].ur) && Unit(ds.food[1].uvx) && Unit(ds.food[1].uvy) && Unit(ds.food[1].uphase)
  {
    if |food| < FoodCap then food + [FoodParticle(ds.food[0], pr), FoodParticle(ds.food[1], pr)] else food
  }

  /** The hazard pool after spawn_particles: one more only while below 18. */
  function HazardSpawned(hazard: seq<Particle>, pr: real, ds: SpawnDraws): (r: seq<Particle>)
    requires Unit(ds.hazard.ur) && Unit(ds.hazard.uvx) && Unit(ds.hazard.uvy) && Unit(ds.hazard.uphase)
  {
    if |hazard| < HazardCap then hazard + [HazardParticle(ds.hazard, pr)] else hazard
  }

  /** Pool sizes after spawning: food stays at most 121 and hazards at most
      18, and the food bound is reached from 119 particles. */
  lemma SpawnBounds(food: seq<Particle>, hazard: seq<Particle>, pr: real, ds: SpawnDraws, w: int, h: int)
    requires DrawsFit(ds, w, h)
    requires |food| <= FoodBound && |hazard| <= HazardCap
    ensures |FoodSpawned(food, pr, ds)| <= FoodBound
    ensures |HazardSpawned(hazard, pr, ds)| <= HazardCap
    ensures |food| == FoodCap - 1 ==> |FoodSpawned(food, pr, ds)| == FoodBound
    ensures |food| >= FoodCap ==> FoodSpawned(food, pr, ds) == food
  {
  }

  // ---------------------------------------------------------------------
  // Wrapping

  /** The margin box [-50, w + 50] x [-50, h + 50]. */
  predicate InBox(v: Vec, w: int, h: int)
  {
    -Margin <= v.x <= w as real + Margin && -Margin <= v.y <= h as real + Margin
  }

  /** One coordinate of GameCore.wrap: two tests in sequence. */
  function WrapAxis(c: real, size: int): (r: real)
    requires 0 <= size
    ensures -Margin <= r <= size as real + Margin
    ensures -Margin <= c <= size as real + Margin ==> r == c
    ensures c < -Margin ==> r == size as real + Margin
    ensures c > size as real + Margin ==> r == -Margin
  {
    var c1 := if c < -Margin then size as real + Margin else c;
    if c1 > size as real + Margin then -Margin else c1
  }

  /** GameCore.wrap: a particle that left the margin box re-enters on the
      opposite side; only its position changes. */
  function Wrap(p: Particle, w: int, h: int): (q: Particle)
    requires 0 <= w && 0 <= h
    ensures InBox(q.pos, w, h)
    ensures q.vel == p.vel && q.radius == p.radius && q.phase == p.phase
    ensures InBox(p.pos, w, h) ==> q == p
  {
    p.(pos := Vec(WrapAxis(p.pos.x, w), WrapAxis(p.pos.y, h)))
  }

  lemma WrapIdempotent(p: Particle, w: int, h: int)
    requires 0 <= w && 0 <= h
    ensures Wrap(Wrap(p, w, h), w, h) == Wrap(p, w, h)
  {
  }

  /** The pool after `for p in pool: p.update(dt, flow_t); wrap(p)`: as many
      particles as before, each inside the margin box and keeping its radius. */
  function Drift(ps: seq<Particle>, dt: real, flowT: real, m: Maths, w: int, h: int): (r: seq<Particle>)
    requires 0 <= w && 0 <= h
    ensures |r| == |ps|
    ensures forall i :: 0 <= i < |r| ==> InBox(r[i].pos, w, h) && r[i].radius == ps[i].radius
  {
    seq(|ps|, i requires 0 <= i < |ps| => Wrap(ps[i].Update(dt, flowT, m), w, h))
  }

  /** With the clamped frame delta, drifting keeps every speed within 20 per
      axis. */
  lemma DriftKeepsSpeeds(ps: seq<Particle>, dt: real, flowT: real, m: Maths, w: int, h: int)
    requires 0 <= w && 0 <= h
    requires Lawful(m) && 0.0 <= dt <= 1.0 / 30.0 && SpeedsBounded(ps)
    ensures SpeedsBounded(Drift(ps, dt, flowT, m, w, h))
  {
    var r := Drift(ps, dt, flowT, m, w, h);
    forall i | 0 <= i < |ps|
      ensures -SpeedBound <= r[i].vel.x <= SpeedBound && -SpeedBound <= r[i].vel.y <= SpeedBound
    {
      UpdateKeepsSpeedBound(ps[i], dt, flowT, m);
    }
  }

  ghost predicate SpeedsBounded(ps: seq<Particle>)
  {
    forall i :: 0 <= i < |ps| ==> -SpeedBound <= ps[i].vel.x <= SpeedBound && -SpeedBound <= ps[i].vel.y <= SpeedBound
  }

  // ---------------------------------------------------------------------
  // Collisions

  /** The food test `p.pos.distance_to(ppos) < p.radius + pr * 0.8`. */
  predicate Eats(m: Maths, p: Particle, ppos: Vec, pr: real)
  {
    m.distance(p.pos, ppos) < p.radius + pr * 0.8
  }

  /** The hazard test `p.pos.distance_to(ppos) < p.radius - pr * 0.5`. */
  predicate Stings(m: Maths, p: Particle, ppos: Vec, pr: real)
  {
    m.distance(p.pos, ppos) < p.radius - pr * 0.5
  }

  function EatenBy(m: Maths, ppos: Vec, pr: real): Particle -> bool
  {
    p => Eats(m, p, ppos, pr)
  }

  function SparedBy(m: Maths, ppos: Vec, pr: real): Particle -> bool
  {
    p => !Eats(m, p, ppos, pr)
  }

  /** The test of `[p for p in food if p not in ate]` (dataclass equality). */
  function NotIn(ate: seq<Particle>): Particle -> bool
  {
    p => p !in ate
  }

  /** The orb radius and the session score. */
  datatype Growth = Growth(radius: real, score: real)

  /** The eating loop over `food`, from growth `g`: each particle within reach
      of the start-of-frame radius `pr` grows the orb by 15% of its radius and
      lifts the score to at least the new radius. */
  function Feed(m: Maths, food: seq<Particle>, ppos: Vec, pr: real, g: Growth): Growth
  {
    if food == [] then g
    else
      var before := Feed(m, food[..|food| - 1], ppos, pr, g);
      var p := food[|food| - 1];
      if Eats(m, p, ppos, pr) then
        var r := Grown(before.radius, p.radius * 0.15);
        Growth(r, Max(before.score, r))
      else before
  }

  /** The hazard loop: each hazard within reach (its radius less half the
      start-of-frame radius `pr`) applies shrink((its radius - pr) * 0.12). */
  function Sting(m: Maths, hazard: seq<Particle>, ppos: Vec, pr: real, radius: real): real
  {
    if hazard == [] then radius
    else
      var before := Sting(m, hazard[..|hazard| - 1], ppos, pr, radius);
      var p := hazard[|hazard| - 1];
      if Stings(m, p, ppos, pr) then Shrunk(before, (p.radius - pr) * 0.12) else before
  }

  /** One more particle of the loop. */
  lemma FeedStep(m: Maths, food: seq<Particle>, i: int, ppos: Vec, pr: real, g: Growth)
    requires 0 <= i < |food|
    ensures var before := Feed(m, food[..i], ppos, pr, g);
      Feed(m, food[..i + 1], ppos, pr, g) ==
        if Eats(m, food[i], ppos, pr) then
          Growth(Grown(before.radius, food[i].radius * 0.15),
                 Max(before.score, Grown(before.radius, food[i].radius * 0.15)))
        else before
  {
    assert food[..i + 1][..i] == food[..i];
  }

  /** Eating never lowers the score; once anything is eaten, the score is at
      least the radius; with a radius in [6, 240] and non-negative food radii
      the radius only grows and stays in [6, 240]. */
  lemma {:induction false} FeedFacts(m: Maths, food: seq<Particle>, ppos: Vec, pr: real, g: Growth)
    ensures Feed(m, food, ppos, pr, g).score >= g.score
    ensures (exists p :: p in food && Eats(m, p, ppos, pr)) ==>
              Feed(m, food, ppos, pr, g).score >= Feed(m, food, ppos, pr, g).radius
    ensures (exists p :: p in food && Eats(m, p, ppos, pr)) || Feed(m, food, ppos, pr, g) == g
    ensures MinRadius <= g.radius <= MaxRadius && (forall p :: p in food ==> p.radius >= 0.0) ==>
              g.radius <= Feed(m, food, ppos, pr, g).radius <= MaxRadius
  {
    if food != [] {
      var init, p := food[..|food| - 1], food[|food| - 1];
      assert food == init + [p];
      FeedFacts(m, init, ppos, pr, g);
      if MinRadius <= g.radius <= MaxRadius && (forall q :: q in food ==> q.radius >= 0.0) {
        assert forall q :: q in init ==> q in food;
      }
    }
  }

  /** The hazard loop never takes the radius below 6 once it is at least 6,
      and when every hazard is at least as large as the start-of-frame orb,
      it never grows the orb. */
  lemma {:induction false} StingFacts(m: Maths, hazard: seq<Particle>, ppos: Vec, pr: real, radius: real)
    ensures radius >= MinRadius ==> Sting(m, hazard, ppos, pr, radius) >= MinRadius
    ensures (forall p :: p in hazard ==> p.radius >= pr) ==> Sting(m, hazard, ppos, pr, radius) <= Max(radius, MinRadius)
  {
    if hazard != [] {
      var init, p := hazard[..|hazard| - 1], hazard[|hazard| - 1];
      assert hazard == init + [p];
      StingFacts(m, init, ppos, pr, radius);
      if forall q :: q in hazard ==> q.radius >= pr {
        assert forall q :: q in init ==> q in hazard;
      }
    }
  }

  /** A hazard smaller than the orb but larger than half of it still "hits",
      and then shrink receives a negative amount: an orb of radius 239 five
      units from a hazard of radius 200 ends at 243.68, past the 240 cap. */
  lemma HazardCanGrowOrbPastCap(m: Maths)
    requires Lawful(m)
    ensures var p := Particle(Vec(3.0, 4.0), Zero, 200.0, 0.0);
      && Stings(m, p, Zero, 239.0)
      && Sting(m, [p], Zero, 239.0, 239.0) == 243.68
      && Sting(m, [p], Zero, 239.0, 239.0) > MaxRadius
  {
    var p := Particle(Vec(3.0, 4.0), Zero, 200.0, 0.0);
    DistanceOf(m, Vec(3.0, 4.0), Zero, 5.0);
    assert [p][..0] == [];
  }

  /** A hazard of radius 50 five units from an orb of radius 20 shrinks it
      by (50 - 20) * 0.12 = 3.6, to 16.4; at distance 50 it is out of reach. */
  lemma HazardShrinkExample(m: Maths)
    requires Lawful(m)
    ensures Sting(m, [Particle(Vec(3.0, 4.0), Zero, 50.0, 0.0)], Zero, 20.0, 20.0) == 16.4
    ensures Sting(m, [Particle(Vec(30.0, 40.0), Zero, 50.0, 0.0)], Zero, 20.0, 20.0) == 20.0
  {
    DistanceOf(m, Vec(3.0, 4.0), Zero, 5.0);
    DistanceOf(m, Vec(30.0, 40.0), Zero, 50.0);
    assert [Particle(Vec(3.0, 4.0), Zero, 50.0, 0.0)][..0] == [];
    assert [Particle(Vec(30.0, 40.0), Zero, 50.0, 0.0)][..0] == [];
  }

  /** An orb of radius 95 eating a food particle of radius 40 fifty units
      away (reach 40 + 76) grows by 6 to 101, and its score becomes 101. */
  lemma EatExample(m: Maths)
    requires Lawful(m)
    ensures var p := Particle(Vec(30.0, 40.0), Zero, 40.0, 0.0);
      Feed(m, [p], Zero, 95.0, Growth(95.0, 95.0)) == Growth(101.0, 101.0)
  {
    var p := Particle(Vec(30.0, 40.0), Zero, 40.0, 0.0);
    DistanceOf(m, Vec(30.0, 40.0), Zero, 50.0);
    assert [p][..0] == [];
  }

  // ---------------------------------------------------------------------
  // The state and the frame

  datatype CoreState = CoreState(
    time: real, flowT: real, spawnTimer: real, paused: bool, score: real,
    player: OrbState, food: seq<Particle>, hazard: seq<Particle>, waves: seq<Wave>,
    save: SaveData)

  /** The radius at which a wave is dropped: 1.2 * max(w, h). */
  function WaveLimit(w: int, h: int): real
  {
    (if w >= h then w else h) as real * 1.2
  }

  /** What every reachable state satisfies: bounded trail, radius at least 6,
      pools within 121 food and 18 hazards, food radii at least 3, every
      particle inside the margin box, every wave below the pruning radius. */
  ghost predicate Good(s: CoreState, w: int, h: int)
  {
    && 0 < w && 0 < h
    && |s.player.trail| <= TrailMax
    && s.player.radius >= MinRadius
    && |s.food| <= FoodBound && |s.hazard| <= HazardCap
    && (forall i :: 0 <= i < |s.food| ==> s.food[i].radius >= 3.0 && InBox(s.food[i].pos, w, h))
    && (forall i :: 0 <= i < |s.hazard| ==> InBox(s.hazard[i].pos, w, h))
    && (forall i :: 0 <= i < |s.waves| ==> s.waves[i].radius < WaveLimit(w, h))
  }

  /** GameCore.reset with random() = `roll` and the loaded record `loaded`:
      clock and pools cleared, a new orb at the centre, one more session. */
  function Restarted(w: int, h: int, roll: real, loaded: SaveData): CoreState
  {
    CoreState(0.0, roll * 10.0, 0.0, false, 0.0,
              NewOrb(Vec(w as real / 2.0, h as real / 2.0)), [], [], [],
              loaded.(sessions := loaded.sessions + 1))
  }

  /** A fresh session satisfies the invariant. */
  lemma RestartedGood(w: int, h: int, roll: real, loaded: SaveData)
    requires 0 < w && 0 < h
    ensures Good(Restarted(w, h, roll, loaded), w, h)
  {
  }

  /** GameCore.end_session: best size becomes the larger of itself and the radius. */
  function Ended(s: CoreState): (e: CoreState)
    ensures e.save.bestSize >= s.save.bestSize && e.save.bestSize >= s.player.radius
    ensures e.save.bestSize == s.save.bestSize || e.save.bestSize == s.player.radius
    ensures e == s.(save := e.save) && e.save == s.save.(bestSize := e.save.bestSize)
  {
    s.(save := s.save.(bestSize := Max(s.save.bestSize, s.player.radius)))
  }

  /** Clock, flow phase and spawn timer advance; the orb follows the cursor. */
  function Advanced(s: CoreState, dt: real, cursor: Vec, m: Maths): CoreState
    requires |s.player.trail| <= TrailMax
  {
    s.(time := s.time + dt, flowT := s.flowT + dt * 0.2, spawnTimer := s.spawnTimer + dt,
       player := Moved(s.player, dt, cursor, m))
  }

  /** Once more than 0.15 s have accumulated, spawn and restart the timer. */
  function Spawned(s: CoreState, ds: SpawnDraws, w: int, h: int): CoreState
    requires DrawsFit(ds, w, h)
  {
    if s.spawnTimer > SpawnInterval then
      s.(food := FoodSpawned(s.food, s.player.radius, ds),
         hazard := HazardSpawned(s.hazard, s.player.radius, ds),
         spawnTimer := 0.0)
    else s
  }

  /** Food drifts with the flow phase, hazards with 0.7 of it. */
  function Drifted(s: CoreState, dt: real, m: Maths, w: int, h: int): CoreState
    requires 0 <= w && 0 <= h
  {
    s.(food := Drift(s.food, dt, s.flowT, m, w, h), hazard := Drift(s.hazard, dt, s.flowT * 0.7, m, w, h))
  }

  /** The eating loop's effect: the orb grows, the score follows, and the
      food within reach leaves the pool. */
  function Eaten(m: Maths, s: CoreState): CoreState
  {
    var g := Feed(m, s.food, s.player.pos, s.player.radius, Growth(s.player.radius, s.score));
    s.(player := s.player.(radius := g.radius), score := g.score,
       food := Filter(s.food, SparedBy(m, s.player.pos, s.player.radius)))
  }

  /** The hazard loop's effect, tested against position `ppos` and radius `pr`. */
  function Stung(m: Maths, s: CoreState, ppos: Vec, pr: real): CoreState
  {
    s.(player := s.player.(radius := Sting(m, s.hazard, ppos, pr, s.player.radius)))
  }

  /** Eating, then hazards, both against the radius and position the orb
      had before eating. */
  function Collided(m: Maths, s: CoreState): CoreState
  {
    Stung(m, Eaten(m, s), s.player.pos, s.player.radius)
  }

  /** Whether this frame unlocks the one-time achievement. */
  predicate Unlocks(s: CoreState)
  {
    s.player.radius >= GleamRadius && Gleam !in s.save.achievements
  }

  function Unlocked(s: CoreState): CoreState
  {
    if Unlocks(s) then s.(save := s.save.(achievements := s.save.achievements + [Gleam])) else s
  }

  /** Every wave grows by 180 * dt: each keeps its origin, none shrinks for
      a non-negative step, and all grow alike, so the gaps between their radii
      are kept. */
  function Swell(ws: seq<Wave>, dt: real): (r: seq<Wave>)
    ensures |r| == |ws|
    ensures forall i :: 0 <= i < |ws| ==> r[i].origin == ws[i].origin
    ensures 0.0 <= dt ==> forall i :: 0 <= i < |ws| ==> r[i].radius >= ws[i].radius
    ensures forall i, j :: 0 <= i < |ws| && 0 <= j < |ws| ==>
              r[i].radius - r[j].radius == ws[i].radius - ws[j].radius
  {
    seq(|ws|, i requires 0 <= i < |ws| => ws[i].(radius := ws[i].radius + dt * WaveSpeed))
  }

  function Small(limit: real): Wave -> bool
  {
    (wv: Wave) => wv.radius < limit
  }

  /** Waves grow, then those that reached 1.2 * max(w, h) are dropped. */
  function Expanded(s: CoreState, dt: real, w: int, h: int): CoreState
  {
    s.(waves := Filter(Swell(s.waves, dt), Small(WaveLimit(w, h))))
  }

  /** GameCore.update(dt): nothing while paused; otherwise the phases in order. */
  function Step(s: CoreState, dt: real, cursor: Vec, ds: SpawnDraws, m: Maths, w: int, h: int): CoreState
    requires |s.player.trail| <= TrailMax && 0 <= w && 0 <= h && DrawsFit(ds, w, h)
  {
    if s.paused then s
    else Expanded(Unlocked(Collided(m, Drifted(Spawned(Advanced(s, dt, cursor, m), ds, w, h), dt, m, w, h))), dt, w, h)
  }

  // ---------------------------------------------------------------------
  // Properties of the frame

  /** Every frame keeps the invariant. */
  lemma StepKeepsGood(s: CoreState, dt: real, cursor: Vec, ds: SpawnDraws, m: Maths, w: int, h: int)
    requires Good(s, w, h) && DrawsFit(ds, w, h)
    ensures Good(Step(s, dt, cursor, ds, m, w, h), w, h)
  {
    if !s.paused {
      var s1 := Advanced(s, dt, cursor, m);
      assert Good(s1, w, h);
      var s2 := Spawned(s1, ds, w, h);
      SpawnedKeepsGood(s1, ds, w, h);
      var s3 := Drifted(s2, dt, m, w, h);
      DriftedKeepsGood(s2, dt, m, w, h);
      var s4 := Collided(m, s3);
      CollidedKeepsGood(m, s3, w, h);
      var s5 := Unlocked(s4);
      assert Good(s5, w, h);
      ExpandedKeepsGood(s5, dt, w, h);
    }
  }

  lemma DriftedKeepsGood(s: CoreState, dt: real, m: Maths, w: int, h: int)
    requires Good(s, w, h)
    ensures Good(Drifted(s, dt, m, w, h), w, h)
  {
  }

  lemma SpawnedKeepsGood(s: CoreState, ds: SpawnDraws, w: int, h: int)
    requires Good(s, w, h) && DrawsFit(ds, w, h)
    ensures Good(Spawned(s, ds, w, h), w, h)
  {
    var s2 := Spawned(s, ds, w, h);
    if s.spawnTimer > SpawnInterval {
      SpawnBounds(s.food, s.hazard, s.player.radius, ds, w, h);
      forall i | 0 <= i < |s2.food|
        ensures s2.food[i].radius >= 3.0 && InBox(s2.food[i].pos, w, h)
      {
        if i >= |s.food| {
          var d := ds.food[i - |s.food|];
          assert s2.food[i] == FoodParticle(d, s.player.radius);
        }
      }
      forall i | 0 <= i < |s2.hazard|
        ensures InBox(s2.hazard[i].pos, w, h)
      {
        if i >= |s.hazard| {
          assert s2.hazard[i] == HazardParticle(ds.hazard, s.player.radius);
        }
      }
    }
  }

  lemma CollidedKeepsGood(m: Maths, s: CoreState, w: int, h: int)
    requires Good(s, w, h)
    ensures Good(Collided(m, s), w, h)
  {
    var pr, ppos := s.player.radius, s.player.pos;
    var g := Feed(m, s.food, ppos, pr, Growth(pr, s.score));
    forall p | p in s.food ensures p.radius >= 0.0 {
      var i :| 0 <= i < |s.food| && s.food[i] == p;
    }
    if pr <= MaxRadius {
      FeedFacts(m, s.food, ppos, pr, Growth(pr, s.score));
    } else {
      FeedKeepsFloor(m, s.food, ppos, pr, Growth(pr, s.score));
    }
    StingFacts(m, s.hazard, ppos, pr, g.radius);
    var kept := Filter(s.food, SparedBy(m, ppos, pr));
    forall i | 0 <= i < |kept|
      ensures kept[i].radius >= 3.0 && InBox(kept[i].pos, w, h)
    {
      assert kept[i] in s.food;
    }
  }

  /** Eating from a radius already at least 6 never takes it below 6. */
  lemma {:induction false} FeedKeepsFloor(m: Maths, food: seq<Particle>, ppos: Vec, pr: real, g: Growth)
    requires g.radius >= MinRadius && forall p :: p in food ==> p.radius >= 0.0
    ensures Feed(m, food, ppos, pr, g).radius >= MinRadius
  {
    if food != [] {
      var init := food[..|food| - 1];
      assert forall q :: q in init ==> q in food;
      FeedKeepsFloor(m, init, ppos, pr, g);
    }
  }

  lemma ExpandedKeepsGood(s: CoreState, dt: real, w: int, h: int)
    requires Good(s.(waves := []), w, h)
    ensures Good(Expanded(s, dt, w, h), w, h)
  {
    var r := Expanded(s, dt, w, h).waves;
    forall i | 0 <= i < |r| ensures r[i].radius < WaveLimit(w, h) {
      assert r[i] in r;
    }
  }

  /** With a lawful flow field and a step of at most 1/30 s, a frame keeps
      every particle's speed within 20 per axis. */
  lemma StepKeepsSpeeds(s: CoreState, dt: real, cursor: Vec, ds: SpawnDraws, m: Maths, w: int, h: int)
    requires Lawful(m) && 0.0 <= dt <= 1.0 / 30.0
    requires |s.player.trail| <= TrailMax && 0 <= w && 0 <= h && DrawsFit(ds, w, h)
    requires SpeedsBounded(s.food) && SpeedsBounded(s.hazard)
    ensures var n := Step(s, dt, cursor, ds, m, w, h);
      SpeedsBounded(n.food) && SpeedsBounded(n.hazard)
  {
    if !s.paused {
      var s1 := Advanced(s, dt, cursor, m);
      var s2 := Spawned(s1, ds, w, h);
      SpawnedSpeeds(s1, ds, w, h);
      var s3 := Drifted(s2, dt, m, w, h);
      DriftedSpeeds(s2, dt, m, w, h);
      CollidedSpeeds(m, s3);
      var s4 := Collided(m, s3);
      assert Step(s, dt, cursor, ds, m, w, h) == Expanded(Unlocked(s4), dt, w, h);
    }
  }

  lemma DriftedSpeeds(s: CoreState, dt: real, m: Maths, w: int, h: int)
    requires Lawful(m) && 0.0 <= dt <= 1.0 / 30.0 && 0 <= w && 0 <= h
    requires SpeedsBounded(s.food) && SpeedsBounded(s.hazard)
    ensures var n := Drifted(s, dt, m, w, h);
      SpeedsBounded(n.food) && SpeedsBounded(n.hazard)
  {
    DriftKeepsSpeeds(s.food, dt, s.flowT, m, w, h);
    DriftKeepsSpeeds(s.hazard, dt, s.flowT * 0.7, m, w, h);
  }

  /** Spawned particles start within the speed bound. */
  lemma SpawnedSpeeds(s: CoreState, ds: SpawnDraws, w: int, h: int)
    requires DrawsFit(ds, w, h) && SpeedsBounded(s.food) && SpeedsBounded(s.hazard)
    ensures var n := Spawned(s, ds, w, h);
      SpeedsBounded(n.food) && SpeedsBounded(n.hazard)
  {
    var n := Spawned(s, ds, w, h);
    if s.spawnTimer > SpawnInterval {
      forall i | |s.food| <= i < |n.food|
        ensures -SpeedBound <= n.food[i].vel.x <= SpeedBound && -SpeedBound <= n.food[i].vel.y <= SpeedBound
      {
        assert n.food[i] == FoodParticle(ds.food[i - |s.food|], s.player.radius);
      }
    }
  }

  /** Eating only removes food, and hazards are untouched. */
  lemma CollidedSpeeds(m: Maths, s: CoreState)
    requires SpeedsBounded(s.food) && SpeedsBounded(s.hazard)
    ensures SpeedsBounded(Collided(m, s).food) && Collided(m, s).hazard == s.hazard
  {
    var kept := Collided(m, s).food;
    forall i | 0 <= i < |kept|
      ensures -SpeedBound <= kept[i].vel.x <= SpeedBound && -SpeedBound <= kept[i].vel.y <= SpeedBound
    {
      assert kept[i] in s.food;
    }
  }

  /** While paused, a frame changes nothing. */
  lemma PausedStepIsIdentity(s: CoreState, dt: real, cursor: Vec, ds: SpawnDraws, m: Maths, w: int, h: int)
    requires |s.player.trail| <= TrailMax && 0 <= w && 0 <= h && DrawsFit(ds, w, h)
    requires s.paused
    ensures Step(s, dt, cursor, ds, m, w, h) == s
  {
  }

  /** The food that disappears in a frame is exactly the food within reach of
      the orb as it stood before eating; what stays keeps its multiplicity
      and order. */
  lemma CollidedRemovesExactlyEaten(m: Maths, s: CoreState, p: Particle, a: seq<Particle>, b: seq<Particle>)
    ensures var ppos, pr := s.player.pos, s.player.radius;
      && (p in Collided(m, s).food <==> p in s.food && !Eats(m, p, ppos, pr))
      && multiset(Collided(m, s).food)[p] == (if Eats(m, p, ppos, pr) then 0 else multiset(s.food)[p])
      && (s.food == a + b ==>
            Collided(m, s).food == Filter(a, SparedBy(m, ppos, pr)) + Filter(b, SparedBy(m, ppos, pr)))
  {
    var ppos, pr := s.player.pos, s.player.radius;
    FilterMembership(s.food, SparedBy(m, ppos, pr), p);
    FilterCount(s.food, SparedBy(m, ppos, pr), p);
    FilterConcat(a, b, SparedBy(m, ppos, pr));
  }

  /** The session score never decreases in a frame. */
  lemma StepScore(s: CoreState, dt: real, cursor: Vec, ds: SpawnDraws, m: Maths, w: int, h: int)
    requires |s.player.trail| <= TrailMax && 0 < w && 0 < h && DrawsFit(ds, w, h)
    ensures Step(s, dt, cursor, ds, m, w, h).score >= s.score
  {
    if !s.paused {
      var s3 := Drifted(Spawned(Advanced(s, dt, cursor, m), ds, w, h), dt, m, w, h);
      FeedFacts(m, s3.food, s3.player.pos, s3.player.radius, Growth(s3.player.radius, s3.score));
    }
  }

  /** A frame adds the achievement at most once: its count rises from 0 to 1
      exactly when the radius reaches 100, and never otherwise. */
  lemma StepGleamOnce(s: CoreState, dt: real, cursor: Vec, ds: SpawnDraws, m: Maths, w: int, h: int)
    requires |s.player.trail| <= TrailMax && 0 < w && 0 < h && DrawsFit(ds, w, h)
    ensures var n := Step(s, dt, cursor, ds, m, w, h);
      && multiset(n.save.achievements)[Gleam] ==
           (if !s.paused && n.player.radius >= GleamRadius && multiset(s.save.achievements)[Gleam] == 0
            then 1 else multiset(s.save.achievements)[Gleam])
      && n.save.bestSize == s.save.bestSize && n.save.sessions == s.save.sessions
  {
  }

  /** After a relax-mode frame (hazards cleared first) at most one hazard exists. */
  lemma RelaxStepHazards(s: CoreState, dt: real, cursor: Vec, ds: SpawnDraws, m: Maths, w: int, h: int)
    requires |s.player.trail| <= TrailMax && 0 < w && 0 < h && DrawsFit(ds, w, h)
    ensures |Step(s.(hazard := []), dt, cursor, ds, m, w, h).hazard| <= 1
  {
  }

  /** A wave survives a frame exactly when its grown radius is below
      1.2 * max(w, h); the survivors keep their order. */
  lemma StepWaves(s: CoreState, dt: real, cursor: Vec, ds: SpawnDraws, m: Maths, w: int, h: int, wv: Wave)
    requires |s.player.trail| <= TrailMax && 0 < w && 0 < h && DrawsFit(ds, w, h) && !s.paused
    ensures Step(s, dt, cursor, ds, m, w, h).waves == Filter(Swell(s.waves, dt), Small(WaveLimit(w, h)))
    ensures wv in Step(s, dt, cursor, ds, m, w, h).waves <==>
              wv in Swell(s.waves, dt) && wv.radius < WaveLimit(w, h)
  {
    FilterMembership(Swell(s.waves, dt), Small(WaveLimit(w, h)), wv);
  }

  // ---------------------------------------------------------------------
  // The object

  class GameCore {
    const w: int
    const h: int
    const sound: SoundManager
    const store: SaveStore

    var time: real
    var flowT: real
    var spawnTimer: real
    var paused: bool
    var sessionScore: real
    var player: Orb
    var food: seq<Particle>
    var hazard: seq<Particle>
    var waves: seq<Wave>
    var save: SaveData

    ghost function State(): CoreState
      reads this, player
    {
      CoreState(time, flowT, spawnTimer, paused, sessionScore, player.State(), food, hazard, waves, save)
    }

    ghost predicate Valid()
      reads this, player
    {
      player.Valid() && Good(State(), w, h)
    }

    /** GameCore.__init__ on a w x h screen: the sound manager, then reset. */
    constructor (w: int, h: int, mixerReady: bool, store: SaveStore, roll: real, o: Outcome)
      requires 0 < w && 0 < h
      modifies store
      ensures Valid() && this.w == w && this.h == h && this.store == store
      ensures fresh(sound) && sound.enabled == mixerReady && fresh(player)
      ensures State() == Restarted(w, h, roll, Loaded(old(store.file)))
      ensures store.file == Written(old(store.file), o, save)
    {
      this.w, this.h := w, h;
      this.store := store;
      sound := new SoundManager(mixerReady);
      player := new Orb(Vec(0.0, 0.0));
      new;
      Reset(roll, o);
    }

    /** GameCore.reset, whose save has outcome `o`. */
    method Reset(roll: real, o: Outcome)
      requires 0 < w && 0 < h
      modifies this, store
      ensures Valid() && fresh(player)
      ensures State() == Restarted(w, h, roll, Loaded(old(store.file)))
      ensures store.file == Written(old(store.file), o, save)
    {
      ghost var restarted := Restarted(w, h, roll, Loaded(store.file));
      RestartedGood(w, h, roll, Loaded(store.file));
      time := 0.0;
      flowT := roll * 10.0;
      player := new Orb(Vec(w as real / 2.0, h as real / 2.0));
      food := [];
      hazard := [];
      waves := [];
      spawnTimer := 0.0;
      paused := false;
      sessionScore := 0.0;
      var loaded := store.Load();
      save := loaded.(sessions := loaded.sessions + 1);
      assert State() == restarted;
      store.Save(save, o);
    }

    /** GameCore.toggle_pause */
    method TogglePause()
      requires Valid()
      modifies this
      ensures Valid() && player == old(player)
      ensures State() == old(State()).(paused := !old(paused))
    {
      paused := !paused;
    }

    /** GameCore.emit_wave: one new wave of radius 0 at `pos`. */
    method EmitWave(pos: Vec)
      requires Valid()
      modifies this
      ensures Valid() && player == old(player)
      ensures State() == old(State()).(waves := old(waves) + [Wave(pos, 0.0)])
    {
      waves := waves + [Wave(pos, 0.0)];
    }

    /** GameCore.spawn_particles: two food particles while fewer than 120
        exist, one hazard while fewer than 18. */
    method SpawnParticles(ds: SpawnDraws)
      requires DrawsFit(ds, w, h)
      modifies this
      ensures player == old(player)
      ensures State() == old(State()).(food := FoodSpawned(old(food), player.radius, ds),
                                       hazard := HazardSpawned(old(hazard), player.radius, ds))
    {
      var pr := player.radius;
      if |food| < FoodCap {
        var fs := food;
        for k := 0 to 2
          invariant fs == food + seq(k, j requires 0 <= j < k => FoodParticle(ds.food[j], pr))
        {
          fs := fs + [FoodParticle(ds.food[k], pr)];
        }
        food := fs;
      }
      if |hazard| < HazardCap {
        hazard := hazard + [HazardParticle(ds.hazard, pr)];
      }
    }

    /** The two particle loops of update: food drifts with the flow phase,
        hazards with 0.7 of it. */
    method DriftParticles(dt: real, m: Maths)
      requires 0 < w && 0 < h
      modifies this
      ensures player == old(player)
      ensures State() == Drifted(old(State()), dt, m, w, h)
    {
      food := DriftPool(food, dt, flowT, m);
      hazard := DriftPool(hazard, dt, flowT * 0.7, m);
    }

    /** One particle loop: `p.update(dt, flow_t)` then `wrap(p)` for each
        particle, in order. */
    method DriftPool(ps: seq<Particle>, dt: real, flowT: real, m: Maths) returns (r: seq<Particle>)
      requires 0 < w && 0 < h
      ensures r == Drift(ps, dt, flowT, m, w, h)
    {
      r := ps;
      var i := 0;
      while i < |r|
        invariant 0 <= i <= |r| == |ps|
        invariant forall j :: 0 <= j < i ==> r[j] == Wrap(ps[j].Update(dt, flowT, m), w, h)
        invariant forall j :: i <= j < |r| ==> r[j] == ps[j]
      {
        r := r[i := Wrap(r[i].Update(dt, flowT, m), w, h)];
        i := i + 1;
      }
    }

    /** The collision section of update: both loops test against the radius
        and position the orb had before eating. */
    method Collide(m: Maths)
      requires player.Valid()
      modifies this, player
      ensures player == old(player) && player.Valid()
      ensures State() == Collided(m, old(State()))
    {
      var pr := player.radius;
      var ppos := player.pos;
      EatFood(m);
      StingPlayer(m, ppos, pr);
    }

    /** The food section of update: grow on each particle within reach,
        then drop the eaten ones with `[p for p in food if p not in ate]`. */
    method EatFood(m: Maths)
      requires player.Valid()
      modifies this, player
      ensures player == old(player) && player.Valid()
      ensures State() == Eaten(m, old(State()))
    {
      var pr := player.radius;
      var ppos := player.pos;
      var score, ate := FeedLoop(m, food, ppos, pr, sessionScore);
      UneatenIsSpared(m, food, ate, ppos, pr);
      sessionScore := score;
      food := Filter(food, NotIn(ate));
    }

    /** The food loop itself: for each particle of `fs` within reach of
        `ppos` and `pr`, record it, grow the orb by 15% of its radius and
        lift the score. */
    method FeedLoop(m: Maths, fs: seq<Particle>, ppos: Vec, pr: real, score0: real)
      returns (score: real, ate: seq<Particle>)
      requires player.Valid()
      modifies player
      ensures player.Valid()
      ensures Growth(player.radius, score) == Feed(m, fs, ppos, pr, Growth(old(player.radius), score0))
      ensures ate == Filter(fs, EatenBy(m, ppos, pr))
      ensures player.State() == old(player.State()).(radius := player.radius)
    {
      ghost var g0 := Growth(player.radius, score0);
      score := score0;
      ate := [];
      var i := 0;
      while i < |fs|
        invariant 0 <= i <= |fs|
        invariant player.Valid()
        invariant Growth(player.radius, score) == Feed(m, fs[..i], ppos, pr, g0)
        invariant ate == Filter(fs[..i], EatenBy(m, ppos, pr))
        invariant player.State() == old(player.State()).(radius := player.radius)
      {
        var p := fs[i];
        FeedStep(m, fs, i, ppos, pr, g0);
        FilterStep(fs, i, EatenBy(m, ppos, pr));
        if Eats(m, p, ppos, pr) {
          ate := ate + [p];
          player.Grow(p.radius * 0.15);
          score := Max(score, player.radius);
        }
        i := i + 1;
      }
      assert fs[..|fs|] == fs;
    }

    /** The hazard loop, against the start-of-frame position and radius. */
    method StingPlayer(m: Maths, ppos: Vec, pr: real)
      requires player.Valid()
      modifies player
      ensures player.Valid()
      ensures State() == Stung(m, old(State()), ppos, pr)
    {
      ghost var start := player.radius;
      var i := 0;
      while i < |hazard|
        invariant 0 <= i <= |hazard|
        invariant player.Valid()
        invariant player.radius == Sting(m, hazard[..i], ppos, pr, start)
        invariant player.State() == old(player.State()).(radius := player.radius)
      {
        var p := hazard[i];
        assert hazard[..i + 1][..i] == hazard[..i];
        if Stings(m, p, ppos, pr) {
          player.Shrink((p.radius - pr) * 0.12);
        }
        i := i + 1;
      }
      assert hazard[..|hazard|] == hazard;
    }

    /** The achievement section of update: unlock once, saving only then,
        with outcome `o`. */
    method UnlockAchievement(o: Outcome)
      modifies this, store
      ensures player == old(player)
      ensures State() == Unlocked(old(State()))
      ensures store.file == if Unlocks(old(State())) then Written(old(store.file), o, save)
                            else old(store.file)
    {
      if player.radius >= GleamRadius && Gleam !in save.achievements {
        save := save.(achievements := save.achievements + [Gleam]);
        store.Save(save, o);
      }
    }

    /** The wave section of update: grow each wave, then prune the large ones. */
    method ExpandWaves(dt: real)
      modifies this
      ensures player == old(player)
      ensures State() == Expanded(old(State()), dt, w, h)
    {
      var ws := waves;
      var i := 0;
      while i < |ws|
        invariant 0 <= i <= |ws| == |waves|
        invariant forall j :: 0 <= j < i ==> ws[j] == waves[j].(radius := waves[j].radius + dt * WaveSpeed)
        invariant forall j :: i <= j < |ws| ==> ws[j] == waves[j]
      {
        ws := ws[i := ws[i].(radius := ws[i].radius + dt * WaveSpeed)];
        i := i + 1;
      }
      assert ws == Swell(waves, dt);
      waves := Filter(ws, Small(WaveLimit(w, h)));
    }

    /** The clock section of update and the orb's move towards the cursor. */
    method Advance(dt: real, cursor: Vec, m: Maths)
      requires player.Valid()
      modifies this, player
      ensures player == old(player) && player.Valid()
      ensures State() == Advanced(old(State()), dt, cursor, m)
    {
      time := time + dt;
      flowT := flowT + dt * 0.2;
      spawnTimer := spawnTimer + dt;
      player.Update(dt, cursor, m);
    }

    /** The spawn section of update: once more than 0.15 s have accumulated,
        spawn and restart the timer. */
    method SpawnWhenDue(ds: SpawnDraws)
      requires DrawsFit(ds, w, h)
      modifies this
      ensures player == old(player)
      ensures State() == Spawned(old(State()), ds, w, h)
    {
      if spawnTimer > SpawnInterval {
        SpawnParticles(ds);
        spawnTimer := 0.0;
      }
    }

    /** GameCore.update(dt) with the cursor position, the frame's random draws,
        exp/sin/cos and the outcome `o` of the achievement's save given. */
    method Update(dt: real, cursor: Vec, ds: SpawnDraws, m: Maths, o: Outcome)
      requires Valid() && DrawsFit(ds, w, h)
      modifies this, player, store
      ensures Valid() && player == old(player)
      ensures State() == Step(old(State()), dt, cursor, ds, m, w, h)
      ensures old(paused) ==> State() == old(State()) && store.file == old(store.file)
      ensures store.file ==
        if !old(paused) && player.radius >= GleamRadius && Gleam !in old(save).achievements
        then Written(old(store.file), o, save) else old(store.file)
    {
      if paused {
        return;
      }
      ghost var s0 := State();
      Advance(dt, cursor, m);
      SpawnWhenDue(ds);
      DriftParticles(dt, m);
      Collide(m);
      UnlockAchievement(o);
      ExpandWaves(dt);
      StepKeepsGood(s0, dt, cursor, ds, m, w, h);
    }

    /** GameCore.end_session: record the best size and save with outcome `o`. */
    method EndSession(o: Outcome)
      requires Valid()
      modifies this, store
      ensures Valid() && player == old(player)
      ensures State() == Ended(old(State()))
      ensures store.file == Written(old(store.file), o, save)
    {
      save := save.(bestSize := Max(save.bestSize, player.radius));
      store.Save(save, o);
    }
  }

  /** Filtering by `p not in ate` equals filtering by "not eaten" when `ate`
      is the eaten food (dataclass equality makes the two tests agree). */
  lemma UneatenIsSpared(m: Maths, food: seq<Particle>, ate: seq<Particle>, ppos: Vec, pr: real)
    requires ate == Filter(food, EatenBy(m, ppos, pr))
    ensures Filter(food, NotIn(ate)) == Filter(food, SparedBy(m, ppos, pr))
  {
    forall i | 0 <= i < |food| ensures NotIn(ate)(food[i]) == SparedBy(m, ppos, pr)(food[i]) {
      FilterMembership(food, EatenBy(m, ppos, pr), food[i]);
    }
    FilterCongruent(food, NotIn(ate), SparedBy(m, ppos, pr));
  }
}
