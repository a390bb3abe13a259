/**
 * The ambient particle canvas of src/components/ParticleBackground.jsx: the
 * activation gate, the particle count, the per-particle motion with edge
 * wrap, the bounded pairwise connection scan and the frame throttle.
 * `Math.random()` draws and animation-frame timestamps are parameters; the
 * canvas drawing calls are left out, and the connection lines drawn are
 * returned as a list.
 */
module Particles {
  import opened Wrappers
  import opened Capability

  /** The six `Math.random()` draws a new particle consumes. */
  datatype Seed = Seed(rx: real, ry: real, rvx: real, rvy: real, rr: real, ro: real)

  /** `Math.random()` returns a value in [0, 1). */
  predicate Unit(r: real)
  {
    0.0 <= r < 1.0
  }

  predicate ValidSeed(s: Seed)
  {
    Unit(s.rx) && Unit(s.ry) && Unit(s.rvx) && Unit(s.rvy) && Unit(s.rr) && Unit(s.ro)
  }

  /** Position and velocity of one particle. */
  datatype Motion = Motion(x: real, y: real, vx: real, vy: real)

  /** Where a fresh particle starts on a `width` by `height` canvas: anywhere on
      the canvas, with each velocity component in [-0.25, 0.25). */
  function Spawn(seed: Seed, width: nat, height: nat): (m: Motion)
    requires ValidSeed(seed)
    ensures 0.0 <= m.x <= width as real && 0.0 <= m.y <= height as real
    ensures -0.25 <= m.vx < 0.25 && -0.25 <= m.vy < 0.25
  {
    assert 0.0 <= seed.rx * width as real <= width as real by { ScaleWithinBound(seed.rx, width as real); }
    assert 0.0 <= seed.ry * height as real <= height as real by { ScaleWithinBound(seed.ry, height as real); }
    Motion(seed.rx * width as real, seed.ry * height as real,
           (seed.rvx - 0.5) * 0.5, (seed.rvy - 0.5) * 0.5)
  }

  lemma ScaleWithinBound(r: real, bound: real)
    requires Unit(r) && bound >= 0.0
    ensures 0.0 <= r * bound <= bound
  {
    assert r * bound <= 1.0 * bound;
  }

  /** The edge wrap of `update` on one axis: a coordinate that left the canvas
      below reappears at the far edge, one that left it above reappears at 0,
      and one still on the canvas is kept. */
  function Wrap(p: real, bound: real): (r: real)
    requires bound >= 0.0
    ensures 0.0 <= r <= bound
    ensures p < 0.0 ==> r == bound
    ensures p > bound ==> r == 0.0
    ensures 0.0 <= p <= bound ==> r == p
  {
    var afterLow := if p < 0.0 then bound else p;
    if afterLow > bound then 0.0 else afterLow
  }

  /** `Particle.update` on a canvas of the given size. */
  function Move(m: Motion, width: nat, height: nat): (r: Motion)
    ensures 0.0 <= r.x <= width as real && 0.0 <= r.y <= height as real
    ensures r.vx == m.vx && r.vy == m.vy
    ensures 0.0 <= m.x + m.vx <= width as real && 0.0 <= m.y + m.vy <= height as real ==>
              r.x == m.x + m.vx && r.y == m.y + m.vy
  {
    Motion(Wrap(m.x + m.vx, width as real), Wrap(m.y + m.vy, height as real), m.vx, m.vy)
  }

  /** The particle count chosen by `initParticles`. */
  function ParticleCount(width: int, cores: Option<nat>): (n: nat)
    ensures n == 8 <==> IsMobile(width)
    ensures n == 15 <==> !IsMobile(width) && width < 1024
    ensures n == 12 <==> width >= 1024 && IsLowEnd(cores)
    ensures n == 30 <==> width >= 1024 && !IsLowEnd(cores)
  {
    var isMobile := IsMobile(width);
    var isTablet := width < 1024;
    if isMobile then 8
    else if isTablet then 15
    else if IsLowEnd(cores) then 12
    else 30
  }

  /** A low-end tablet gets the tablet count, not the low-end one. */
  lemma LowEndTabletGetsFifteen(cores: Option<nat>)
    requires IsLowEnd(cores)
    ensures ParticleCount(800, cores) == 15
  {
  }

  /** The minimum time between two redraws: 30 fps on a narrow viewport, 60 otherwise. */
  function FrameInterval(width: int): (dt: real)
    ensures dt > 0.0
    ensures 1000.0 / dt == if IsMobile(width) then 30.0 else 60.0
  {
    if IsMobile(width) then 1000.0 / 30.0 else 1000.0 / 60.0
  }

  /** `isMobile || navigator.hardwareConcurrency < 4`: here an undefined count
      compares false and is not low, but a count of 0 is low. */
  predicate ConnectionsSkipped(width: int, cores: Option<nat>)
  {
    IsMobile(width) || (cores.Some? && cores.value < 4)
  }

  /** `Math.min(particles.length, 15)`. */
  function MaxConnections(n: nat): (m: nat)
    ensures m <= 15 && m <= n
    ensures m == n || m == 15
  {
    if n < 15 then n else 15
  }

  /** The square of the proximity radius of 120 pixels. */
  const ProximitySquared: real := 14400.0

  /** One connection line: the two particle indices and their squared distance. */
  datatype Link = Link(i: nat, j: nat, dist2: real)

  function Sq(a: real): real
  {
    a * a
  }

  /** The squared distance `dx * dx + dy * dy` between particles `i` and `j`. */
  function Dist2(ms: seq<Motion>, i: nat, j: nat): real
    requires i < |ms| && j < |ms|
  {
    Sq(ms[i].x - ms[j].x) + Sq(ms[i].y - ms[j].y)
  }

  /** The number of pairs the scan over the first `m` particles examines in rows `0 .. i - 1`. */
  function PairsBefore(i: nat, m: nat): nat
    requires i <= m
  {
    if i == 0 then 0 else PairsBefore(i - 1, m) + (m - i)
  }

  /** The scan examines every pair `a < b < m` once: m(m-1)/2 pairs. */
  lemma {:induction false} PairsBeforeClosedForm(i: nat, m: nat)
    requires i <= m
    ensures 2 * PairsBefore(i, m) == i * (2 * m - i - 1)
  {
    if i > 0 {
      PairsBeforeClosedForm(i - 1, m);
      assert i * (2 * m - i - 1) == (i - 1) * (2 * m - (i - 1) - 1) + 2 * (m - i);
    }
  }

  lemma PairsTotal(m: nat)
    ensures PairsBefore(m, m) == m * (m - 1) / 2
  {
    PairsBeforeClosedForm(m, m);
  }

  /** Pair `a < b` has been examined by the scan over the first `m` particles
      once it has finished rows `0 .. i - 1` and, in row `i`, the partners
      `i + 1 .. j - 1`. */
  predicate Examined(m: nat, i: nat, j: nat, a: nat, b: nat)
  {
    a < b && ((a < i && b < m) || (a == i && b < j))
  }

  /** The lines the scan over the first `m` particles has drawn once it has
      finished rows `0 .. i - 1` and, in row `i`, the partners `i + 1 .. j - 1`.
      `Scan(ms, m, m, 0)` is the whole scan. */
  function Scan(ms: seq<Motion>, m: nat, i: nat, j: nat): seq<Link>
    requires i <= m <= |ms| && j <= m
    decreases i, j
  {
    if j > i + 1 then
      Scan(ms, m, i, j - 1) +
      (if Dist2(ms, i, j - 1) < ProximitySquared then [Link(i, j - 1, Dist2(ms, i, j - 1))] else [])
    else if i == 0 then []
    else Scan(ms, m, i - 1, m)
  }

  /** At every point of the scan, the lines drawn so far are exactly the
      examined pairs closer than 120, each with its squared distance. */
  lemma {:induction false} ScanExact(ms: seq<Motion>, m: nat, i: nat, j: nat, l: Link)
    requires i <= m <= |ms| && j <= m
    ensures l in Scan(ms, m, i, j) <==>
      Examined(m, i, j, l.i, l.j) && l.dist2 == Dist2(ms, l.i, l.j) && l.dist2 < ProximitySquared
    decreases i, j
  {
    if j > i + 1 {
      ScanExact(ms, m, i, j - 1, l);
    } else if i > 0 {
      ScanExact(ms, m, i - 1, m, l);
    }
  }

  /** The full scan draws exactly the pairs `a < b < m` closer than 120, each with its distance. */
  lemma LinksExact(ms: seq<Motion>, m: nat, l: Link)
    requires m <= |ms|
    ensures l in Scan(ms, m, m, 0) <==>
      l.i < l.j < m && l.dist2 == Dist2(ms, l.i, l.j) && l.dist2 < ProximitySquared
  {
    ScanExact(ms, m, m, 0, l);
  }

  /** Link `a` comes before link `b` in the scan: an earlier row, or the same
      row and an earlier partner. */
  predicate ScannedBefore(a: Link, b: Link)
  {
    a.i < b.i || (a.i == b.i && a.j < b.j)
  }

  /** The lines are listed in strict scan order, so no pair appears twice. */
  predicate InScanOrder(ls: seq<Link>)
  {
    forall p, q :: 0 <= p < q < |ls| ==> ScannedBefore(ls[p], ls[q])
  }

  /** The scan draws its lines row by row and partner by partner, so each
      pair at most once, and every line drawn so far lies before the current
      position. */
  lemma {:induction false} ScanInScanOrder(ms: seq<Motion>, m: nat, i: nat, j: nat)
    requires i <= m <= |ms| && j <= m
    ensures InScanOrder(Scan(ms, m, i, j))
    ensures forall p, q :: 0 <= p < q < |Scan(ms, m, i, j)| ==> Scan(ms, m, i, j)[p] != Scan(ms, m, i, j)[q]
    ensures forall l :: l in Scan(ms, m, i, j) ==> l.i < i || (l.i == i && l.j < j)
    decreases i, j
  {
    if j > i + 1 {
      ScanInScanOrder(ms, m, i, j - 1);
      var a, s := Scan(ms, m, i, j - 1), Scan(ms, m, i, j);
      if Dist2(ms, i, j - 1) < ProximitySquared {
        var x := Link(i, j - 1, Dist2(ms, i, j - 1));
        assert s == a + [x];
        forall p, q | 0 <= p < q < |s|
          ensures ScannedBefore(s[p], s[q])
        {
          if q < |a| {
            assert s[p] == a[p] && s[q] == a[q];
          } else {
            assert s[p] == a[p] && a[p] in a;
          }
        }
      } else {
        assert s == a;
      }
    } else if i > 0 {
      ScanInScanOrder(ms, m, i - 1, m);
    }
  }

  /** Deciding on the squared distance is the same as deciding `distance < 120`. */
  lemma SquaredDistanceTest(d: real)
    requires d >= 0.0
    ensures d < 120.0 <==> d * d < ProximitySquared
  {
    if d < 120.0 {
      assert d * d <= d * 120.0;
      assert d * 120.0 < 120.0 * 120.0;
    } else {
      assert d * d >= d * 120.0;
      assert d * 120.0 >= 120.0 * 120.0;
    }
  }

  /** `(120 - distance) / 120 * 0.15` for a drawn line. */
  function LineOpacity(d: real): (o: real)
    requires 0.0 <= d < 120.0
    ensures 0.0 < o <= 0.15
  {
    (120.0 - d) / 120.0 * 0.15
  }

  /** Line opacity falls linearly as the distance grows. */
  lemma LineOpacityFalls(d1: real, d2: real)
    requires 0.0 <= d1 < d2 < 120.0
    ensures LineOpacity(d2) < LineOpacity(d1)
    ensures LineOpacity(d1) - LineOpacity(d2) == (d2 - d1) / 120.0 * 0.15
  {
  }

  /** The environment read by the mount effect. */
  datatype Environment = Environment(
    innerWidth: nat,
    innerHeight: nat,
    hardwareConcurrency: Option<nat>,
    prefersReducedMotion: bool)

  /** The effect stops early, and the component renders null, on reduced motion
      or on a low-end narrow device. */
  predicate Disabled(env: Environment)
  {
    env.prefersReducedMotion || (IsLowEnd(env.hardwareConcurrency) && IsMobile(env.innerWidth))
  }

  /** A particle; `update` changes its position in place. */
  class Particle {
    var x: real
    var y: real
    var vx: real
    var vy: real
    var radius: real
    var opacity: real

    function State(): Motion
      reads this
    {
      Motion(x, y, vx, vy)
    }

    constructor (seed: Seed, width: nat, height: nat)
      requires ValidSeed(seed)
      ensures State() == Spawn(seed, width, height)
      ensures radius == seed.rr * 2.0 + 1.0 && 1.0 <= radius < 3.0
      ensures opacity == seed.ro * 0.5 + 0.2 && 0.2 <= opacity < 0.7
    {
      var m := Spawn(seed, width, height);
      x, y, vx, vy := m.x, m.y, m.vx, m.vy;
      radius := seed.rr * 2.0 + 1.0;
      opacity := seed.ro * 0.5 + 0.2;
    }

    method Update(width: nat, height: nat)
      modifies this`x, this`y
      ensures State() == Move(old(State()), width, height)
    {
      x := x + vx;
      y := y + vy;
      if x < 0.0 { x := width as real; }
      if x > width as real { x := 0.0; }
      if y < 0.0 { y := height as real; }
      if y > height as real { y := 0.0; }
    }
  }

  /** The states of a list of particles, in order. */
  ghost function StatesOf(ps: seq<Particle>): (r: seq<Motion>)
    reads ps
    ensures |r| == |ps|
    ensures forall k :: 0 <= k < |ps| ==> r[k] == ps[k].State()
  {
    if ps == [] then [] else StatesOf(ps[..|ps| - 1]) + [ps[|ps| - 1].State()]
  }

  /** One mounted `ParticleBackground` component. */
  class ParticleBackground {
    /** The `isVisible` state: false once the effect disabled itself. */
    var isVisible: bool
    /** The `reducedMotion` state. */
    var reducedMotion: bool
    /** `particlesRef.current`. */
    var particles: seq<Particle>
    var canvasWidth: nat
    var canvasHeight: nat
    /** `navigator.hardwareConcurrency`. */
    var cores: Option<nat>
    var lastTime: real
    var frameInterval: real
    /** Whether the resize listener is registered. */
    var resizeListening: bool
    /** Whether an animation frame is requested (`animationRef.current`). */
    var frameRequested: bool

    ghost predicate Valid()
      reads this
    {
      && (reducedMotion ==> !isVisible)
      && (forall i, j :: 0 <= i < j < |particles| ==> particles[i] != particles[j])
    }

    /** The state before the mount effect has run. */
    ghost predicate Initial()
      reads this
    {
      isVisible && !reducedMotion && particles == [] && !resizeListening && !frameRequested
    }

    /** The first render; a canvas element starts at 300 by 150. */
    constructor ()
      ensures Valid() && Initial()
    {
      isVisible, reducedMotion := true, false;
      particles := [];
      canvasWidth, canvasHeight := 300, 150;
      cores := None;
      lastTime, frameInterval := 0.0, 0.0;
      resizeListening, frameRequested := false, false;
    }

    /** What the component renders: null, or a canvas with the given opacity.
        Since reduced motion always hides the component, a rendered canvas has
        opacity 0.6. */
    function Render(): (canvasOpacity: Option<real>)
      requires Valid()
      reads this
      ensures canvasOpacity.Some? <==> isVisible
      ensures canvasOpacity.Some? ==> canvasOpacity.value == 0.6
    {
      if !isVisible then None else Some(if reducedMotion then 0.3 else 0.6)
    }

    /** The mount effect. */
    method Mount(env: Environment, seeds: seq<Seed>)
      requires Valid() && Initial()
      requires |seeds| >= ParticleCount(env.innerWidth, env.hardwareConcurrency)
      requires forall k :: 0 <= k < |seeds| ==> ValidSeed(seeds[k])
      modifies this
      ensures Valid()
      ensures reducedMotion == env.prefersReducedMotion && cores == env.hardwareConcurrency
      ensures isVisible == !Disabled(env)
      ensures Disabled(env) ==> particles == [] && !resizeListening && !frameRequested
      ensures !Disabled(env) ==>
        && canvasWidth == env.innerWidth && canvasHeight == env.innerHeight
        && resizeListening && frameRequested
        && lastTime == 0.0 && frameInterval == FrameInterval(env.innerWidth)
        && |particles| == ParticleCount(env.innerWidth, env.hardwareConcurrency)
        && (forall k :: 0 <= k < |particles| ==>
              fresh(particles[k]) && particles[k].State() == Spawn(seeds[k], canvasWidth, canvasHeight))
    {
      reducedMotion := env.prefersReducedMotion;
      cores := env.hardwareConcurrency;
      if env.prefersReducedMotion || (IsLowEnd(env.hardwareConcurrency) && IsMobile(env.innerWidth)) {
        isVisible := false;
        return;
      }
      canvasWidth, canvasHeight := env.innerWidth, env.innerHeight;
      resizeListening := true;
      InitParticles(env.innerWidth, seeds);
      lastTime := 0.0;
      frameInterval := FrameInterval(env.innerWidth);
      var redrew, lines, examined := Animate(None);
    }

    /** `initParticles`: empty the shared list, then push the computed number of new particles. */
    method InitParticles(innerWidth: int, seeds: seq<Seed>)
      requires |seeds| >= ParticleCount(innerWidth, cores)
      requires forall k :: 0 <= k < |seeds| ==> ValidSeed(seeds[k])
      modifies this`particles
      ensures |particles| == ParticleCount(innerWidth, cores)
      ensures forall i, j :: 0 <= i < j < |particles| ==> particles[i] != particles[j]
      ensures forall k :: 0 <= k < |particles| ==>
        fresh(particles[k]) && particles[k].State() == Spawn(seeds[k], canvasWidth, canvasHeight)
    {
      particles := [];
      var count := ParticleCount(innerWidth, cores);
      var i := 0;
      while i < count
        invariant 0 <= i <= count && |particles| == i
        invariant forall a, b :: 0 <= a < b < |particles| ==> particles[a] != particles[b]
        invariant forall k :: 0 <= k < i ==>
          fresh(particles[k]) && particles[k].State() == Spawn(seeds[k], canvasWidth, canvasHeight)
      {
        var p := new Particle(seeds[i], canvasWidth, canvasHeight);
        particles := particles + [p];
        i := i + 1;
      }
    }

    /** `particles.forEach(p => p.update())`. */
    method StepParticles()
      requires Valid()
      modifies particles
      ensures forall k :: 0 <= k < |particles| ==>
        particles[k].State() == Move(old(particles[k].State()), canvasWidth, canvasHeight)
      ensures forall k :: 0 <= k < |particles| ==>
        particles[k].radius == old(particles[k].radius) && particles[k].opacity == old(particles[k].opacity)
    {
      var i := 0;
      while i < |particles|
        invariant 0 <= i <= |particles|
        invariant forall k :: 0 <= k < i ==>
          particles[k].State() == Move(old(particles[k].State()), canvasWidth, canvasHeight)
        invariant forall k :: i <= k < |particles| ==> particles[k].State() == old(particles[k].State())
        invariant forall k :: 0 <= k < |particles| ==>
          particles[k].radius == old(particles[k].radius) && particles[k].opacity == old(particles[k].opacity)
      {
        particles[i].Update(canvasWidth, canvasHeight);
        i := i + 1;
      }
    }

    /** `drawConnections`: the lines drawn and the number of pairs examined. */
    method DrawConnections() returns (lines: seq<Link>, examined: nat)
      ensures ConnectionsSkipped(canvasWidth, cores) ==> lines == [] && examined == 0
      ensures !ConnectionsSkipped(canvasWidth, cores) ==>
        var m := MaxConnections(|particles|);
        && lines == Scan(StatesOf(particles), m, m, 0)
        && examined == m * (m - 1) / 2
      ensures InScanOrder(lines)
    {
      if IsMobile(canvasWidth) || (cores.Some? && cores.value < 4) {
        return [], 0;
      }
      var m := MaxConnections(|particles|);
      ghost var ms := StatesOf(particles);
      lines, examined := [], 0;
      var i := 0;
      while i < m
        invariant 0 <= i <= m
        invariant lines == Scan(ms, m, i, 0)
        invariant examined == PairsBefore(i, m)
      {
        var count;
        lines, count := ScanRow(i, m, lines);
        examined := examined + count;
        i := i + 1;
      }
      PairsTotal(m);
      assert InScanOrder(lines) by { ScanInScanOrder(ms, m, m, 0); }
    }

    /** The inner loop of `drawConnections`: row `i` against the partners
        `i + 1 .. m - 1`, appending to the lines drawn so far. */
    method ScanRow(i: nat, m: nat, drawn: seq<Link>) returns (lines: seq<Link>, count: nat)
      requires i < m <= |particles|
      requires drawn == Scan(StatesOf(particles), m, i, 0)
      ensures lines == Scan(StatesOf(particles), m, i, m)
      ensures count == m - i - 1
    {
      ghost var ms := StatesOf(particles);
      lines, count := drawn, 0;
      var j := i + 1;
      while j < m
        invariant i + 1 <= j <= m
        invariant lines == Scan(ms, m, i, j)
        invariant count == j - i - 1
      {
        var dx := particles[i].x - particles[j].x;
        var dy := particles[i].y - particles[j].y;
        var dist2 := Sq(dx) + Sq(dy);
        assert ms[i] == particles[i].State() && ms[j] == particles[j].State();
        assert dist2 == Dist2(ms, i, j);
        if dist2 < ProximitySquared {
          lines := lines + [Link(i, j, dist2)];
        }
        count := count + 1;
        j := j + 1;
      }
    }

    /** `animate(currentTime)`: redraw only when a timestamp is given and at
        least one frame interval has passed; always request the next frame.
        The only call without a timestamp is the direct one at mount; a call
        with one is an animation frame, which runs only while it is requested,
        so never after the cleanup cancelled it. */
    method Animate(currentTime: Option<real>) returns (redrew: bool, lines: seq<Link>, examined: nat)
      requires Valid()
      requires currentTime.Some? ==> frameRequested
      modifies this`lastTime, this`frameRequested, particles
      ensures redrew <==> currentTime.Some? && currentTime.value - old(lastTime) >= frameInterval
      ensures redrew ==> lastTime == currentTime.value
      ensures redrew ==> forall k :: 0 <= k < |particles| ==>
        particles[k].State() == Move(old(particles[k].State()), canvasWidth, canvasHeight)
      ensures !redrew ==> lastTime == old(lastTime) && lines == []
      ensures !redrew ==> forall k :: 0 <= k < |particles| ==> particles[k].State() == old(particles[k].State())
      ensures redrew && ConnectionsSkipped(canvasWidth, cores) ==> lines == []
      ensures redrew && !ConnectionsSkipped(canvasWidth, cores) ==>
        lines == Scan(StatesOf(particles), MaxConnections(|particles|), MaxConnections(|particles|), 0)
      ensures forall k :: 0 <= k < |particles| ==>
        particles[k].radius == old(particles[k].radius) && particles[k].opacity == old(particles[k].opacity)
      ensures frameRequested
    {
      redrew := currentTime.Some? && currentTime.value - lastTime >= frameInterval;
      lines, examined := [], 0;
      // The frame request and the time stamp touch no particle, so they are
      // written before the particles move.
      frameRequested := true;
      if redrew {
        lastTime := currentTime.value;
        StepParticles();
        lines, examined := DrawConnections();
      }
    }

    /** The resize listener: the canvas follows the viewport; particle positions are kept. */
    method Resize(innerWidth: nat, innerHeight: nat)
      requires resizeListening
      modifies this`canvasWidth, this`canvasHeight
      ensures canvasWidth == innerWidth && canvasHeight == innerHeight
    {
      canvasWidth, canvasHeight := innerWidth, innerHeight;
    }

    /** The effect cleanup: the resize listener is removed and the pending frame cancelled. */
    method Unmount()
      modifies this`resizeListening, this`frameRequested
      ensures !resizeListening && !frameRequested
    {
      resizeListening := false;
      frameRequested := false;
    }
  }
}
