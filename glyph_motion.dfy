/** The per-particle and per-slice state of ParticleTitle and the pure steps
    it applies to them each frame: particle seeding from a grid hit, the
    "pulse" update (drag, pointer impulse, spring, size easing), the "slice"
    update (sinusoidal targets, easing, pointer push), the partition of the
    canvas into slices and the lookup of a particle's slice. */
module GlyphMotion {
  import opened Common
  import opened GlyphSampling

  /** Math.PI as a decimal. */
  const Pi: real := 3.141592653589793

  const PulseRadius: real := 80.0
  const Damping: real := 0.92
  const Stiffness: real := 0.06
  const StubbornStiffness: real := 0.15
  const ImpulseGain: real := 0.03
  const SizeEase: real := 0.1
  const BreatheAmplitude: real := 0.3
  const ProximityGrowth: real := 2.0
  const MinRadius: real := 0.5
  const StubbornChance: real := 0.1

  const SliceReach: real := 60.0
  const SlicePushGain: real := 30.0
  const OffsetEase: real := 0.05
  const WaveX: real := 8.0
  const WaveY: real := 3.0
  const SliceBreathe: real := 0.2

  /** A particle of the title. origin is the grid point it was sampled at. */
  datatype Glyph = Glyph(
    x: real, y: real,
    originX: real, originY: real,
    size: real, baseSize: real,
    vx: real, vy: real,
    phase: real, speed: real,
    isStubborn: bool)

  /** A horizontal band [yStart, yEnd) of the canvas that moves as one. */
  datatype Slice = Slice(
    yStart: real, yEnd: real,
    offsetX: real, offsetY: real,
    targetOffsetX: real, targetOffsetY: real,
    phase: real, speed: real)

  /** The canvas-local pointer record. */
  datatype Pointer = Pointer(x: real, y: real, isActive: bool)

  /** What the pointer is reset to when it leaves the canvas. */
  const Away := Pointer(-9999.0, -9999.0, false)

  /** The drawn radius: never below 0.5. */
  function Radius(size: real): (r: real)
    ensures r >= MinRadius && r >= size && (r == size || r == MinRadius)
  {
    Max(MinRadius, size)
  }

  /** The theme attribute "light" selects the light colour; any other value,
      and an absent attribute, select the dark one. */
  function GetColor(theme: Option<string>, colorLight: string, colorDark: string): (c: string)
    ensures theme == Some("light") ==> c == colorLight
    ensures theme != Some("light") ==> c == colorDark
  {
    if theme == Some("light") then colorLight else colorDark
  }

  // ---------------------------------------------------------------------
  // Seeding

  /** How many Math.random draws the first k seeded particles consume: five
      each, or four when resistance is off and the short-circuiting && skips
      the stubborn draw. */
  function DrawsBefore(k: nat, enableResistance: bool): nat {
    if enableResistance then 5 * k else 4 * k
  }

  /** A size drawn as base * (0.5 + 0.5 * r): in [0.5, 1) times a positive base. */
  function Jitter(base: real, r: Unit): (v: real)
    ensures base > 0.0 ==> 0.5 * base <= v < base
  {
    assert base > 0.0 ==> base * r < base by {
      if base > 0.0 {
        assert base - base * r == base * (1.0 - r);
      }
    }
    base * (0.5 + r * 0.5)
  }

  /** The particle seeded at a grid hit, from draws at, at + 1, ... */
  function NewGlyph(p: Point, baseSize: real, enableResistance: bool, rand: nat -> Unit, at: nat): (g: Glyph)
    ensures g.x == g.originX == p.x as real && g.y == g.originY == p.y as real
    ensures g.vx == 0.0 && g.vy == 0.0
    ensures baseSize > 0.0 ==> 0.5 * baseSize <= g.size < baseSize && 0.5 * baseSize <= g.baseSize < baseSize
    ensures 0.0 <= g.phase < 2.0 * Pi
    ensures 0.02 <= g.speed < 0.04
    ensures g.isStubborn ==> enableResistance
  {
    Glyph(
      p.x as real, p.y as real,
      p.x as real, p.y as real,
      Jitter(baseSize, rand(at)),
      Jitter(baseSize, rand(at + 1)),
      0.0, 0.0,
      rand(at + 2) * Pi * 2.0,
      0.02 + rand(at + 3) * 0.02,
      enableResistance && rand(at + 4) < StubbornChance)
  }

  /** The particles a particle constructor make builds, in order, from the
      given grid points: the first from draw index at, each one starting
      where the draws of the one before it end. */
  function MadeInOrder(hits: seq<Point>, make: (Point, nat) -> Glyph, on: bool, at: nat): (r: seq<Glyph>)
    ensures |r| == |hits|
  {
    if hits == [] then []
    else [make(hits[0], at)] + MadeInOrder(hits[1..], make, on, at + DrawsBefore(1, on))
  }

  /** The k-th particle made stands on the k-th grid point and starts after
      the draws of the k particles before it. */
  lemma {:induction false} MadeAt(hits: seq<Point>, make: (Point, nat) -> Glyph, on: bool, at: nat, k: nat)
    requires k < |hits|
    ensures MadeInOrder(hits, make, on, at)[k] == make(hits[k], at + DrawsBefore(k, on))
  {
    if k > 0 {
      MadeAt(hits[1..], make, on, at + DrawsBefore(1, on), k - 1);
      assert at + DrawsBefore(1, on) + DrawsBefore(k - 1, on) == at + DrawsBefore(k, on);
    }
  }

  /** Making two runs of grid points one after the other is making their
      concatenation: the second run starts where the first run's draws end. */
  lemma {:induction false} MadeAppend(a: seq<Point>, b: seq<Point>, make: (Point, nat) -> Glyph, on: bool, at: nat)
    ensures MadeInOrder(a + b, make, on, at)
         == MadeInOrder(a, make, on, at) + MadeInOrder(b, make, on, at + DrawsBefore(|a|, on))
  {
    if a == [] {
      assert a + b == b;
    } else {
      var next := at + DrawsBefore(1, on);
      assert (a + b)[0] == a[0];
      assert (a + b)[1..] == a[1..] + b;
      MadeAppend(a[1..], b, make, on, next);
      assert next + DrawsBefore(|a| - 1, on) == at + DrawsBefore(|a|, on);
    }
  }

  /** The first point of a run makes the first particle; the rest of the run
      starts one particle's draws later. */
  lemma MadeCons(p: Point, rest: seq<Point>, make: (Point, nat) -> Glyph, on: bool, at: nat)
    ensures MadeInOrder([p] + rest, make, on, at) == [make(p, at)] + MadeInOrder(rest, make, on, at + DrawsBefore(1, on))
  {
  }

  /** The Particle constructor of the title, with its configuration and the
      random stream fixed: a point and a draw index make one particle. */
  function Maker(baseSize: real, on: bool, rand: nat -> Unit): (Point, nat) -> Glyph {
    (p: Point, at: nat) => NewGlyph(p, baseSize, on, rand, at)
  }

  /** The particles the title seeds from the given grid points. */
  function Seeded(hits: seq<Point>, baseSize: real, on: bool, rand: nat -> Unit, at: nat): (r: seq<Glyph>)
    ensures |r| == |hits|
  {
    MadeInOrder(hits, Maker(baseSize, on, rand), on, at)
  }

  /** The k-th seeded particle is a fresh particle on the k-th grid point,
      made from the draws after those of the k particles before it. */
  lemma SeededAt(hits: seq<Point>, baseSize: real, on: bool, rand: nat -> Unit, at: nat, k: nat)
    requires k < |hits|
    ensures |Seeded(hits, baseSize, on, rand, at)| == |hits|
    ensures Seeded(hits, baseSize, on, rand, at)[k] == NewGlyph(hits[k], baseSize, on, rand, at + DrawsBefore(k, on))
  {
    MadeAt(hits, Maker(baseSize, on, rand), on, at, k);
  }

  /** The two sizes of a particle come from distinct draws: changing the draw
      behind one leaves the other as it was. */
  lemma SizesIndependent(p: Point, baseSize: real, on: bool, rand: nat -> Unit, rand': nat -> Unit, at: nat)
    requires rand(at + 1) == rand'(at + 1) && rand(at + 2) == rand'(at + 2) && rand(at + 3) == rand'(at + 3)
    requires on ==> rand(at + 4) == rand'(at + 4)
    ensures var g, g' := NewGlyph(p, baseSize, on, rand, at), NewGlyph(p, baseSize, on, rand', at);
            g' == g.(size := g'.size)
  {
  }

  // ---------------------------------------------------------------------
  // Pulse

  /** The proximity force of an active pointer at distance dist: (80 - dist) / 80
      inside the 80-pixel radius, nothing otherwise. */
  function PulseForce(m: Pointer, dist: real): (f: real)
    ensures m.isActive && 0.0 <= dist < PulseRadius ==> 0.0 < f <= 1.0
    ensures !(m.isActive && dist < PulseRadius) ==> f == 0.0
  {
    if m.isActive && dist < PulseRadius then (PulseRadius - dist) / PulseRadius else 0.0
  }

  /** The size a pulsing particle eases toward: its base size, a breathing term
      of amplitude 0.3 and a bump of up to 2 near the pointer. */
  function PulseTarget(p: Glyph, m: Pointer, breathe: Wave, dist: real): (t: real)
    ensures t >= p.baseSize - BreatheAmplitude
    ensures dist >= 0.0 ==> t <= p.baseSize + BreatheAmplitude + ProximityGrowth
    ensures !m.isActive ==> t <= p.baseSize + BreatheAmplitude
    ensures !(m.isActive && dist < PulseRadius) ==> t == p.baseSize + BreatheAmplitude * breathe
    ensures m.isActive && 0.0 <= dist < PulseRadius ==>
              p.baseSize + BreatheAmplitude * breathe < t <= p.baseSize + BreatheAmplitude * breathe + ProximityGrowth
  {
    p.baseSize + breathe * BreatheAmplitude + PulseForce(m, dist) * ProximityGrowth
  }

  function SpringOf(p: Glyph): real {
    if p.isStubborn then StubbornStiffness else Stiffness
  }

  /** One frame of the pulse effect for one particle. breathe is
      Math.sin(time * 2 + phase); dist is the distance from the particle to
      the pointer (only read while the pointer is active). */
  function PulseStep(p: Glyph, m: Pointer, breathe: Wave, dist: real): (r: Glyph)
    ensures r == p.(x := r.x, y := r.y, vx := r.vx, vy := r.vy, size := r.size)
    ensures r.x == p.x + r.vx && r.y == p.y + r.vy
    ensures var t := PulseTarget(p, m, breathe, dist);
            (p.size <= t ==> p.size <= r.size <= t) && (t <= p.size ==> t <= r.size <= p.size)
    ensures var t := PulseTarget(p, m, breathe, dist); r.size - t == 0.9 * (p.size - t)
  {
    var dx, dy := m.x - p.x, m.y - p.y;
    var force := PulseForce(m, dist);
    var pushed := m.isActive && dist < PulseRadius && !p.isStubborn;
    var vx := if pushed then p.vx - dx * force * ImpulseGain else p.vx;
    var vy := if pushed then p.vy - dy * force * ImpulseGain else p.vy;
    var vx', vy' := vx * Damping + (p.originX - p.x) * SpringOf(p), vy * Damping + (p.originY - p.y) * SpringOf(p);
    var t := PulseTarget(p, m, breathe, dist);
    p.(x := p.x + vx', y := p.y + vy', vx := vx', vy := vy', size := p.size + (t - p.size) * SizeEase)
  }

  /** Unless an active pointer is within reach of an ordinary particle, the new
      velocity is the old one damped by 0.92 plus the spring pull toward the
      origin, whose constant is 0.15 for a stubborn particle and 0.06
      otherwise: drag applies before the spring. */
  lemma PulseDragThenSpring(p: Glyph, m: Pointer, breathe: Wave, dist: real)
    requires !(m.isActive && dist < PulseRadius && !p.isStubborn)
    ensures var r := PulseStep(p, m, breathe, dist);
            var k := if p.isStubborn then 0.15 else 0.06;
            r.vx == 0.92 * p.vx + k * (p.originX - p.x) &&
            r.vy == 0.92 * p.vy + k * (p.originY - p.y)
  {
  }

  /** A stubborn particle's motion does not depend on the pointer at all. */
  lemma StubbornIgnoresPointer(p: Glyph, m1: Pointer, m2: Pointer, breathe: Wave, d1: real, d2: real)
    requires p.isStubborn
    ensures var r1, r2 := PulseStep(p, m1, breathe, d1), PulseStep(p, m2, breathe, d2);
            r1.x == r2.x && r1.y == r2.y && r1.vx == r2.vx && r1.vy == r2.vy
  {
  }

  /** An ordinary particle within 80 of an active pointer gets, compared with
      the same frame with the pointer gone, the velocity change
      -0.92 * 0.03 * force * (pointer - particle) on each axis: it is pushed
      away from the pointer, and not at all on an axis where it is level with it. */
  lemma OrdinaryFeelsPointer(p: Glyph, m: Pointer, breathe: Wave, dist: real)
    requires !p.isStubborn && m.isActive && 0.0 <= dist < PulseRadius
    ensures var r, q := PulseStep(p, m, breathe, dist), PulseStep(p, m.(isActive := false), breathe, dist);
            var f := PulseForce(m, dist);
            r.vx == q.vx - 0.92 * 0.03 * f * (m.x - p.x) &&
            r.vy == q.vy - 0.92 * 0.03 * f * (m.y - p.y)
    ensures var r, q := PulseStep(p, m, breathe, dist), PulseStep(p, m.(isActive := false), breathe, dist);
            (m.x > p.x ==> r.vx < q.vx) && (m.x < p.x ==> r.vx > q.vx) &&
            (m.y > p.y ==> r.vy < q.vy) && (m.y < p.y ==> r.vy > q.vy)
  {
  }

  /** A particle at rest at its origin with the pointer inactive stays there. */
  lemma RestIsFixed(p: Glyph, m: Pointer, breathe: Wave, dist: real)
    requires p.x == p.originX && p.y == p.originY && p.vx == 0.0 && p.vy == 0.0
    requires !m.isActive
    ensures var r := PulseStep(p, m, breathe, dist);
            r.x == p.originX && r.y == p.originY && r.vx == 0.0 && r.vy == 0.0
  {
  }

  /** The disc a pulsing particle is drawn as after its step. */
  function PulseDisc(r: Glyph): (d: Disc)
    ensures d.x == r.x && d.y == r.y && d.radius >= MinRadius && d.radius >= r.size
  {
    Disc(r.x, r.y, Radius(r.size))
  }

  // ---------------------------------------------------------------------
  // Slices

  /** The wave part of a slice's frame: new targets from the sinusoids
      (sinX = Math.sin(time * 3 + phase), cosY = Math.cos(time * 2 + phase)),
      then each offset closes 5% of its gap to the target. */
  function SliceWave(s: Slice, sinX: Wave, cosY: Wave): (r: Slice)
    ensures r == s.(offsetX := r.offsetX, offsetY := r.offsetY, targetOffsetX := r.targetOffsetX, targetOffsetY := r.targetOffsetY)
    ensures r.targetOffsetX == sinX * WaveX && r.targetOffsetY == cosY * WaveY
    ensures -WaveX <= r.targetOffsetX <= WaveX && -WaveY <= r.targetOffsetY <= WaveY
    ensures r.offsetX - r.targetOffsetX == 0.95 * (s.offsetX - r.targetOffsetX)
    ensures r.offsetY - r.targetOffsetY == 0.95 * (s.offsetY - r.targetOffsetY)
  {
    var tx, ty := sinX * WaveX, cosY * WaveY;
    s.(targetOffsetX := tx, targetOffsetY := ty,
       offsetX := s.offsetX + (tx - s.offsetX) * OffsetEase,
       offsetY := s.offsetY + (ty - s.offsetY) * OffsetEase)
  }

  function Centre(s: Slice): real {
    (s.yStart + s.yEnd) / 2.0
  }

  /** The pointer's push on one slice (applied only while the pointer is
      active): a slice whose centre is within 60 of the pointer's y gets up to
      30 added to its target x-offset, toward +x when the pointer is in the
      right half of the canvas and toward -x otherwise. */
  function SlicePush(s: Slice, m: Pointer, width: real): (r: Slice)
    ensures r == s.(targetOffsetX := r.targetOffsetX)
    ensures r.targetOffsetX > s.targetOffsetX <==> Abs(m.y - Centre(s)) < SliceReach && m.x > width / 2.0
    ensures r.targetOffsetX < s.targetOffsetX <==> Abs(m.y - Centre(s)) < SliceReach && m.x <= width / 2.0
    ensures Abs(r.targetOffsetX - s.targetOffsetX) <= SlicePushGain
  {
    var dist := Abs(m.y - Centre(s));
    if dist < SliceReach then
      var force := (SliceReach - dist) / SliceReach;
      var direction := if m.x > width / 2.0 then 1.0 else -1.0;
      s.(targetOffsetX := s.targetOffsetX + direction * force * SlicePushGain)
    else s
  }

  /** One slice's whole frame: the wave, then the push if the pointer is active. */
  function SliceFrame(s: Slice, m: Pointer, width: real, sinX: Wave, cosY: Wave): (r: Slice)
    ensures r == SliceWave(s, sinX, cosY).(targetOffsetX := r.targetOffsetX)
    ensures Abs(r.targetOffsetX) <= WaveX + SlicePushGain && Abs(r.targetOffsetY) <= WaveY
    ensures !m.isActive ==> r == SliceWave(s, sinX, cosY)
    ensures m.isActive ==> r.targetOffsetX == SlicePush(SliceWave(s, sinX, cosY), m, width).targetOffsetX
  {
    var w := SliceWave(s, sinX, cosY);
    if m.isActive then SlicePush(w, m, width) else w
  }

  /** The push reaches only the target: the offsets drawn this frame are the
      same wherever the pointer is, and whether it is active or not. */
  lemma SliceOffsetIgnoresPointer(s: Slice, m1: Pointer, m2: Pointer, width: real, sinX: Wave, cosY: Wave)
    ensures var a, b := SliceFrame(s, m1, width, sinX, cosY), SliceFrame(s, m2, width, sinX, cosY);
            a.offsetX == b.offsetX && a.offsetY == b.offsetY && a.targetOffsetY == b.targetOffsetY
  {
  }

  /** The wave overwrites both targets before easing, so whatever target a
      slice carries into a frame, the push included, is forgotten. */
  lemma WaveForgetsTarget(s: Slice, a: real, b: real, sinX: Wave, cosY: Wave)
    ensures SliceWave(s.(targetOffsetX := a, targetOffsetY := b), sinX, cosY) == SliceWave(s, sinX, cosY)
  {
  }

  /** Over two frames the pointer of the first reaches no drawn offset of the
      second either: the slice after the second frame is the same whatever the
      first frame's pointer was. */
  lemma PushNeverDrawn(s: Slice, m1: Pointer, m2: Pointer, m: Pointer, width: real,
                       sinX1: Wave, cosY1: Wave, sinX2: Wave, cosY2: Wave)
    ensures SliceFrame(SliceFrame(s, m1, width, sinX1, cosY1), m, width, sinX2, cosY2)
         == SliceFrame(SliceFrame(s, m2, width, sinX1, cosY1), m, width, sinX2, cosY2)
  {
  }

  /** A slice contains the particles whose origin-y lies in [yStart, yEnd). */
  predicate Holds(s: Slice, oy: real) {
    s.yStart <= oy < s.yEnd
  }

  /** The slices partition [0, height): the first starts at 0, each ends where
      the next starts, the last ends at height, and none is reversed. */
  predicate Tiles(slices: seq<Slice>, height: real) {
    && |slices| > 0
    && slices[0].yStart == 0.0
    && slices[|slices| - 1].yEnd == height
    && (forall i :: 0 <= i < |slices| - 1 ==> slices[i].yEnd == slices[i + 1].yStart)
    && (forall i :: 0 <= i < |slices| ==> slices[i].yStart <= slices[i].yEnd)
  }

  /** The lookup loop with its break: the first slice from index i on that
      holds oy, if any. */
  function FirstSliceFrom(slices: seq<Slice>, oy: real, i: nat): (r: Option<nat>)
    requires i <= |slices|
    ensures r.Some? ==> i <= r.value < |slices| && Holds(slices[r.value], oy)
    ensures r.Some? ==> forall k :: i <= k < r.value ==> !Holds(slices[k], oy)
    ensures r.None? ==> forall k :: i <= k < |slices| ==> !Holds(slices[k], oy)
    decreases |slices| - i
  {
    if i == |slices| then None
    else if Holds(slices[i], oy) then Some(i)
    else FirstSliceFrom(slices, oy, i + 1)
  }

  /** The slice the lookup loop picks for a particle: the first, from slice 0,
      whose range holds oy, or none. */
  function FirstSlice(slices: seq<Slice>, oy: real): (r: Option<nat>)
    ensures r.Some? ==> r.value < |slices| && Holds(slices[r.value], oy)
    ensures r.Some? ==> forall k :: 0 <= k < r.value ==> !Holds(slices[k], oy)
    ensures r.None? ==> forall k :: 0 <= k < |slices| ==> !Holds(slices[k], oy)
  {
    FirstSliceFrom(slices, oy, 0)
  }

  lemma {:induction false} TilesCoverFrom(slices: seq<Slice>, height: real, oy: real, i: nat)
    requires Tiles(slices, height) && i < |slices| && slices[i].yStart <= oy < height
    ensures exists k :: i <= k < |slices| && Holds(slices[k], oy)
    decreases |slices| - i
  {
    if !Holds(slices[i], oy) {
      assert i + 1 < |slices|;
      TilesCoverFrom(slices, height, oy, i + 1);
    }
  }

  lemma {:induction false} TilesOrdered(slices: seq<Slice>, height: real, i: nat, j: nat)
    requires Tiles(slices, height) && i < j < |slices|
    ensures slices[i].yEnd <= slices[j].yStart
    decreases j - i
  {
    if j > i + 1 {
      TilesOrdered(slices, height, i, j - 1);
    }
  }

  /** Every origin-y in [0, height) is held by exactly one slice of a
      partition, and the lookup finds that slice. */
  lemma SliceLookupExact(slices: seq<Slice>, height: real, oy: real)
    requires Tiles(slices, height) && 0.0 <= oy < height
    ensures FirstSlice(slices, oy).Some?
    ensures forall k :: 0 <= k < |slices| ==> (Holds(slices[k], oy) <==> k == FirstSlice(slices, oy).value)
  {
    TilesCoverFrom(slices, height, oy, 0);
    var f := FirstSlice(slices, oy).value;
    forall k | 0 <= k < |slices| && Holds(slices[k], oy) ensures k == f {
      if f < k {
        TilesOrdered(slices, height, f, k);
      }
    }
  }

  /** The disc a particle is drawn as in the slice effect: at its origin
      shifted by its slice's current offset (no shift if no slice holds it),
      with breathe = Math.sin(time * 1.5 + phase). */
  function SliceDisc(p: Glyph, slices: seq<Slice>, breathe: Wave): (d: Disc)
    ensures d.radius >= MinRadius && d.radius >= p.baseSize - SliceBreathe
    ensures FirstSlice(slices, p.originY).None? ==> d.x == p.originX && d.y == p.originY
    ensures FirstSlice(slices, p.originY).Some? ==>
              var s := slices[FirstSlice(slices, p.originY).value];
              d.x == p.originX + s.offsetX && d.y == p.originY + s.offsetY
  {
    var off := match FirstSlice(slices, p.originY)
      case Some(k) => (slices[k].offsetX, slices[k].offsetY)
      case None => (0.0, 0.0);
    Disc(p.originX + off.0, p.originY + off.1, Radius(p.baseSize + breathe * SliceBreathe))
  }

  /** The number of slices: 5 + floor(4 * Math.random()). */
  function SliceCount(r: Unit): (n: int)
    ensures 5 <= n <= 8
  {
    5 + (r * 4.0).Floor
  }

  /** The boundary (i / n) * height between slices i - 1 and i. */
  function Cut(i: int, n: int, height: real): (r: real)
    requires n > 0
    ensures 0 <= i <= n && height >= 0.0 ==> 0.0 <= r <= height
  {
    var f := i as real / n as real;
    assert 0 <= i <= n && height >= 0.0 ==> f * height <= height by {
      if 0 <= i <= n && height >= 0.0 {
        assert f <= 1.0;
        assert f * height <= 1.0 * height;
      }
    }
    f * height
  }

  /** Boundaries run from 0 to height and never go down. */
  lemma CutsRise(i: int, n: int, height: real)
    requires 0 <= i < n && height >= 0.0
    ensures Cut(i, n, height) <= Cut(i + 1, n, height)
    ensures Cut(0, n, height) == 0.0 && Cut(n, n, height) == height
  {
  }

  /** Slice i of n over the given height, with its phase and speed drawn at
      at and at + 1. */
  function MakeSlice(i: nat, n: nat, height: real, rand: nat -> Unit, at: nat): (r: Slice)
    requires n > 0
    ensures r.yStart == Cut(i, n, height) && r.yEnd == Cut(i + 1, n, height)
    ensures r.offsetX == r.offsetY == r.targetOffsetX == r.targetOffsetY == 0.0
    ensures 0.0 <= r.phase < 2.0 * Pi && 0.005 <= r.speed < 0.015
  {
    Slice(Cut(i, n, height), Cut(i + 1, n, height), 0.0, 0.0, 0.0, 0.0,
          rand(at) * Pi * 2.0, 0.005 + rand(at + 1) * 0.01)
  }

  /** The slices buildSlices creates from draws at, at + 1, ...: the count,
      then a phase and a speed per slice. */
  function BuiltSlices(height: real, rand: nat -> Unit, at: nat): (r: seq<Slice>)
    ensures 5 <= |r| <= 8
  {
    var n := SliceCount(rand(at));
    seq(n, i requires 0 <= i < n => MakeSlice(i, n, height, rand, at + 1 + 2 * i))
  }

  /** buildSlices creates 5 to 8 slices that partition [0, height), all of
      them at rest (offsets and targets 0). */
  lemma BuiltSlicesTile(height: real, rand: nat -> Unit, at: nat)
    requires height >= 0.0
    ensures var s := BuiltSlices(height, rand, at);
            5 <= |s| <= 8 && Tiles(s, height) &&
            forall i :: 0 <= i < |s| ==>
              s[i].offsetX == 0.0 && s[i].offsetY == 0.0 && s[i].targetOffsetX == 0.0 && s[i].targetOffsetY == 0.0
  {
    var s := BuiltSlices(height, rand, at);
    var n := SliceCount(rand(at));
    assert |s| == n;
    forall i | 0 <= i < n
      ensures s[i].yStart == Cut(i, n, height) && s[i].yEnd == Cut(i + 1, n, height)
      ensures s[i].yStart <= s[i].yEnd
      ensures s[i].offsetX == 0.0 && s[i].offsetY == 0.0 && s[i].targetOffsetX == 0.0 && s[i].targetOffsetY == 0.0
    {
      assert s[i] == MakeSlice(i, n, height, rand, at + 1 + 2 * i);
      CutsRise(i, n, height);
    }
    CutsRise(0, n, height);
  }
}
