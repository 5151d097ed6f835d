/** The background network of script.js as values: its constants, how many
    dots a viewport gets and how each is seeded, one frame's motion of a dot
    (integration, wall bounce, the pointer's nudge) and the links a dot draws
    to the dots after it. Math.random, Math.sqrt and the pointer come in as
    parameters. */
module NetworkModel {
  import opened Common

  const Density: real := 12000.0
  const ConnectionDistance: real := 150.0
  const MaxConnections: nat := 3
  const MouseRadius: real := 180.0
  const Speed: real := 0.3
  const MobileBreakpoint: real := 768.0
  /** How far one frame's nudge moves a dot, per unit of force and offset. */
  const NudgeGain: real := 0.02
  /** The coordinate mouseleave parks the shared pointer at. */
  const Parked: real := -9999.0

  /** One background particle. */
  datatype Dot = Dot(x: real, y: real, vx: real, vy: real, radius: real)

  /** One link stroke between dot `from` and the later dot `to`. */
  datatype Line = Line(from: nat, to: nat, x1: real, y1: real, x2: real, y2: real, opacity: real)

  // ---------------------------------------------------------------------
  // Seeding
  // ---------------------------------------------------------------------

  /** Viewport area per dot: doubled below the mobile breakpoint. */
  function DensityFor(width: real): (r: real)
    ensures r >= Density && (r == 2.0 * Density <==> width < MobileBreakpoint)
    ensures width >= MobileBreakpoint ==> r == Density
  {
    if width < MobileBreakpoint then Density * 2.0 else Density
  }

  /** Math.floor(area / density): the number of dots createParticles makes
      (none when it is negative), the largest n with n * density <= area. */
  function ParticleCount(width: real, height: real): (n: int)
    ensures var d, area := DensityFor(width), width * height;
            n as real * d <= area < (n + 1) as real * d
  {
    var d, area := DensityFor(width), width * height;
    var q := area / d;
    assert q * d == area;
    assert q.Floor as real * d <= q * d;
    assert q * d < (q.Floor + 1) as real * d;
    q.Floor
  }

  /** How many times the seeding loop runs: the count, or none when the
      count is negative. */
  function DotCount(width: real, height: real): (r: nat)
    ensures var d, area := DensityFor(width), width * height;
            (area >= 0.0 ==> r as real * d <= area < (r + 1) as real * d) && (area < 0.0 ==> r == 0)
  {
    var n := ParticleCount(width, height);
    if n < 0 then 0 else n
  }

  /** Math.random() * span: in [0, span) when span is positive. */
  function Spread(r: Unit, span: real): (v: real)
    ensures span > 0.0 ==> 0.0 <= v < span
  {
    assert span > 0.0 ==> r * span < span by {
      if span > 0.0 {
        assert span - r * span == (1.0 - r) * span;
      }
    }
    r * span
  }

  /** The dot seeded from the five draws at at .. at + 4, in the order the
      object literal evaluates them. */
  function SeedDot(width: real, height: real, rand: nat -> Unit, at: nat): (d: Dot)
    ensures width > 0.0 ==> 0.0 <= d.x < width
    ensures height > 0.0 ==> 0.0 <= d.y < height
    ensures -0.15 <= d.vx < 0.15 && -0.15 <= d.vy < 0.15
    ensures 0.5 <= d.radius < 2.0
  {
    Dot(Spread(rand(at), width), Spread(rand(at + 1), height),
        (rand(at + 2) - 0.5) * Speed, (rand(at + 3) - 0.5) * Speed,
        rand(at + 4) * 1.5 + 0.5)
  }

  /** The first n dots a seeding loop pushes when dot k is seed(k). */
  function Grown(seed: nat -> Dot, n: nat): (r: seq<Dot>)
    ensures |r| == n
  {
    if n == 0 then [] else Grown(seed, n - 1) + [seed(n - 1)]
  }

  /** Dot k of a grown sequence is seed(k). */
  lemma {:induction false} GrownAt(seed: nat -> Dot, n: nat, k: nat)
    requires k < n
    ensures Grown(seed, n)[k] == seed(k)
  {
    if k < n - 1 {
      GrownAt(seed, n - 1, k);
    }
  }

  /** Dot k of createParticles takes the five draws from 5k on. */
  function Seeder(width: real, height: real, rand: nat -> Unit): nat -> Dot {
    (k: nat) => SeedDot(width, height, rand, 5 * k)
  }

  /** The first n dots createParticles pushes. */
  function Seeds(width: real, height: real, rand: nat -> Unit, n: nat): (r: seq<Dot>)
    ensures |r| == n
  {
    Grown(Seeder(width, height, rand), n)
  }

  /** Dot k of a seeding is the dot seeded from draws 5k .. 5k + 4, so it
      lies on the canvas and starts slow and small. */
  lemma SeedsAt(width: real, height: real, rand: nat -> Unit, n: nat, k: nat)
    requires k < n
    ensures |Seeds(width, height, rand, n)| == n
    ensures Seeds(width, height, rand, n)[k] == SeedDot(width, height, rand, 5 * k)
    ensures Calm(Seeds(width, height, rand, n)[k])
  {
    GrownAt(Seeder(width, height, rand), n, k);
  }

  // ---------------------------------------------------------------------
  // Motion
  // ---------------------------------------------------------------------

  /** Speeds and size a dot keeps for ever: seeding gives them and every
      frame preserves them. */
  predicate Calm(d: Dot) {
    -0.15 <= d.vx <= 0.15 && -0.15 <= d.vy <= 0.15 && 0.5 <= d.radius < 2.0
  }

  /** Integration and wall bounce: the dot moves by its velocity, then each
      velocity component flips exactly when the moved dot lies beyond that
      wall. The position itself is not clamped. */
  function Drift(d: Dot, width: real, height: real): (r: Dot)
    ensures r.x == d.x + d.vx && r.y == d.y + d.vy && r.radius == d.radius
    ensures r.vx == d.vx || r.vx == -d.vx
    ensures r.vy == d.vy || r.vy == -d.vy
    ensures d.vx != 0.0 ==> (r.vx == -d.vx <==> r.x < 0.0 || r.x > width)
    ensures d.vy != 0.0 ==> (r.vy == -d.vy <==> r.y < 0.0 || r.y > height)
  {
    var x, y := d.x + d.vx, d.y + d.vy;
    var vx := if x < 0.0 || x > width then d.vx * -1.0 else d.vx;
    var vy := if y < 0.0 || y > height then d.vy * -1.0 else d.vy;
    Dot(x, y, vx, vy, d.radius)
  }

  /** A dot that starts on the canvas and leaves it this frame is sent back:
      its new velocity points inward on every wall it crossed. */
  lemma BounceTurnsInward(d: Dot, width: real, height: real)
    requires 0.0 <= d.x <= width && 0.0 <= d.y <= height
    ensures var r := Drift(d, width, height);
            (r.x < 0.0 ==> r.vx > 0.0) && (r.x > width ==> r.vx < 0.0) &&
            (r.y < 0.0 ==> r.vy > 0.0) && (r.y > height ==> r.vy < 0.0)
  {
  }

  /** The pointer's force at distance dist: 1 at the pointer, falling to 0 at
      the mouse radius. */
  function Force(dist: real): (f: real)
    ensures 0.0 <= dist < MouseRadius ==> 0.0 < f <= 1.0
  {
    (MouseRadius - dist) / MouseRadius
  }

  /** The pointer's nudge: within the mouse radius the dot moves away from
      the pointer (mx, my); its velocity and radius are never touched. */
  function Nudge(d: Dot, mx: real, my: real, dist: real): (r: Dot)
    ensures r.vx == d.vx && r.vy == d.vy && r.radius == d.radius
    ensures dist >= MouseRadius ==> r == d
  {
    var dx, dy := mx - d.x, my - d.y;
    if dist < MouseRadius then
      var force := Force(dist);
      d.(x := d.x - dx * force * NudgeGain, y := d.y - dy * force * NudgeGain)
    else d
  }

  /** Inside the mouse radius the nudge scales the dot's offset from the
      pointer by a factor in (1, 1.02]: it pushes the dot straight away. */
  lemma NudgePushesAway(d: Dot, mx: real, my: real, dist: real)
    requires 0.0 <= dist < MouseRadius
    ensures var r, k := Nudge(d, mx, my, dist), 1.0 + NudgeGain * Force(dist);
            1.0 < k <= 1.02 && r.x - mx == (d.x - mx) * k && r.y - my == (d.y - my) * k
  {
  }

  /** Distance from the pointer to a dot, as the frame computes it. */
  function PointerDist(d: Dot, mx: real, my: real, sqrt: real -> real): real {
    sqrt(Sq(mx - d.x) + Sq(my - d.y))
  }

  /** One dot's whole frame: drift and bounce, then the nudge measured from
      the drifted position. */
  function Step(d: Dot, width: real, height: real, mx: real, my: real, sqrt: real -> real): (r: Dot)
    ensures r.vx == d.vx || r.vx == -d.vx
    ensures r.vy == d.vy || r.vy == -d.vy
    ensures r.radius == d.radius
  {
    var m := Drift(d, width, height);
    Nudge(m, mx, my, PointerDist(m, mx, my, sqrt))
  }

  /** All dots after one frame: each dot's step reads only its own state and
      the pointer, so the frame is the step applied to every dot. */
  function Frame(ps: seq<Dot>, width: real, height: real, mx: real, my: real, sqrt: real -> real): (r: seq<Dot>)
    ensures |r| == |ps|
    ensures forall k :: 0 <= k < |ps| ==> r[k] == Step(ps[k], width, height, mx, my, sqrt)
  {
    seq(|ps|, k requires 0 <= k < |ps| => Step(ps[k], width, height, mx, my, sqrt))
  }

  /** A sequence whose every dot is the step of the matching old dot is the frame. */
  lemma FrameOf(ps: seq<Dot>, qs: seq<Dot>, width: real, height: real, mx: real, my: real, sqrt: real -> real)
    requires |qs| == |ps|
    requires forall k :: 0 <= k < |ps| ==> qs[k] == Step(ps[k], width, height, mx, my, sqrt)
    ensures qs == Frame(ps, width, height, mx, my, sqrt)
  {
  }

  /** Frames keep every dot calm: no speed grows and no radius changes. */
  lemma FrameKeepsCalm(ps: seq<Dot>, width: real, height: real, mx: real, my: real, sqrt: real -> real)
    requires forall k :: 0 <= k < |ps| ==> Calm(ps[k])
    ensures forall k :: 0 <= k < |ps| ==> Calm(Frame(ps, width, height, mx, my, sqrt)[k])
  {
  }

  /** With the pointer parked by mouseleave, a dot whose drifted position has
      both coordinates at least -9000 is more than 180 away from it and gets
      no nudge: its frame is just drift and bounce. */
  lemma ParkedPointerIsInert(d: Dot, width: real, height: real, sqrt: real -> real)
    requires IsSqrt(sqrt)
    requires var m := Drift(d, width, height); m.x >= -9000.0 && m.y >= -9000.0
    ensures Step(d, width, height, Parked, Parked, sqrt) == Drift(d, width, height)
  {
    var m := Drift(d, width, height);
    var dx, dy := Parked - m.x, Parked - m.y;
    FarSquare(-dx);
    FarSquare(-dy);
    assert Sq(dx) == (-dx) * (-dx) && Sq(dy) == (-dy) * (-dy);
    var dist := PointerDist(m, Parked, Parked, sqrt);
    RootBelow(dist, Sq(dx) + Sq(dy), MouseRadius);
  }

  /** A coordinate gap of at least 999 squares to at least 999 * 999. */
  lemma FarSquare(v: real)
    requires v >= 999.0
    ensures v * v >= 998001.0
  {
  }

  // ---------------------------------------------------------------------
  // Links
  // ---------------------------------------------------------------------

  /** The distance the link test computes between two dots. */
  function LinkDist(p: Dot, q: Dot, sqrt: real -> real): real {
    sqrt(Sq(p.x - q.x) + Sq(p.y - q.y))
  }

  /** Two dots close enough to link, stated on the squared distance. */
  predicate Near(p: Dot, q: Dot) {
    Sq(p.x - q.x) + Sq(p.y - q.y) < ConnectionDistance * ConnectionDistance
  }

  /** The inner link loop from index j on, with made links already drawn for
      dot i at position p: scan forward while fewer than three are made,
      linking each dot closer than the connection distance. */
  function Linked(ps: seq<Dot>, i: nat, p: Dot, j: nat, made: nat, dist: (Dot, Dot) -> real): (r: seq<Line>)
    ensures made <= MaxConnections ==> made + |r| <= MaxConnections
    decreases |ps| - j
  {
    if j >= |ps| || made >= MaxConnections then []
    else
      var q := ps[j];
      var cdist := dist(p, q);
      if cdist < ConnectionDistance then
        [Line(i, j, p.x, p.y, q.x, q.y, 1.0 - cdist / ConnectionDistance)] + Linked(ps, i, p, j + 1, made + 1, dist)
      else Linked(ps, i, p, j + 1, made, dist)
  }

  /** Every line of dot i's link loop from j on starts at dot i, ends at a
      dot from j on, and is drawn with positive opacity. */
  lemma {:induction false} LinkedShape(ps: seq<Dot>, i: nat, p: Dot, j: nat, made: nat, dist: (Dot, Dot) -> real)
    ensures forall k :: 0 <= k < |Linked(ps, i, p, j, made, dist)| ==>
              var l := Linked(ps, i, p, j, made, dist)[k];
              l.from == i && j <= l.to < |ps| && l.opacity > 0.0
    decreases |ps| - j
  {
    if j < |ps| && made < MaxConnections {
      LinkedShape(ps, i, p, j + 1, made + 1, dist);
      LinkedShape(ps, i, p, j + 1, made, dist);
    }
  }

  /** The link test's distance as a function of the two dots. */
  function Gap(sqrt: real -> real): (Dot, Dot) -> real {
    (p, q) => LinkDist(p, q, sqrt)
  }

  /** One turn of the inner link loop, while it still runs, keeps its
      invariant: the lines drawn so far, then those of the dots not yet
      scanned, are all of dot i's lines. */
  lemma LinkedNext(ps: seq<Dot>, i: nat, p: Dot, dist: (Dot, Dot) -> real, all: seq<Line>,
                   j: nat, made: nat, drawn: seq<Line>, j': nat, made': nat, drawn': seq<Line>)
    requires j < |ps| && made < MaxConnections && j' == j + 1
    requires all == drawn + Linked(ps, i, p, j, made, dist)
    requires var q, cdist := ps[j], dist(p, ps[j]);
             if cdist < ConnectionDistance then
               drawn' == drawn + [Line(i, j, p.x, p.y, q.x, q.y, 1.0 - cdist / ConnectionDistance)] && made' == made + 1
             else drawn' == drawn && made' == made
    ensures all == drawn' + Linked(ps, i, p, j', made', dist)
  {
  }

  /** The indices from j on whose dots are near p, in increasing order. */
  function NearFrom(ps: seq<Dot>, p: Dot, j: nat): seq<nat>
    decreases |ps| - j
  {
    if j >= |ps| then []
    else if Near(p, ps[j]) then [j] + NearFrom(ps, p, j + 1)
    else NearFrom(ps, p, j + 1)
  }

  /** NearFrom holds exactly the near indices from j on, each once, in
      increasing order. */
  lemma {:induction false} NearFromSpec(ps: seq<Dot>, p: Dot, j: nat)
    ensures forall k :: k in NearFrom(ps, p, j) <==> j <= k < |ps| && Near(p, ps[k])
    ensures forall k :: 0 <= k < |NearFrom(ps, p, j)| ==> j <= NearFrom(ps, p, j)[k]
    ensures forall a, b :: 0 <= a < b < |NearFrom(ps, p, j)| ==> NearFrom(ps, p, j)[a] < NearFrom(ps, p, j)[b]
    decreases |ps| - j
  {
    if j < |ps| {
      NearFromSpec(ps, p, j + 1);
    }
  }

  /** The first n elements of s (all of s when it is shorter). */
  function Take(s: seq<nat>, n: nat): (r: seq<nat>)
    ensures |r| <= n && r <= s
    ensures |s| >= n ==> |r| == n
  {
    if |s| <= n then s else s[..n]
  }

  /** The dots a sequence of lines links to, in drawing order. */
  function Targets(ls: seq<Line>): (r: seq<nat>)
    ensures |r| == |ls|
  {
    if ls == [] then [] else [ls[0].to] + Targets(ls[1..])
  }

  /** Taking n + 1 from a sequence headed by x keeps x and takes n from
      the rest. */
  lemma TakeCons(x: nat, s: seq<nat>, n: nat)
    ensures Take([x] + s, n + 1) == [x] + Take(s, n)
  {
  }

  /** The targets of a line followed by more lines. */
  lemma TargetsCons(l: Line, rest: seq<Line>)
    ensures Targets([l] + rest) == [l.to] + Targets(rest)
  {
  }

  /** The link loop links to exactly the first 3 - made near dots from j on,
      in index order: not the nearest ones, the earliest. */
  lemma {:induction false} LinkedFirstNear(ps: seq<Dot>, i: nat, p: Dot, j: nat, made: nat, sqrt: real -> real)
    requires IsSqrt(sqrt) && made <= MaxConnections
    ensures Targets(Linked(ps, i, p, j, made, Gap(sqrt))) == Take(NearFrom(ps, p, j), MaxConnections - made)
    decreases |ps| - j
  {
    if j >= |ps| {
      assert Linked(ps, i, p, j, made, Gap(sqrt)) == [] && NearFrom(ps, p, j) == [];
    } else if made == MaxConnections {
      assert Linked(ps, i, p, j, made, Gap(sqrt)) == [];
    } else {
      var q := ps[j];
      var cdist := LinkDist(p, q, sqrt);
      RootBelow(cdist, Sq(p.x - q.x) + Sq(p.y - q.y), ConnectionDistance);
      assert cdist < ConnectionDistance <==> Near(p, q);
      if cdist < ConnectionDistance {
        var rest := Linked(ps, i, p, j + 1, made + 1, Gap(sqrt));
        var line := Line(i, j, p.x, p.y, q.x, q.y, 1.0 - cdist / ConnectionDistance);
        assert Linked(ps, i, p, j, made, Gap(sqrt)) == [line] + rest;
        assert NearFrom(ps, p, j) == [j] + NearFrom(ps, p, j + 1);
        LinkedFirstNear(ps, i, p, j + 1, made + 1, sqrt);
        TargetsCons(line, rest);
        TakeCons(j, NearFrom(ps, p, j + 1), MaxConnections - made - 1);
      } else {
        assert Linked(ps, i, p, j, made, Gap(sqrt)) == Linked(ps, i, p, j + 1, made, Gap(sqrt));
        assert NearFrom(ps, p, j) == NearFrom(ps, p, j + 1);
        LinkedFirstNear(ps, i, p, j + 1, made, sqrt);
      }
    }
  }

  /** The link loop from j on reads only the dots from j on: two arrays of
      the same length that agree there give the same links. */
  lemma {:induction false} LinkedReadsOnlyLater(ps: seq<Dot>, qs: seq<Dot>, i: nat, p: Dot, j: nat, made: nat, dist: (Dot, Dot) -> real)
    requires |ps| == |qs| && forall k :: j <= k < |ps| ==> ps[k] == qs[k]
    ensures Linked(ps, i, p, j, made, dist) == Linked(qs, i, p, j, made, dist)
    decreases |ps| - j
  {
    if j < |ps| && made < MaxConnections {
      LinkedReadsOnlyLater(ps, qs, i, p, j + 1, made + 1, dist);
      LinkedReadsOnlyLater(ps, qs, i, p, j + 1, made, dist);
    }
  }

  /** Every drawn link has opacity 1 - cdist / 150, which lies in (0, 1]. */
  lemma {:induction false} LinkOpacityInRange(ps: seq<Dot>, i: nat, p: Dot, j: nat, made: nat, sqrt: real -> real)
    requires IsSqrt(sqrt)
    ensures forall k :: 0 <= k < |Linked(ps, i, p, j, made, Gap(sqrt))| ==> 0.0 < Linked(ps, i, p, j, made, Gap(sqrt))[k].opacity <= 1.0
    decreases |ps| - j
  {
    if j < |ps| && made < MaxConnections {
      var q := ps[j];
      assert LinkDist(p, q, sqrt) >= 0.0;
      if LinkDist(p, q, sqrt) < ConnectionDistance {
        LinkOpacityInRange(ps, i, p, j + 1, made + 1, sqrt);
      } else {
        LinkOpacityInRange(ps, i, p, j + 1, made, sqrt);
      }
    }
  }

  /** The links of the first n dots of a frame. Dot i is tested at its
      position after this frame's step against the dots after it at their
      positions from before the frame, which they still hold when dot i's
      inner loop runs. */
  function FrameLines(ps: seq<Dot>, n: nat, width: real, height: real, mx: real, my: real, sqrt: real -> real): seq<Line>
    requires n <= |ps|
  {
    if n == 0 then []
    else
      var i := n - 1;
      FrameLines(ps, i, width, height, mx, my, sqrt) + Linked(ps, i, Step(ps[i], width, height, mx, my, sqrt), i + 1, 0, Gap(sqrt))
  }

  /** Every line of a frame's first n dots starts at one of them and ends at
      a later dot. */
  lemma {:induction false} FrameLinesShape(ps: seq<Dot>, n: nat, width: real, height: real, mx: real, my: real, sqrt: real -> real)
    requires n <= |ps|
    ensures forall k :: 0 <= k < |FrameLines(ps, n, width, height, mx, my, sqrt)| ==>
              var l := FrameLines(ps, n, width, height, mx, my, sqrt)[k];
              l.from < n && l.from < l.to < |ps|
  {
    if n > 0 {
      var i := n - 1;
      FrameLinesShape(ps, i, width, height, mx, my, sqrt);
      LinkedShape(ps, i, Step(ps[i], width, height, mx, my, sqrt), i + 1, 0, Gap(sqrt));
    }
  }
}
