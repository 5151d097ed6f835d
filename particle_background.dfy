/** The ParticleBackground object of script.js and the pointer record its
    event handlers share: resizing, seeding the dots, and one animation frame
    that moves every dot in place and strokes the capped links. The canvas
    calls become the discs and lines a frame returns. */
module ParticleBackgroundEngine {
  import opened Common
  import opened NetworkModel

  /** The module-wide mouse record: mousemove writes the client position,
      mouseleave parks it far off the canvas. */
  class SharedPointer {
    var x: real
    var y: real

    /** The record starts parked. */
    constructor ()
      ensures x == Parked && y == Parked
    {
      x, y := Parked, Parked;
    }

    method OnMouseMove(clientX: real, clientY: real)
      modifies this
      ensures x == clientX && y == clientY
    {
      x, y := clientX, clientY;
    }

    method OnMouseLeave()
      modifies this
      ensures x == Parked && y == Parked
    {
      x, y := Parked, Parked;
    }
  }

  /** The disc a frame draws for a dot. */
  function DiscOf(d: Dot): Disc {
    Disc(d.x, d.y, d.radius)
  }

  /** How far a frame has got after i dots: those are stepped, drawn and
      linked, the rest are as the frame found them. */
  ghost predicate FramedUpTo(ps: seq<Dot>, qs: seq<Dot>, discs: seq<Disc>, lines: seq<Line>, i: nat,
                             width: real, height: real, mx: real, my: real, sqrt: real -> real)
  {
    i <= |qs| == |ps| &&
    (forall k :: 0 <= k < i ==> qs[k] == Step(ps[k], width, height, mx, my, sqrt)) &&
    (forall k :: i <= k < |ps| ==> qs[k] == ps[k]) &&
    |discs| == i && (forall k :: 0 <= k < i ==> discs[k] == DiscOf(qs[k])) &&
    lines == FrameLines(ps, i, width, height, mx, my, sqrt)
  }

  /** One turn of the frame loop keeps FramedUpTo. */
  lemma FramedStep(ps: seq<Dot>, width: real, height: real, mx: real, my: real, sqrt: real -> real,
                   i: nat, qs: seq<Dot>, discs: seq<Disc>, lines: seq<Line>, disc: Disc, links: seq<Line>,
                   i': nat, qs': seq<Dot>, discs': seq<Disc>, lines': seq<Line>)
    requires i < |ps| && FramedUpTo(ps, qs, discs, lines, i, width, height, mx, my, sqrt)
    requires qs' == qs[i := Step(ps[i], width, height, mx, my, sqrt)]
    requires disc == DiscOf(qs'[i]) && links == Linked(ps, i, qs'[i], i + 1, 0, Gap(sqrt))
    requires i' == i + 1 && discs' == discs + [disc] && lines' == lines + links
    ensures FramedUpTo(ps, qs', discs', lines', i', width, height, mx, my, sqrt)
  {
  }

  class ParticleBackground {
    var width: real
    var height: real
    var particles: seq<Dot>

    /** Size to the window, seed the dots, then run one frame at once: it
        moves the dots when the page is visible and leaves them otherwise. */
    constructor (innerWidth: real, innerHeight: real, rand: nat -> Unit,
                 mouse: SharedPointer, isPageVisible: bool, sqrt: real -> real)
      ensures width == innerWidth && height == innerHeight
      ensures var seeded := Seeds(width, height, rand, DotCount(width, height));
              particles == if isPageVisible then Frame(seeded, width, height, mouse.x, mouse.y, sqrt) else seeded
    {
      width, height := innerWidth, innerHeight;
      particles := [];
      new;
      CreateParticles(rand);
      var discs, lines := Animate(mouse, isPageVisible, sqrt);
    }

    /** resize: take the window's inner size. */
    method Resize(innerWidth: real, innerHeight: real)
      modifies this`width, this`height
      ensures width == innerWidth && height == innerHeight
    {
      width, height := innerWidth, innerHeight;
    }

    /** Replace the dots with floor(area / density) fresh ones (none when
        that is negative), the i-th from draws 5i .. 5i + 4. */
    method CreateParticles(rand: nat -> Unit)
      modifies this`particles
      ensures particles == Seeds(width, height, rand, DotCount(width, height))
    {
      Populate(DotCount(width, height), Seeder(width, height, rand));
    }

    /** The seeding loop: start empty and push seed(i) for i below count. */
    method Populate(count: nat, seed: nat -> Dot)
      modifies this`particles
      ensures particles == Grown(seed, count)
    {
      particles := [];
      var i := 0;
      while i < count
        invariant i <= count && particles == Grown(seed, i)
      {
        particles := particles + [seed(i)];
        i := i + 1;
      }
    }

    /** The window's resize listener: resize, then reseed. */
    method OnResize(innerWidth: real, innerHeight: real, rand: nat -> Unit)
      modifies this
      ensures width == innerWidth && height == innerHeight
      ensures particles == Seeds(width, height, rand, DotCount(width, height))
    {
      Resize(innerWidth, innerHeight);
      CreateParticles(rand);
    }

    /** One frame. On a hidden page nothing changes and nothing is drawn.
        Otherwise every dot takes its step in place, in index order, and is
        drawn; after its step, dot i links to the first (at most three) later
        dots within the connection distance, at their not yet stepped
        positions. */
    method Animate(mouse: SharedPointer, isPageVisible: bool, sqrt: real -> real)
      returns (discs: seq<Disc>, lines: seq<Line>)
      modifies this`particles
      ensures !isPageVisible ==> particles == old(particles) && discs == [] && lines == []
      ensures isPageVisible ==>
                var ps := old(particles);
                particles == Frame(ps, width, height, mouse.x, mouse.y, sqrt) &&
                |discs| == |ps| && (forall k :: 0 <= k < |ps| ==> discs[k] == DiscOf(particles[k])) &&
                lines == FrameLines(ps, |ps|, width, height, mouse.x, mouse.y, sqrt)
    {
      discs, lines := [], [];
      if !isPageVisible {
        return;
      }
      var mx, my := mouse.x, mouse.y;
      ghost var ps := particles;
      ghost var w, h := width, height;
      var i := 0;
      while i < |particles|
        invariant i <= |particles| == |ps|
        invariant FramedUpTo(ps, particles, discs, lines, i, w, h, mx, my, sqrt)
      {
        ghost var i0, qs0, discs0, lines0 := i, particles, discs, lines;
        var disc, links := Advance(i, mx, my, sqrt, ps);
        discs := discs + [disc];
        lines := lines + links;
        i := i + 1;
        FramedStep(ps, w, h, mx, my, sqrt, i0, qs0, discs0, lines0, disc, links, i, particles, discs, lines);
      }
      FrameOf(ps, particles, w, h, mx, my, sqrt);
    }

    /** The body of the frame loop for dot i: step it in place, draw it, and
        collect its links. The later dots are still as the frame found them. */
    method Advance(i: nat, mx: real, my: real, sqrt: real -> real, ghost ps: seq<Dot>)
      returns (disc: Disc, links: seq<Line>)
      requires i < |particles| == |ps|
      requires forall k :: i <= k < |ps| ==> particles[k] == ps[k]
      modifies this`particles
      ensures particles == old(particles)[i := Step(ps[i], width, height, mx, my, sqrt)]
      ensures disc == DiscOf(particles[i])
      ensures links == Linked(ps, i, particles[i], i + 1, 0, Gap(sqrt))
    {
      var p := StepDot(particles[i], mx, my, sqrt);
      particles := particles[i := p];
      disc := DiscOf(p);
      links := LinksOf(i, p, Gap(sqrt));
      LinkedReadsOnlyLater(particles, ps, i, p, i + 1, 0, Gap(sqrt));
    }

    /** The inner link loop for dot i, stepped to p: scan the later dots in
        index order with a running count, stopping at three links. */
    method LinksOf(i: nat, p: Dot, dist: (Dot, Dot) -> real) returns (lines: seq<Line>)
      ensures lines == Linked(particles, i, p, i + 1, 0, dist)
    {
      lines := [];
      var connections := 0;
      var j := i + 1;
      ghost var all := Linked(particles, i, p, j, connections, dist);
      EmptyFirst(all);
      while j < |particles| && connections < MaxConnections
        invariant i + 1 <= j && connections <= MaxConnections
        invariant all == lines + Linked(particles, i, p, j, connections, dist)
        decreases |particles| - j
      {
        ghost var j0, made0, lines0 := j, connections, lines;
        var p2 := particles[j];
        var cdist := dist(p, p2);
        if cdist < ConnectionDistance {
          lines := lines + [Line(i, j, p.x, p.y, p2.x, p2.y, 1.0 - cdist / ConnectionDistance)];
          connections := connections + 1;
        }
        j := j + 1;
        LinkedNext(particles, i, p, dist, all, j0, made0, lines0, j, connections, lines);
      }
    }

    /** The moves of one dot within a frame, written as the loop body writes
        them: integrate, bounce off the walls, then the pointer's nudge. */
    method StepDot(d: Dot, mx: real, my: real, sqrt: real -> real) returns (p: Dot)
      ensures p == Step(d, width, height, mx, my, sqrt)
    {
      p := d;
      p := p.(x := p.x + p.vx);
      p := p.(y := p.y + p.vy);
      if p.x < 0.0 || p.x > width {
        p := p.(vx := p.vx * -1.0);
      }
      if p.y < 0.0 || p.y > height {
        p := p.(vy := p.vy * -1.0);
      }
      assert p == Drift(d, width, height);
      var dx := mx - p.x;
      var dy := my - p.y;
      var dist := sqrt(Sq(dx) + Sq(dy));
      if dist < MouseRadius {
        var force := (MouseRadius - dist) / MouseRadius;
        p := p.(x := p.x - dx * force * NudgeGain);
        p := p.(y := p.y - dy * force * NudgeGain);
      }
    }
  }
}
