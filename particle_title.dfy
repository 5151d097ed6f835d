/** The ParticleTitle object: its configuration, its canvas size, its
    particles and slices, the canvas-local pointer, its clock and its
    visibility flag, and the operations that rebuild and advance them. The
    font, the rendered mask, Math.random, Math.sin, Math.cos and Math.sqrt
    come in as parameters. */
module ParticleTitleEngine {
  import opened Common
  import opened GlyphSampling
  import opened GlyphMotion

  /** The fixed time step of one animation frame. */
  const FrameTime: real := 0.016

  datatype TitleConfig = TitleConfig(
    text: string,
    effect: string,
    colorDark: string,
    colorLight: string,
    baseSize: real,
    baseDensity: real,
    enableResistance: bool)

  /** The options a ParticleTitle falls back on for anything not configured. */
  const Defaults := TitleConfig("TEXT", "pulse", "#ffffff", "#111111", 2.4, 4.0, true)

  /** The configuration object a caller passes: each option may be absent. */
  datatype TitleOptions = TitleOptions(
    text: Option<string>,
    effect: Option<string>,
    colorDark: Option<string>,
    colorLight: Option<string>,
    baseSize: Option<real>,
    baseDensity: Option<real>,
    enableResistance: Option<bool>)

  const NoOptions := TitleOptions(None, None, None, None, None, None, None)

  /** Every option of a configuration, given. */
  function Given(c: TitleConfig): TitleOptions {
    TitleOptions(Some(c.text), Some(c.effect), Some(c.colorDark), Some(c.colorLight),
                 Some(c.baseSize), Some(c.baseDensity), Some(c.enableResistance))
  }

  function Or<T>(o: Option<T>, d: T): T {
    if o.Some? then o.value else d
  }

  /** The defaults overridden by whichever options are given. */
  function Configure(options: TitleOptions): (r: TitleConfig)
    ensures options.text.Some? ==> r.text == options.text.value
    ensures options.effect.Some? ==> r.effect == options.effect.value
    ensures options.colorDark.Some? ==> r.colorDark == options.colorDark.value
    ensures options.colorLight.Some? ==> r.colorLight == options.colorLight.value
    ensures options.baseSize.Some? ==> r.baseSize == options.baseSize.value
    ensures options.baseDensity.Some? ==> r.baseDensity == options.baseDensity.value
    ensures options.enableResistance.Some? ==> r.enableResistance == options.enableResistance.value
    ensures options.text.None? ==> r.text == "TEXT"
    ensures options.effect.None? ==> r.effect == "pulse"
    ensures options.colorDark.None? ==> r.colorDark == "#ffffff"
    ensures options.colorLight.None? ==> r.colorLight == "#111111"
    ensures options.baseSize.None? ==> r.baseSize == 2.4
    ensures options.baseDensity.None? ==> r.baseDensity == 4.0
    ensures options.enableResistance.None? ==> r.enableResistance
  {
    TitleConfig(Or(options.text, Defaults.text), Or(options.effect, Defaults.effect),
                Or(options.colorDark, Defaults.colorDark), Or(options.colorLight, Defaults.colorLight),
                Or(options.baseSize, Defaults.baseSize), Or(options.baseDensity, Defaults.baseDensity),
                Or(options.enableResistance, Defaults.enableResistance))
  }

  /** No options give the defaults; a full set of options is taken as is. */
  lemma ConfigureMerges(c: TitleConfig)
    ensures Configure(NoOptions) == Defaults
    ensures Configure(Given(c)) == c
  {
  }

  /** Distance from a particle to the pointer, computed only while the pointer
      is active (the pulse loop only takes the square root then). */
  function PointerDist(p: Glyph, m: Pointer, sqrt: real -> real): (r: real)
    ensures !m.isActive ==> r == 0.0
    ensures m.isActive && IsSqrt(sqrt) ==> r >= 0.0 && r * r == Sq(m.x - p.x) + Sq(m.y - p.y)
  {
    if m.isActive then sqrt(Sq(m.x - p.x) + Sq(m.y - p.y)) else 0.0
  }

  /** The particles after one pulse frame at the given time. */
  function Pulsed(ps: seq<Glyph>, m: Pointer, time: real, sin: real -> Wave, sqrt: real -> real): (r: seq<Glyph>)
    ensures |r| == |ps|
    ensures forall k :: 0 <= k < |ps| ==>
              r[k].originX == ps[k].originX && r[k].originY == ps[k].originY && r[k].phase == ps[k].phase &&
              r[k].isStubborn == ps[k].isStubborn && r[k].x == ps[k].x + r[k].vx && r[k].y == ps[k].y + r[k].vy
  {
    seq(|ps|, i requires 0 <= i < |ps| => PulseStep(ps[i], m, sin(time * 2.0 + ps[i].phase), PointerDist(ps[i], m, sqrt)))
  }

  function PulseDiscs(ps: seq<Glyph>): (r: seq<Disc>)
    ensures |r| == |ps|
    ensures forall k :: 0 <= k < |ps| ==> r[k].x == ps[k].x && r[k].y == ps[k].y && r[k].radius >= MinRadius
  {
    seq(|ps|, i requires 0 <= i < |ps| => PulseDisc(ps[i]))
  }

  /** The slices after one slice frame at the given time. */
  function Sliced(ss: seq<Slice>, m: Pointer, width: real, time: real, sin: real -> Wave, cos: real -> Wave): (r: seq<Slice>)
    ensures |r| == |ss|
    ensures forall k :: 0 <= k < |ss| ==>
              r[k].yStart == ss[k].yStart && r[k].yEnd == ss[k].yEnd && r[k].phase == ss[k].phase && r[k].speed == ss[k].speed
  {
    seq(|ss|, i requires 0 <= i < |ss| => SliceFrame(ss[i], m, width, sin(time * 3.0 + ss[i].phase), cos(time * 2.0 + ss[i].phase)))
  }

  /** The two slice loops in turn make one slice frame: the wave loop, then
      the push loop when the pointer is active. */
  lemma SlicedInTwoLoops(ss: seq<Slice>, m: Pointer, width: real, time: real, sin: real -> Wave, cos: real -> Wave,
                         waved: seq<Slice>, r: seq<Slice>)
    requires |waved| == |ss| &&
             forall k :: 0 <= k < |ss| ==> waved[k] == SliceWave(ss[k], sin(time * 3.0 + ss[k].phase), cos(time * 2.0 + ss[k].phase))
    requires m.isActive ==> |r| == |ss| && forall k :: 0 <= k < |ss| ==> r[k] == SlicePush(waved[k], m, width)
    requires !m.isActive ==> r == waved
    ensures r == Sliced(ss, m, width, time, sin, cos)
  {
  }

  function SliceDiscs(ps: seq<Glyph>, ss: seq<Slice>, time: real, sin: real -> Wave): (r: seq<Disc>)
    ensures |r| == |ps|
    ensures forall k :: 0 <= k < |ps| ==> r[k].radius >= MinRadius
  {
    seq(|ps|, i requires 0 <= i < |ps| => SliceDisc(ps[i], ss, sin(time * 1.5 + ps[i].phase)))
  }

  /** The inner lookup loop of the slice effect: scan the slices in order and
      stop at the first that holds oy; no slice means no offset. */
  method SliceOffset(slices: seq<Slice>, oy: real) returns (dx: real, dy: real)
    ensures FirstSlice(slices, oy).None? ==> dx == 0.0 && dy == 0.0
    ensures FirstSlice(slices, oy).Some? ==>
              dx == slices[FirstSlice(slices, oy).value].offsetX && dy == slices[FirstSlice(slices, oy).value].offsetY
  {
    dx, dy := 0.0, 0.0;
    var i := 0;
    while i < |slices|
      invariant 0 <= i <= |slices|
      invariant FirstSlice(slices, oy) == FirstSliceFrom(slices, oy, i)
      invariant dx == 0.0 && dy == 0.0
    {
      if Holds(slices[i], oy) {
        dx, dy := slices[i].offsetX, slices[i].offsetY;
        return;
      }
      i := i + 1;
    }
  }

  /** One pass of the row loop keeps its invariant: a covered point makes
      the next particle from the next draws, an uncovered one makes none. */
  lemma RowStep(covered: (int, nat) -> bool, width: real, step: int, y: nat, make: (Point, nat) -> Glyph, on: bool,
                all: seq<Glyph>, x: int, row: seq<Glyph>, drawn: nat, x': int, row': seq<Glyph>, drawn': nat)
    requires step > 0 && x >= 0 && (x as real) < width && x' == x + step
    requires all == row + MadeInOrder(RowHits(covered, width, step, y, x), make, on, drawn)
    requires covered(x, y) ==> row' == row + [make(Point(x, y), drawn)] && drawn' == drawn + DrawsBefore(1, on)
    requires !covered(x, y) ==> row' == row && drawn' == drawn
    ensures all == row' + MadeInOrder(RowHits(covered, width, step, y, x'), make, on, drawn')
  {
    var rest := RowHits(covered, width, step, y, x');
    if covered(x, y) {
      MadeCons(Point(x, y), rest, make, on, drawn);
      Regroup(row, [make(Point(x, y), drawn)], MadeInOrder(rest, make, on, drawn'));
    } else {
      assert RowHits(covered, width, step, y, x) == rest;
    }
  }

  /** One pass of the grid loop keeps its invariant: the particles so far,
      then those of the rows not yet scanned, are the whole sample, and the
      draws taken so far plus those still to come are all of them. */
  lemma GridRowStep(covered: (int, nat) -> bool, width: real, height: real, step: int, make: (Point, nat) -> Glyph, on: bool,
                    all: seq<Glyph>, total: nat, y: nat, ps: seq<Glyph>, drawn: nat, row: seq<Glyph>,
                    y': int, ps': seq<Glyph>, drawn': nat)
    requires step > 0 && (y as real) < height && y' == y + step
    requires all == ps + MadeInOrder(GridHits(covered, width, height, step, y), make, on, drawn)
    requires drawn + DrawsBefore(|GridHits(covered, width, height, step, y)|, on) == total
    requires row == MadeInOrder(RowHits(covered, width, step, y, 0), make, on, drawn)
    requires ps' == ps + row && drawn' == drawn + DrawsBefore(|row|, on)
    ensures all == ps' + MadeInOrder(GridHits(covered, width, height, step, y'), make, on, drawn')
    ensures drawn' + DrawsBefore(|GridHits(covered, width, height, step, y')|, on) == total
  {
    var line, rest := RowHits(covered, width, step, y, 0), GridHits(covered, width, height, step, y');
    MadeAppend(line, rest, make, on, drawn);
    Regroup(ps, row, MadeInOrder(rest, make, on, drawn'));
  }

  /** The inner sampling loop over row y: the particles make builds on the
      covered grid points of the row, left to right, the first from draw
      index at on. */
  method SampleRow(covered: (int, nat) -> bool, width: real, step: int, y: nat, make: (Point, nat) -> Glyph, on: bool, at: nat)
    returns (row: seq<Glyph>)
    requires step > 0
    ensures row == MadeInOrder(RowHits(covered, width, step, y, 0), make, on, at)
  {
    ghost var all := MadeInOrder(RowHits(covered, width, step, y, 0), make, on, at);
    EmptyFirst(all);
    row := [];
    var drawn: nat := at;
    var x := 0;
    while (x as real) < width
      invariant x >= 0
      invariant all == row + MadeInOrder(RowHits(covered, width, step, y, x), make, on, drawn)
      decreases width.Floor - x
    {
      ghost var x0, row0, drawn0 := x, row, drawn;
      if covered(x, y) {
        row := row + [make(Point(x, y), drawn)];
        drawn := drawn + DrawsBefore(1, on);
      }
      x := x + step;
      RowStep(covered, width, step, y, make, on, all, x0, row0, drawn0, x, row, drawn);
    }
  }

  /** The two nested sampling loops: the particles make builds on the
      covered grid points in row-major order, and how many draws they took. */
  method SampleGrid(covered: (int, nat) -> bool, width: real, height: real, step: int, make: (Point, nat) -> Glyph, on: bool)
    returns (ps: seq<Glyph>, drawn: nat)
    requires step > 0
    ensures var hits := GridHits(covered, width, height, step, 0);
            ps == MadeInOrder(hits, make, on, 0) && drawn == DrawsBefore(|hits|, on)
  {
    ghost var hits := GridHits(covered, width, height, step, 0);
    ghost var all, total := MadeInOrder(hits, make, on, 0), DrawsBefore(|hits|, on);
    EmptyFirst(all);
    ps := [];
    drawn := 0;
    var y := 0;
    while (y as real) < height
      invariant y >= 0
      invariant all == ps + MadeInOrder(GridHits(covered, width, height, step, y), make, on, drawn)
      invariant drawn + DrawsBefore(|GridHits(covered, width, height, step, y)|, on) == total
      decreases height.Floor - y
    {
      var row := SampleRow(covered, width, step, y, make, on, drawn);
      ghost var y0, ps0, drawn0 := y, ps, drawn;
      ps := ps + row;
      drawn := drawn + DrawsBefore(|row|, on);
      y := y + step;
      GridRowStep(covered, width, height, step, make, on, all, total, y0, ps0, drawn0, row, y, ps, drawn);
    }
  }

  /** The first loop of the slice effect: every slice takes its wave step. */
  method WaveSlices(ss: seq<Slice>, time: real, sin: real -> Wave, cos: real -> Wave) returns (r: seq<Slice>)
    ensures |r| == |ss|
    ensures forall k :: 0 <= k < |ss| ==>
              r[k] == SliceWave(ss[k], sin(time * 3.0 + ss[k].phase), cos(time * 2.0 + ss[k].phase))
  {
    r := ss;
    var i := 0;
    while i < |r|
      invariant 0 <= i <= |r| == |ss|
      invariant forall k :: 0 <= k < i ==> r[k] == SliceWave(ss[k], sin(time * 3.0 + ss[k].phase), cos(time * 2.0 + ss[k].phase))
      invariant forall k :: i <= k < |ss| ==> r[k] == ss[k]
    {
      var s := r[i];
      r := r[i := SliceWave(s, sin(time * 3.0 + s.phase), cos(time * 2.0 + s.phase))];
      i := i + 1;
    }
  }

  /** The second loop of the slice effect (run only while the pointer is
      active): every slice takes the pointer's push. */
  method PushSlices(ss: seq<Slice>, m: Pointer, width: real) returns (r: seq<Slice>)
    ensures |r| == |ss|
    ensures forall k :: 0 <= k < |ss| ==> r[k] == SlicePush(ss[k], m, width)
  {
    r := ss;
    var i := 0;
    while i < |r|
      invariant 0 <= i <= |r| == |ss|
      invariant forall k :: 0 <= k < i ==> r[k] == SlicePush(ss[k], m, width)
      invariant forall k :: i <= k < |ss| ==> r[k] == ss[k]
    {
      r := r[i := SlicePush(r[i], m, width)];
      i := i + 1;
    }
  }

  /** The particle loop of the slice effect: each particle drawn at its
      origin plus the offset its slice lookup finds. */
  method SliceDraws(particles: seq<Glyph>, slices: seq<Slice>, time: real, sin: real -> Wave) returns (draws: seq<Disc>)
    ensures draws == SliceDiscs(particles, slices, time, sin)
  {
    draws := [];
    var j := 0;
    while j < |particles|
      invariant 0 <= j <= |particles|
      invariant |draws| == j && forall k :: 0 <= k < j ==> draws[k] == SliceDisc(particles[k], slices, sin(time * 1.5 + particles[k].phase))
    {
      var p := particles[j];
      var dx, dy := SliceOffset(slices, p.originY);
      var breathe := sin(time * 1.5 + p.phase);
      draws := draws + [Disc(p.originX + dx, p.originY + dy, Radius(p.baseSize + breathe * SliceBreathe))];
      j := j + 1;
    }
  }

  /** getImageData throws IndexSizeError when its width or height, truncated
      toward zero to a whole number, is 0: a canvas narrower than one pixel,
      or one whose size was never set (undefined reads as 0). */
  predicate ImageDataThrows(width: real, height: real) {
    -1.0 < width < 1.0 || -1.0 < height < 1.0
  }

  class ParticleTitle {
    const config: TitleConfig
    var width: real
    var height: real
    var particles: seq<Glyph>
    var slices: seq<Slice>
    var mouse: Pointer
    var time: real
    var isVisible: bool

    /** A title built from its options: the defaults merged with the options,
        no particles or slices, the pointer away, the clock at zero and the
        canvas not yet visible; then the canvas is sized, the particles are
        generated, and a first frame runs, which draws and changes nothing
        because the canvas is not yet known to be visible. When the mask read
        throws, the particles stay cleared and the rest of the start-up is
        skipped. */
    constructor (options: TitleOptions, containerWidth: Option<real>, glyphMask: Option<seq<int>>,
                 rand: nat -> Unit, theme: Option<string>, sin: real -> Wave, cos: real -> Wave, sqrt: real -> real)
      ensures config == Configure(options)
      ensures mouse == Away && time == 0.0 && !isVisible
      ensures containerWidth.None? ==> width == 0.0 && height == 0.0
      ensures containerWidth.Some? ==> width == containerWidth.value && height == CalculateHeight(width)
      ensures glyphMask.None? ==> particles == [] && slices == []
      ensures glyphMask.Some? && ImageDataThrows(width, height) ==> particles == [] && slices == []
      ensures glyphMask.Some? && !ImageDataThrows(width, height) ==>
                var hits := GridHits(CoverTest(glyphMask.value, width), width, height, SamplingStep(width, config.baseDensity), 0);
                var on := config.enableResistance;
                particles == Seeded(hits, config.baseSize, on, rand, 0) &&
                slices == if config.effect == "slice" then BuiltSlices(height, rand, DrawsBefore(|hits|, on)) else []
    {
      config := Configure(options);
      width, height := 0.0, 0.0;
      particles, slices := [], [];
      mouse := Away;
      time := 0.0;
      isVisible := false;
      new;
      SetupCanvas(containerWidth);
      var thrown := GenerateParticles(glyphMask, rand);
      if thrown {
        return;
      }
      var _, _ := Animate(theme, sin, cos, sqrt);
    }

    /** Size the canvas from its container's width; without a container
        nothing changes. */
    method SetupCanvas(containerWidth: Option<real>)
      modifies this`width, this`height
      ensures containerWidth.None? ==> width == old(width) && height == old(height)
      ensures containerWidth.Some? ==> width == containerWidth.value && height == CalculateHeight(width)
    {
      if containerWidth.None? {
        return;
      }
      width := containerWidth.value;
      height := CalculateHeight(width);
    }

    /** Rebuild the particles from the rendered glyph mask (None: the font
        has not loaded, and nothing changes). The particles are cleared first;
        if the mask read then throws, thrown is true and the slices are left
        as they were. Otherwise particles come from the covered grid points in
        row-major order, drawing from rand in that order; on the slice effect
        the slices are rebuilt from the draws that follow. */
    method GenerateParticles(glyphMask: Option<seq<int>>, rand: nat -> Unit) returns (thrown: bool)
      modifies this`particles, this`slices
      ensures thrown <==> glyphMask.Some? && ImageDataThrows(width, height)
      ensures glyphMask.None? ==> particles == old(particles) && slices == old(slices)
      ensures thrown ==> particles == [] && slices == old(slices)
      ensures glyphMask.Some? && !thrown ==>
                var hits := GridHits(CoverTest(glyphMask.value, width), width, height, SamplingStep(width, config.baseDensity), 0);
                var on := config.enableResistance;
                particles == Seeded(hits, config.baseSize, on, rand, 0) &&
                slices == if config.effect == "slice" then BuiltSlices(height, rand, DrawsBefore(|hits|, on)) else old(slices)
    {
      thrown := false;
      if glyphMask.None? {
        return;
      }
      particles := [];
      if ImageDataThrows(width, height) {
        thrown := true;
        return;
      }
      var mask := glyphMask.value;
      var step := SamplingStep(width, config.baseDensity);
      var ps, drawn := SampleGrid(CoverTest(mask, width), width, height, step, Maker(config.baseSize, config.enableResistance, rand), config.enableResistance);
      particles := ps;
      if config.effect == "slice" {
        BuildSlices(rand, drawn);
      }
    }

    /** Replace the slices with 5 to 8 fresh ones over the canvas height. */
    method BuildSlices(rand: nat -> Unit, at: nat)
      modifies this`slices
      ensures slices == BuiltSlices(height, rand, at)
    {
      var n := SliceCount(rand(at));
      var ss: seq<Slice> := [];
      var i := 0;
      while i < n
        invariant 0 <= i <= n
        invariant |ss| == i && forall k :: 0 <= k < i ==> ss[k] == MakeSlice(k, n, height, rand, at + 1 + 2 * k)
      {
        ss := ss + [Slice(Cut(i, n, height), Cut(i + 1, n, height),
                          0.0, 0.0, 0.0, 0.0,
                          rand(at + 1 + 2 * i) * Pi * 2.0, 0.005 + rand(at + 2 + 2 * i) * 0.01)];
        i := i + 1;
      }
      slices := ss;
    }

    /** mousemove on the canvas: the pointer in canvas coordinates, active. */
    method OnMouseMove(clientX: real, clientY: real, rectLeft: real, rectTop: real)
      modifies this`mouse
      ensures mouse == Pointer(clientX - rectLeft, clientY - rectTop, true)
    {
      mouse := Pointer(clientX - rectLeft, clientY - rectTop, true);
    }

    /** mouseleave: the pointer inactive and far away. */
    method OnMouseLeave()
      modifies this`mouse
      ensures mouse == Away
    {
      mouse := Away;
    }

    /** The visibility observer's callback. */
    method OnIntersection(isIntersecting: bool)
      modifies this`isVisible
      ensures isVisible == isIntersecting
    {
      isVisible := isIntersecting;
    }

    /** The debounced resize: size the canvas again and regenerate; thrown
        reports a throw of the mask read, which ends the timer callback. */
    method OnResize(containerWidth: Option<real>, glyphMask: Option<seq<int>>, rand: nat -> Unit) returns (thrown: bool)
      modifies this`width, this`height, this`particles, this`slices
      ensures containerWidth.Some? ==> width == containerWidth.value && height == CalculateHeight(width)
      ensures containerWidth.None? ==> width == old(width) && height == old(height)
      ensures thrown <==> glyphMask.Some? && ImageDataThrows(width, height)
      ensures glyphMask.None? ==> particles == old(particles) && slices == old(slices)
      ensures thrown ==> particles == [] && slices == old(slices)
      ensures glyphMask.Some? && !thrown ==>
                |particles| == |GridHits(CoverTest(glyphMask.value, width), width, height, SamplingStep(width, config.baseDensity), 0)|
    {
      SetupCanvas(containerWidth);
      thrown := GenerateParticles(glyphMask, rand);
    }

    /** One pulse frame: every particle takes its PulseStep and is drawn, all
        in the one fill colour the page theme selects. */
    method RenderPulse(theme: Option<string>, sin: real -> Wave, sqrt: real -> real) returns (draws: seq<Disc>, colour: string)
      modifies this`particles
      ensures colour == GetColor(theme, config.colorLight, config.colorDark)
      ensures particles == Pulsed(old(particles), mouse, time, sin, sqrt)
      ensures draws == PulseDiscs(particles)
    {
      colour := GetColor(theme, config.colorLight, config.colorDark);
      ghost var before := particles;
      ghost var after := Pulsed(before, mouse, time, sin, sqrt);
      draws := [];
      var i := 0;
      while i < |particles|
        invariant 0 <= i <= |particles| == |before|
        invariant forall k :: 0 <= k < i ==> particles[k] == after[k]
        invariant forall k :: i <= k < |before| ==> particles[k] == before[k]
        invariant |draws| == i && forall k :: 0 <= k < i ==> draws[k] == PulseDisc(after[k])
      {
        var p := particles[i];
        var breathe := sin(time * 2.0 + p.phase);
        var dist := 0.0;
        if mouse.isActive {
          dist := sqrt(Sq(mouse.x - p.x) + Sq(mouse.y - p.y));
        }
        assert dist == PointerDist(p, mouse, sqrt);
        var q := PulseStep(p, mouse, breathe, dist);
        assert q == after[i];
        particles := particles[i := q];
        draws := draws + [PulseDisc(q)];
        i := i + 1;
      }
    }

    /** One slice frame: every slice takes its wave (and, with the pointer
        active, its push), then every particle is drawn at its origin shifted
        by its slice's offset, all in the one fill colour the page theme
        selects. */
    method RenderSlice(theme: Option<string>, sin: real -> Wave, cos: real -> Wave) returns (draws: seq<Disc>, colour: string)
      modifies this`slices
      ensures colour == GetColor(theme, config.colorLight, config.colorDark)
      ensures slices == Sliced(old(slices), mouse, width, time, sin, cos)
      ensures draws == SliceDiscs(particles, slices, time, sin)
    {
      colour := GetColor(theme, config.colorLight, config.colorDark);
      ghost var ss := slices;
      slices := WaveSlices(slices, time, sin, cos);
      ghost var waved := slices;
      if mouse.isActive {
        slices := PushSlices(slices, mouse, width);
      }
      SlicedInTwoLoops(ss, mouse, width, time, sin, cos, waved, slices);
      draws := SliceDraws(particles, slices, time, sin);
    }

    /** One tick of the frame driver: only a visible title advances its clock
        by 0.016 and renders; the effect "pulse" renders pulses, "slice"
        renders slices and any other effect draws nothing. colour is the fill
        colour of a frame that renders, and None when nothing renders. */
    method Animate(theme: Option<string>, sin: real -> Wave, cos: real -> Wave, sqrt: real -> real)
      returns (draws: seq<Disc>, colour: Option<string>)
      modifies this`time, this`particles, this`slices
      ensures colour == if old(isVisible) && (config.effect == "pulse" || config.effect == "slice")
                        then Some(GetColor(theme, config.colorLight, config.colorDark)) else None
      ensures !old(isVisible) ==> draws == [] && time == old(time) && particles == old(particles) && slices == old(slices)
      ensures old(isVisible) ==> time == old(time) + FrameTime
      ensures old(isVisible) && config.effect == "pulse" ==>
                particles == Pulsed(old(particles), mouse, time, sin, sqrt) && slices == old(slices) &&
                draws == PulseDiscs(particles)
      ensures old(isVisible) && config.effect == "slice" ==>
                slices == Sliced(old(slices), mouse, width, time, sin, cos) && particles == old(particles) &&
                draws == SliceDiscs(particles, slices, time, sin)
      ensures config.effect != "pulse" && config.effect != "slice" ==>
                draws == [] && particles == old(particles) && slices == old(slices)
      ensures forall k :: 0 <= k < |draws| ==> draws[k].radius >= MinRadius
    {
      draws, colour := [], None;
      if isVisible {
        time := time + FrameTime;
        var c: string;
        if config.effect == "pulse" {
          draws, c := RenderPulse(theme, sin, sqrt);
          colour := Some(c);
        } else if config.effect == "slice" {
          draws, c := RenderSlice(theme, sin, cos);
          colour := Some(c);
        }
      }
    }
  }
}
