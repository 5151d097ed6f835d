# Particle engines of the personal homepage, in Dafny

This project models the two canvas particle engines of the homepage and proves what they promise.

**ParticleTitle** (`Assets/js/particle-title.js`) draws a text as particles:
- it sizes its canvas from the container width;
- it samples the rendered glyph mask on a square grid to seed one particle per covered grid point;
- on the "slice" effect it cuts the canvas into 5 to 8 horizontal bands;
- each visible frame it advances either the "pulse" effect or the "slice" effect:
  - "pulse" is a damped spring with a pointer impulse and size easing;
  - "slice" gives each band sinusoidal target offsets, eases toward them and adds a pointer push.

**ParticleBackground** (`Assets/js/script.js`) runs the background network:
- it seeds floor(area / density) dots;
- each frame it moves every dot in place (integration, wall bounce, a nudge away from the pointer);
- it strokes links from each dot to at most three later dots closer than 150, taken in index order.

Modules:
- `Common`: the shared vocabulary (`Option`, the range types of Math.random and Math.sin, `IsSqrt`, a drawn `Disc`).
- `GlyphSampling`: canvas height, sampling step, glyph placement, the alpha test and the exact grid sample.
- `GlyphMotion`: title particles and slices as values and their per-frame steps, slice partition and lookup.
- `ParticleTitleEngine`: the `ParticleTitle` class and the loops of its methods.
- `NetworkModel`: the background dots as values — seeding, one dot's frame, the link selection.
- `ParticleBackgroundEngine`: the `ParticleBackground` class and the shared `mouse` record (`SharedPointer`).

How the browser and the JavaScript runtime are modelled:
- JavaScript numbers are `real`s.
- `Math.random` is a stream `rand: nat -> Unit` of values in [0, 1). It is read in the order the source evaluates its calls.
- `Math.sin` and `Math.cos` are parameters with results in [-1, 1].
- `Math.sqrt` is a parameter. The lemmas that need it ask for `IsSqrt`.
- Canvas drawing becomes the list of discs (and lines) a frame returns.
- The rendered glyph mask is an input byte sequence. `None` stands for a font that has not loaded.
- Reading the mask at a fractional or out-of-range index yields JavaScript's `undefined`, which never exceeds 128. The engine's width may be fractional, as the container's measured width is.

Three details of the code the model follows:
- the sampling step below the 768-pixel breakpoint scales the density by 1.5, not 2;
- with no font loaded `generateParticles` returns before clearing, so the old particles and slices are kept;
- the pointer's push on a slice is added to `targetOffsetX` only. That frame's `offsetX` has already been eased, and the next frame overwrites the target from the sinusoid before easing, so the push never reaches a drawn offset (`SliceOffsetIgnoresPointer` for the frame itself, `WaveForgetsTarget` and `PushNeverDrawn` for the next one).

## Model

| member | source | states |
|---|---|---|
| GlyphSampling.CalculateHeight | Assets/js/particle-title.js:79-82 | the height is 1.2 times the font size 0.12 * width, but never below 60 |
| GlyphSampling.Round | Assets/js/particle-title.js:107 | Math.round gives the integer within half a unit, halves rounding up |
| GlyphSampling.SamplingStep | Assets/js/particle-title.js:107 | the grid step is the density, scaled by 1.5 below width 768 and rounded; it is never below 2 and equals 2 or the rounded value |
| GlyphSampling.DefaultStep | Assets/js/particle-title.js:107 | with the default density 4 the step is 6 below width 768 and 4 otherwise |
| GlyphSampling.Placement | Assets/js/particle-title.js:90-102 | the shifted text path has its box centred horizontally on the canvas, and vertically it sits 5% of its height above the centre |
| GlyphSampling.ReadByte | Assets/js/particle-title.js:111-112 | an element is read exactly when the index is whole and in range; otherwise the read is undefined |
| GlyphSampling.Covered | Assets/js/particle-title.js:111-112 | a grid point is covered when the alpha byte read at ((y * width + x) * 4 + 3) exists and exceeds 128 |
| GlyphSampling.CoveredOnIntegralWidth | Assets/js/particle-title.js:111-112 | on an integral width with a full mask, the test reads exactly the alpha byte (y * width + x) * 4 + 3, which lies in the mask, and compares it with 128 |
| GlyphSampling.RowHits | Assets/js/particle-title.js:110-112 | the covered points the column loop finds in row y from column x on, left to right |
| GlyphSampling.GridHits | Assets/js/particle-title.js:109-129 | the covered points the two loops find from row y on, row by row |
| GlyphSampling.RowHitsSound | Assets/js/particle-title.js:110-112 | every point the inner loop keeps is a covered grid point of its row inside the canvas, and the points come in increasing x |
| GlyphSampling.RowHitsComplete | Assets/js/particle-title.js:110-112 | every covered grid column of the row from the start column on is kept |
| GlyphSampling.GridHitsSound | Assets/js/particle-title.js:109-129 | every sampled point is a covered grid point inside the canvas, and the sample is in row-major order |
| GlyphSampling.GridHitsComplete | Assets/js/particle-title.js:109-129 | every covered grid point from the start row on is sampled |
| GlyphSampling.SampleIsExact | Assets/js/particle-title.js:109-129 | a point is sampled if and only if it is a covered grid point; no point is sampled twice; the order is row-major; the sample reads no random draw |
| GlyphMotion.Radius | Assets/js/particle-title.js:243 | the drawn radius is the size clamped below at 0.5 |
| GlyphMotion.GetColor | Assets/js/particle-title.js:188-191 | the theme "light" selects the light colour, and any other or missing theme selects the dark one; `RenderPulse`, `RenderSlice` and `Animate` state that every frame fills with this colour |
| GlyphMotion.Jitter | Assets/js/particle-title.js:118-119 | a jittered size lies in [0.5, 1) times a positive base size |
| GlyphMotion.NewGlyph | Assets/js/particle-title.js:113-125 | a new particle sits at rest on its grid point with its origin there, both sizes are in [0.5, 1) * baseSize, the phase is in [0, 2 * pi), the speed is in [0.02, 0.04), and it is stubborn only if resistance is enabled |
| GlyphMotion.MadeInOrder | Assets/js/particle-title.js:109-127 | the particles pushed by the sampling loops, one per grid point in the order the points come, each taking its draws after those of the one before it |
| GlyphMotion.MadeAt | Assets/js/particle-title.js:109-127 | the k-th particle made stands on the k-th hit and uses the draws after those of the k particles before it |
| GlyphMotion.MadeAppend | Assets/js/particle-title.js:109-129 | making two runs of hits one after the other equals making their concatenation; the second run starts where the first run's draws end |
| GlyphMotion.Seeded | Assets/js/particle-title.js:109-127 | the seeding makes exactly one particle per hit |
| GlyphMotion.SeededAt | Assets/js/particle-title.js:113-126 | there is one seeded particle per hit, and particle k is a fresh particle on hit k made from the draws after 5k (4k without resistance) |
| GlyphMotion.SizesIndependent | Assets/js/particle-title.js:118-119 | size and baseSize come from distinct draws: changing the draw behind size changes nothing else |
| GlyphMotion.PulseForce | Assets/js/particle-title.js:221-222 | inside radius 80 of an active pointer the force is in (0, 1]; otherwise it is 0 |
| GlyphMotion.PulseTarget | Assets/js/particle-title.js:213-228 | the target size is exactly the base size plus 0.3 times the breathing sine when no active pointer is within 80; within 80 of an active pointer it is that value plus a bump in (0, 2] |
| GlyphMotion.PulseStep | Assets/js/particle-title.js:212-240 | only x, y, vx, vy and size change (origin, phase and stubbornness never); the position moves by the new velocity; the size closes exactly 10% of its gap to the target, so it never passes it |
| GlyphMotion.PulseDragThenSpring | Assets/js/particle-title.js:231-236 | unless an active pointer is within 80 of an ordinary particle (inactive pointer, pointer out of reach, or stubborn particle), the new velocity is 0.92 times the old one plus the spring pull toward the origin, with constant 0.15 for a stubborn particle and 0.06 otherwise |
| GlyphMotion.StubbornIgnoresPointer | Assets/js/particle-title.js:223-226 | a stubborn particle's position and velocity do not depend on the pointer |
| GlyphMotion.OrdinaryFeelsPointer | Assets/js/particle-title.js:216-236 | compared with the same frame without the pointer, an ordinary particle within 80 of an active pointer has its new vx lowered by 0.92 * 0.03 * force * dx and its new vy by 0.92 * 0.03 * force * dy, where (dx, dy) runs from the particle to the pointer: it is pushed away from the pointer on each axis where they differ |
| GlyphMotion.RestIsFixed | Assets/js/particle-title.js:212-240 | a particle at rest on its origin with the pointer inactive stays at rest on its origin |
| GlyphMotion.PulseDisc | Assets/js/particle-title.js:243 | a pulse particle is drawn at its new position with radius at least 0.5 and at least its size |
| GlyphMotion.SliceWave | Assets/js/particle-title.js:253-256 | the targets are sinX * 8 and cosY * 3, so within 8 in x and 3 in y; each offset closes 5% of its gap to the new target; nothing else changes |
| GlyphMotion.SlicePush | Assets/js/particle-title.js:261-268 | only targetOffsetX changes, by at most 30; it grows if and only if the slice centre is within 60 of the pointer's y and the pointer is in the right half, and shrinks if and only if the centre is within 60 and the pointer is in the left half |
| GlyphMotion.SliceOffsetIgnoresPointer | Assets/js/particle-title.js:252-270 | a slice frame's offsets (and y target) are the same whatever the pointer does |
| GlyphMotion.SliceFrame | Assets/js/particle-title.js:252-270 | a slice frame is the wave step with at most the x target changed; with the pointer inactive it is the wave step alone, and with it active the x target is the pushed one; the x target stays within 8 + 30 and the y target within 3 |
| GlyphMotion.WaveForgetsTarget | Assets/js/particle-title.js:253-256 | the wave step ignores whatever targets the slice carries in |
| GlyphMotion.PushNeverDrawn | Assets/js/particle-title.js:252-270 | over two frames, the slice after the second is the same whatever the pointer did in the first: a push never reaches a drawn offset |
| GlyphMotion.FirstSlice | Assets/js/particle-title.js:272-280 | the lookup loop from slice 0 picks the first slice holding the origin y, no earlier slice holds it, and with no pick no slice holds it |
| GlyphMotion.FirstSliceFrom | Assets/js/particle-title.js:274-280 | the lookup returns the first slice from the start index on that holds the origin y; no slice before it holds it; with no result, no slice holds it |
| GlyphMotion.SliceLookupExact | Assets/js/particle-title.js:272-280 | on a partition of [0, height), every origin y in range is held by exactly one slice, and the lookup finds it |
| GlyphMotion.SliceDisc | Assets/js/particle-title.js:272-291 | a slice particle is drawn at its origin shifted by its slice's offsets, or unshifted when no slice holds it, with radius at least 0.5 |
| GlyphMotion.SliceCount | Assets/js/particle-title.js:137 | there are between 5 and 8 slices |
| GlyphMotion.Cut | Assets/js/particle-title.js:142-143 | a boundary i of n with 0 <= i <= n lies in [0, height] |
| GlyphMotion.MakeSlice | Assets/js/particle-title.js:140-149 | slice i runs from boundary i to boundary i + 1, starts with zero offsets and targets, a phase in [0, 2 * pi) and a speed in [0.005, 0.015) |
| GlyphMotion.CutsRise | Assets/js/particle-title.js:142-143 | slice boundaries never go down, start at 0 and end at the height |
| GlyphMotion.BuiltSlices | Assets/js/particle-title.js:136-151 | there are between 5 and 8 built slices |
| GlyphMotion.BuiltSlicesTile | Assets/js/particle-title.js:136-151 | buildSlices makes 5 to 8 slices that partition [0, height), all with zero offsets and targets |
| ParticleTitleEngine.SlicedInTwoLoops | Assets/js/particle-title.js:252-270 | the wave loop followed by the push loop (run only with an active pointer) is one slice frame per slice |
| ParticleTitleEngine.PointerDist | Assets/js/particle-title.js:216-219 | with the pointer active the distance is the non-negative square root of dx * dx + dy * dy; with it inactive no distance is taken (0) |
| ParticleTitleEngine.Pulsed | Assets/js/particle-title.js:212-240 | a pulse frame keeps the number of particles and each one's origin, phase and stubbornness, and moves each by its new velocity |
| ParticleTitleEngine.PulseDiscs | Assets/js/particle-title.js:242-245 | each particle is drawn once, at its position, with radius at least 0.5 |
| ParticleTitleEngine.Sliced | Assets/js/particle-title.js:252-270 | a slice frame keeps the number of slices and each one's bounds, phase and speed |
| ParticleTitleEngine.SliceDiscs | Assets/js/particle-title.js:272-294 | each particle is drawn once, with radius at least 0.5 |
| ParticleTitleEngine.Configure | Assets/js/particle-title.js:26-36 | every given option is taken and every missing one falls back on its default ("TEXT", "pulse", "#ffffff", "#111111", 2.4, 4, true) |
| ParticleTitleEngine.ConfigureMerges | Assets/js/particle-title.js:26-36 | no options give the defaults, and a full set of options is taken unchanged |
| ParticleTitleEngine.SliceOffset | Assets/js/particle-title.js:273-280 | the lookup loop with its break yields the offsets of the first slice holding the origin y, or zero |
| ParticleTitleEngine.RowStep | Assets/js/particle-title.js:110-128 | one pass of the column loop keeps its invariant: particles so far plus particles still to come are the row's particles |
| ParticleTitleEngine.GridRowStep | Assets/js/particle-title.js:109-129 | one pass of the row loop keeps its invariant on particles and on draws consumed |
| ParticleTitleEngine.SampleRow | Assets/js/particle-title.js:110-128 | the column loop makes one particle per covered grid point of the row, in order, from consecutive draws |
| ParticleTitleEngine.SampleGrid | Assets/js/particle-title.js:109-129 | the two loops make one particle per hit of the exact sample, in row-major order, and consume exactly the draws of those particles |
| ParticleTitleEngine.WaveSlices | Assets/js/particle-title.js:252-257 | the first slice loop replaces every slice by its wave step |
| ParticleTitleEngine.PushSlices | Assets/js/particle-title.js:259-270 | the second slice loop replaces every slice by its push |
| ParticleTitleEngine.SliceDraws | Assets/js/particle-title.js:272-294 | the particle loop draws every particle as its slice disc |
| ParticleTitleEngine.ParticleTitle.constructor | Assets/js/particle-title.js:25-59 | the configuration is the defaults merged with the given options; the pointer is away and inactive at (-9999, -9999), time is 0 and the title is not visible; the canvas is sized from the container (left at 0 without one); the particles are the seeded exact sample of the mask (none without a font) and, on the slice effect, the slices are built from the draws that follow; when the mask read throws (a canvas under one pixel wide, or without a container) there are no particles or slices and the first frame is skipped; otherwise the first frame changes nothing |
| ParticleTitleEngine.ParticleTitle.SetupCanvas | Assets/js/particle-title.js:61-77 | with a container, width is its width and height is calculateHeight of it; without one nothing changes |
| ParticleTitleEngine.ParticleTitle.GenerateParticles | Assets/js/particle-title.js:84-134 | without a font nothing changes; with one the particles are cleared, and the mask read throws exactly when the canvas width or height truncates to 0, leaving no particles and the old slices; otherwise the particles are the seeded exact sample of the mask, and on the slice effect the slices are rebuilt from the draws that follow |
| ParticleTitleEngine.ParticleTitle.BuildSlices | Assets/js/particle-title.js:136-152 | the slices are replaced by the built slices (which partition the height) |
| ParticleTitleEngine.ParticleTitle.OnMouseMove | Assets/js/particle-title.js:155-160 | the pointer becomes the client position relative to the canvas, and active |
| ParticleTitleEngine.ParticleTitle.OnMouseLeave | Assets/js/particle-title.js:162-166 | the pointer becomes inactive at (-9999, -9999) |
| ParticleTitleEngine.ParticleTitle.OnIntersection | Assets/js/particle-title.js:179-182 | visibility follows the observer's entry |
| ParticleTitleEngine.ParticleTitle.OnResize | Assets/js/particle-title.js:169-175 | the canvas is sized again and the particles regenerated, with as many particles as the new sample has hits; a throw of the mask read is reported and leaves no particles and the old slices |
| ParticleTitleEngine.ParticleTitle.RenderPulse | Assets/js/particle-title.js:208-247 | every particle takes its pulse step in place, and each is drawn once after its step; the fill colour is the one the theme selects |
| ParticleTitleEngine.ParticleTitle.RenderSlice | Assets/js/particle-title.js:249-295 | every slice takes its frame, then every particle is drawn at its origin shifted by its slice's new offset; the fill colour is the one the theme selects |
| ParticleTitleEngine.ParticleTitle.Animate | Assets/js/particle-title.js:193-206 | a hidden title changes nothing and draws nothing; a visible one advances time by 0.016 and runs "pulse" or "slice", and any other effect draws nothing; a rendering frame fills with the theme's colour; every drawn radius is at least 0.5 |
| NetworkModel.ParticleCount | Assets/js/script.js:48-51 | the count is the largest n with n * density <= area, with density 24000 below width 768 and 12000 otherwise |
| NetworkModel.DensityFor | Assets/js/script.js:48-50 | the density is 24000 below width 768 and 12000 from 768 on |
| NetworkModel.DotCount | Assets/js/script.js:48-54 | on a non-negative area the count is the largest n with n * density <= area; on a negative one no dot is made |
| NetworkModel.Spread | Assets/js/script.js:56-57 | a random position lies in [0, span) |
| NetworkModel.SeedDot | Assets/js/script.js:55-61 | a seeded dot lies on the canvas, with vx and vy in [-0.15, 0.15) and radius in [0.5, 2) |
| NetworkModel.GrownAt | Assets/js/script.js:53-62 | after n pushes, dot k is the k-th seed |
| NetworkModel.SeedsAt | Assets/js/script.js:53-62 | createParticles makes n dots; dot k comes from draws 5k to 5k + 4 and starts calm |
| NetworkModel.Seeds | Assets/js/script.js:53-62 | the seeding has exactly n dots |
| NetworkModel.Drift | Assets/js/script.js:100-104 | the dot moves by its velocity; a velocity component flips exactly when the moved dot is beyond that wall; speeds and radius are kept and the position is not clamped |
| NetworkModel.BounceTurnsInward | Assets/js/script.js:100-104 | a dot that starts on the canvas and crosses a wall gets a velocity pointing back inward |
| NetworkModel.Force | Assets/js/script.js:110-111 | inside the mouse radius the force is in (0, 1] |
| NetworkModel.Near | Assets/js/script.js:124-128 | two dots are linked candidates when their squared distance is below 150 * 150 |
| NetworkModel.Nudge | Assets/js/script.js:106-114 | the nudge never touches velocity or radius, and beyond radius 180 it changes nothing |
| NetworkModel.NudgePushesAway | Assets/js/script.js:106-114 | inside radius 180 the nudge scales the dot's offset from the pointer by a factor in (1, 1.02], moving it straight away |
| NetworkModel.Step | Assets/js/script.js:100-114 | a dot's frame keeps its speeds up to sign and its radius |
| NetworkModel.Frame | Assets/js/script.js:97-114 | the dots after one frame: each dot of the array takes its own step, and the count is kept |
| NetworkModel.FrameOf | Assets/js/script.js:97-114 | stepping every dot of the array in place gives the frame |
| NetworkModel.FrameKeepsCalm | Assets/js/script.js:97-114 | frames keep every dot's speeds within 0.15 and its radius in [0.5, 2) |
| NetworkModel.ParkedPointerIsInert | Assets/js/script.js:78-81 | with the pointer parked at (-9999, -9999), a dot whose drifted coordinates are at least -9000 gets no nudge |
| NetworkModel.Linked | Assets/js/script.js:121-140 | the link loop never makes more than three links per dot |
| NetworkModel.LinkedShape | Assets/js/script.js:121-139 | every link of dot i starts at i, ends at a later dot in the array, and has positive opacity |
| NetworkModel.LinkedNext | Assets/js/script.js:122-139 | one turn of the link loop keeps its invariant: links so far plus links still to come are all of the dot's links |
| NetworkModel.LinkedFirstNear | Assets/js/script.js:121-140 | the links go to exactly the first three (fewer if there are fewer) later dots within 150, in index order, not the nearest ones |
| NetworkModel.LinkedReadsOnlyLater | Assets/js/script.js:121-126 | the link loop of dot i reads only the dots after i |
| NetworkModel.LinkOpacityInRange | Assets/js/script.js:128-129 | every link's opacity lies in (0, 1] |
| NetworkModel.FrameLines | Assets/js/script.js:97-140 | the lines of a frame are those of each dot in order, the dot stepped, against the later dots not yet stepped |
| NetworkModel.FrameLinesShape | Assets/js/script.js:97-140 | every line of a frame joins a dot to a later dot |
| ParticleBackgroundEngine.SharedPointer.constructor | Assets/js/script.js:14 | the shared mouse record starts at (-9999, -9999) |
| ParticleBackgroundEngine.SharedPointer.OnMouseMove | Assets/js/script.js:73-76 | mousemove stores the client position |
| ParticleBackgroundEngine.SharedPointer.OnMouseLeave | Assets/js/script.js:78-81 | mouseleave parks the record at (-9999, -9999) |
| ParticleBackgroundEngine.DiscOf | Assets/js/script.js:116-119 | a dot is drawn at its position with its radius |
| ParticleBackgroundEngine.FramedStep | Assets/js/script.js:97-141 | one turn of the frame loop extends the stepped, drawn and linked prefix by one dot |
| ParticleBackgroundEngine.ParticleBackground.constructor | Assets/js/script.js:20-35 | the engine takes the window size, seeds floor(area / density) dots and runs one frame at once: the dots are the frame of the seeding when the page is visible, and the seeding itself otherwise |
| ParticleBackgroundEngine.ParticleBackground.Resize | Assets/js/script.js:37-45 | the size becomes the window's inner size |
| ParticleBackgroundEngine.ParticleBackground.CreateParticles | Assets/js/script.js:47-63 | the dots are replaced by the seeding of floor(area / density) dots (none if that is negative) |
| ParticleBackgroundEngine.ParticleBackground.Populate | Assets/js/script.js:53-62 | the seeding loop builds the array from empty, seed k at index k |
| ParticleBackgroundEngine.ParticleBackground.OnResize | Assets/js/script.js:68-71 | a window resize takes the new size and reseeds |
| ParticleBackgroundEngine.ParticleBackground.Animate | Assets/js/script.js:84-144 | a hidden page changes and draws nothing; otherwise the dots become the frame, each drawn after its step, and the lines are those of each dot, stepped, against the later dots not yet stepped |
| ParticleBackgroundEngine.ParticleBackground.Advance | Assets/js/script.js:97-140 | the loop body steps dot i in place, draws it and collects its links against the later dots as the frame found them |
| ParticleBackgroundEngine.ParticleBackground.LinksOf | Assets/js/script.js:121-140 | the inner loop with its running counter yields exactly the capped link list |
| ParticleBackgroundEngine.ParticleBackground.StepDot | Assets/js/script.js:100-114 | the loop body's field updates are one dot's frame step |

## Left out

- Font loading (`loadGlobalFont`, lines 9-23 of `Assets/js/particle-title.js`) and the opentype path and `getImageData` calls: font loading is asynchronous, and all three are foreign calls. Only the error `getImageData` raises on a zero width or height is modelled. The glyph mask and the text box are inputs, and a missing font is `None`.
- The mask's row stride is taken to be the engine's width. The temporary canvas truncates a fractional width, so the browser's real mask is narrower than that; the model does not describe how the browser rasterises.
- Canvas drawing (`arc`, `fill`, `stroke`, `clearRect`, `setTransform`, colours, `globalAlpha`, line width) and the devicePixelRatio sizing: frames return the discs and lines they would draw instead, without a colour. The glyph renders return the one fill colour of the frame, chosen by `GetColor`; the background's fixed colours are not modelled.
- Browser scheduling: `requestAnimationFrame`, `cancelAnimationFrame`/`destroy`, the IntersectionObserver registration, the 200 ms resize debounce and the visibilitychange listener. One call models one frame or one event, and visibility is a parameter.
- A missing title canvas or background container, where the source constructors return early: the model always has them.
- IEEE-754 rounding: numbers are exact reals, and Math.PI is a 16-digit decimal.
- Tabs, language toggle, history handling and the page's start-up code (lines 150-244 of `Assets/js/script.js`), and `server.py`: these are DOM or file-serving glue with no algorithm.
- ParticleTitleEngine.SampleRow: generic over the coverage test and the particle constructor. `GenerateParticles` instantiates them with the mask test and the seeded constructor, so the loops never multiply out random draws themselves.
- ParticleTitleEngine.SampleGrid: generic in the same way as `SampleRow`.
- ParticleBackgroundEngine.ParticleBackground.LinksOf: generic over the distance function. `Advance` passes the square-root distance.
- NetworkModel.Linked: its own contract states only the cap of three. Endpoints and opacity are in `LinkedShape`, and the choice of targets is in `LinkedFirstNear`.
- ParticleTitleEngine.ParticleTitle.constructor: without a container the source leaves width and height undefined; the model leaves them at 0, which makes the mask read throw in both. When that read throws, the source's `new` throws, so the caller gets no object and no listeners, observer or frame loop are set up; a constructor cannot fail here, so the model returns the object in the state at the throw and skips only the first frame. The first frame is `Animate`, whose draws are dropped.
- ParticleBackgroundEngine.ParticleBackground.constructor: the page's visibility is a parameter; it is true when the script loads (line 13 of `Assets/js/script.js`) and changes only on visibilitychange.
- ParticleTitleEngine.ParticleTitle.OnResize: states the number of regenerated particles, not their contents. `GenerateParticles`, which it calls, states the contents.
- GlyphMotion.PulseStep: its contract does not spell out the new velocity. `PulseDragThenSpring` states it whenever no pointer impulse applies (inactive pointer, pointer out of reach, or stubborn particle), and `OrdinaryFeelsPointer` states the impulse for an ordinary particle within reach; `StubbornIgnoresPointer` and `RestIsFixed` follow.
- NetworkModel.ParkedPointerIsInert: holds for any `sqrt` that is Math.sqrt on the non-negative reals (`IsSqrt`); square roots are never computed.
