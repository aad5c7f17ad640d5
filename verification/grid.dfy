/**
 `VolumetricGrid`: the bookkeeping of the fog cubes and its reconfiguration.

 The engine's world objects are abstract handles. Creating a cube hands out a
 fresh handle at once and records the cube's rest position in `cubeOrigins`;
 the cube joins `cubes` only later, when the engine fires the load-completion
 callback, which is modelled as the separate event `Complete`. Between the two
 the handle is `pending`.

 The model follows the code as written:
 - `cubeOrigins` is never cleared, so entries of erased cubes stay behind;
 - a rebuild erases only the cubes already in `cubes`: cubes still pending keep
   their callback, stay in the scene, and join `cubes` when they complete;
 - there is no generation counter that would drop such a late completion.
 */
module Grid {
  import Noise
  import Lattice
  import opened CubeMotion
  import opened Reals

  /** An engine world object (`WO*`), as an opaque identity. */
  type Handle = nat

  /** The size of the unscaled cube model (`cube4x4x4`). */
  const BaseCubeSize: real := 4.0

  /** The translucency last written to a cube's skin; `Unset` before the first frame. */
  datatype Tint = Unset | Fog(alpha: real)

  /** What the grid reads and writes of one engine world object. */
  datatype CubeObject = CubeObject(
    visible: bool,      // `isVisible`
    inScene: bool,      // still held by the world container
    finalized: bool,    // texture and specular set by the completion callback
    position: Vec3,
    size: real,         // uniform scale passed to `WO::New`
    tint: Tint)

  /** The engine side: every object ever created, and the next fresh handle. */
  datatype World = World(objects: map<Handle, CubeObject>, next: Handle)

  /** The nine parameters `updateGrid` takes. */
  datatype Params = Params(
    length: int, width: int, depth: int,
    scale: real, gap: real,
    frequency: real, displacement: real,
    alphaMin: real, alphaMax: real)
  {
    /** The parameters that decide where cubes are and how big they are. */
    function Layout(): Shape { Shape(length, width, depth, scale, gap) }
  }

  /** The layout part of the parameters. */
  datatype Shape = Shape(length: int, width: int, depth: int, scale: real, gap: real)

  /** The fields of a `VolumetricGrid`, plus the set of requested cubes whose
      completion callback has not fired yet. */
  datatype GridState = GridState(
    params: Params,
    spacing: real,
    cubes: seq<Handle>,
    cubeOrigins: map<Handle, Vec3>,
    pending: set<Handle>)

  /** A grid together with the engine world it lives in. */
  datatype System = System(grid: GridState, world: World)

  /** Default values of the cosmetic fields, as declared in the class. */
  const DefaultAlphaMin: real := 0.95
  const DefaultAlphaMax: real := 1.0
  const DefaultDisplacement: real := 0.04
  const DefaultFrequency: real := 0.15

  // ---------------------------------------------------------------------
  // Derived quantities
  // ---------------------------------------------------------------------

  /** Center-to-center distance of neighbouring cubes: the gap plus the scaled cube size. */
  function Spacing(scale: real, gap: real): real
  {
    gap + BaseCubeSize * scale
  }

  /** The rest position of the cube with loop counters `p`. */
  function GridPosition(p: Lattice.Index, spacing: real): Vec3
  {
    Vec3(p.x as real * spacing, p.y as real * spacing, p.z as real * spacing)
  }

  /** The handles `from, from + 1, ..., from + n - 1`. */
  function Fresh(from: nat, n: nat): (r: set<Handle>)
    decreases n
    ensures forall h :: h in r <==> from <= h < from + n
  {
    if n == 0 then {} else Fresh(from, n - 1) + {from + n - 1}
  }

  /** A newly created cube: visible, in the scene, not yet finalized. */
  function NewCube(pos: Vec3, size: real): CubeObject
  {
    CubeObject(true, true, false, pos, size, Unset)
  }

  /** The origin `update` reads for a handle: `cubeOrigins[cube]` default-constructs
      a zero vector when the key is missing. */
  function OriginOf(origins: map<Handle, Vec3>, h: Handle): Vec3
  {
    if h in origins then origins[h] else Vec3(0.0, 0.0, 0.0)
  }

  // ---------------------------------------------------------------------
  // Well-formedness
  // ---------------------------------------------------------------------

  /** Every object of the world has a handle below `next`: `next` is fresh. */
  ghost predicate HandlesBelowNext(world: World)
  {
    forall h :: h in world.objects ==> h < world.next
  }

  /** The bookkeeping facts every event preserves. Note what is NOT here: a
      one-to-one correspondence between `cubes` and `cubeOrigins` (the code
      does not keep one). */
  ghost predicate WellFormed(s: System)
  {
    && HandlesBelowNext(s.world)
    && s.grid.cubeOrigins.Keys <= s.world.objects.Keys
    && s.grid.pending <= s.grid.cubeOrigins.Keys
    && (forall i :: 0 <= i < |s.grid.cubes| ==> s.grid.cubes[i] in s.grid.cubeOrigins)
    && (forall i :: 0 <= i < |s.grid.cubes| ==> s.grid.cubes[i] !in s.grid.pending)
    && (forall i, j :: 0 <= i < j < |s.grid.cubes| ==> s.grid.cubes[i] != s.grid.cubes[j])
    && (forall h :: h in s.grid.pending && h in s.world.objects ==>
          s.world.objects[h].inScene && !s.world.objects[h].finalized)
  }

  // ---------------------------------------------------------------------
  // Events
  // ---------------------------------------------------------------------

  /** `isResizeNeeded`: some parameter of the layout changed. */
  function ResizeNeeded(stored: Params, requested: Params): (r: bool)
    ensures r <==> stored.Layout() != requested.Layout()
  {
    requested.length != stored.length || requested.width != stored.width || requested.depth != stored.depth
    || requested.scale != stored.scale || requested.gap != stored.gap
  }

  /** One iteration of `initializeCubes`: ask the engine for a cube at `pos` (it hands
      out the next handle and puts a visible cube into the scene), then record `pos` as
      the cube's origin. The cube does not join `cubes` here. */
  function Request(s: System, pos: Vec3): (r: System)
    ensures r.grid.params == s.grid.params && r.grid.spacing == s.grid.spacing
    ensures r.grid.cubes == s.grid.cubes
    ensures r.world.next == s.world.next + 1
    ensures var h := s.world.next;
            && h in r.grid.pending && h in r.grid.cubeOrigins && r.grid.cubeOrigins[h] == pos
            && h in r.world.objects && r.world.objects[h] == NewCube(pos, s.grid.params.scale)
    ensures r.grid.pending == s.grid.pending + {s.world.next}
    ensures forall k :: k in s.grid.cubeOrigins && k != s.world.next ==>
              k in r.grid.cubeOrigins && r.grid.cubeOrigins[k] == s.grid.cubeOrigins[k]
    ensures forall k :: k in s.world.objects && k != s.world.next ==>
              k in r.world.objects && r.world.objects[k] == s.world.objects[k]
  {
    var h := s.world.next;
    System(s.grid.(cubeOrigins := s.grid.cubeOrigins[h := pos], pending := s.grid.pending + {h}),
           World(s.world.objects[h := NewCube(pos, s.grid.params.scale)], h + 1))
  }

  /** The body of `initializeCubes` for a list of rest positions: one request per
      position, in order. */
  function Populate(s: System, todo: seq<Vec3>): (r: System)
    decreases |todo|
    ensures r.grid.params == s.grid.params && r.grid.spacing == s.grid.spacing
    ensures r.grid.cubes == s.grid.cubes
    ensures r.world.next == s.world.next + |todo|
    ensures r.grid.pending == s.grid.pending + Fresh(s.world.next, |todo|)
    ensures r.grid.cubeOrigins.Keys == s.grid.cubeOrigins.Keys + Fresh(s.world.next, |todo|)
    ensures r.world.objects.Keys == s.world.objects.Keys + Fresh(s.world.next, |todo|)
  {
    if todo == [] then s
    else
      var prev := Populate(s, todo[..|todo| - 1]);
      assert Fresh(s.world.next, |todo|) == Fresh(s.world.next, |todo| - 1) + {prev.world.next};
      Request(prev, todo[|todo| - 1])
  }

  /** Entries that existed below the first fresh handle are left alone by `Populate`. */
  lemma {:induction false} PopulateKeepsOlder(s: System, todo: seq<Vec3>)
    ensures var r := Populate(s, todo);
            && (forall h :: h in s.grid.cubeOrigins && h < s.world.next ==>
                  r.grid.cubeOrigins[h] == s.grid.cubeOrigins[h])
            && (forall h :: h in s.world.objects && h < s.world.next ==>
                  r.world.objects[h] == s.world.objects[h])
    decreases |todo|
  {
    if todo != [] {
      PopulateKeepsOlder(s, todo[..|todo| - 1]);
    }
  }

  /** The `n`-th iteration creates handle `next + n`, a new visible cube at the `n`-th
      position, and records that position as its origin. */
  lemma {:induction false} PopulateRecords(s: System, todo: seq<Vec3>, n: nat)
    requires n < |todo|
    ensures var r := Populate(s, todo);
            && s.world.next + n in r.grid.cubeOrigins && s.world.next + n in r.world.objects
            && r.grid.cubeOrigins[s.world.next + n] == todo[n]
            && r.world.objects[s.world.next + n] == NewCube(todo[n], s.grid.params.scale)
    decreases |todo|
  {
    var prefix := todo[..|todo| - 1];
    if n < |todo| - 1 {
      PopulateRecords(s, prefix, n);
      assert prefix[n] == todo[n];
    }
  }

  /** `initializeCubes`: one creation request per position of the loop nest. */
  function InitializeCubes(s: System): System
  {
    Populate(s, Positions(Lattice.Indices(s.grid.params.length, s.grid.params.width, s.grid.params.depth),
                          s.grid.spacing))
  }

  /** The rest positions of a list of loop counters, in the same order. */
  function Positions(idxs: seq<Lattice.Index>, spacing: real): (r: seq<Vec3>)
    ensures |r| == |idxs|
    ensures forall n :: 0 <= n < |idxs| ==> r[n] == GridPosition(idxs[n], spacing)
  {
    seq(|idxs|, n requires 0 <= n < |idxs| => GridPosition(idxs[n], spacing))
  }

  /** Mark the given cubes invisible and take them out of the world container. */
  function Hide(objects: map<Handle, CubeObject>, hs: seq<Handle>): (r: map<Handle, CubeObject>)
    ensures r.Keys == objects.Keys
    ensures forall h :: h in objects && h in hs ==> r[h] == objects[h].(visible := false, inScene := false)
    ensures forall h :: h in objects && h !in hs ==> r[h] == objects[h]
  {
    map h | h in objects :: if h in hs then objects[h].(visible := false, inScene := false) else objects[h]
  }

  /** The constructor: store the layout, compute `spacing`, keep the declared
      defaults of the other fields, and build the population. */
  function Construct(length: int, width: int, depth: int, scale: real, gap: real, world: World): (r: System)
    ensures r.grid.params == Params(length, width, depth, scale, gap,
                                    DefaultFrequency, DefaultDisplacement, DefaultAlphaMin, DefaultAlphaMax)
    ensures r.grid.spacing == gap + 4.0 * scale
    ensures r.grid.cubes == []
    ensures r.world.next == world.next + Lattice.Count(length, width, depth)
    ensures r.grid.pending == Fresh(world.next, Lattice.Count(length, width, depth))
    ensures r.grid.cubeOrigins.Keys == Fresh(world.next, Lattice.Count(length, width, depth))
    ensures r.world.objects.Keys == world.objects.Keys + Fresh(world.next, Lattice.Count(length, width, depth))
  {
    var params := Params(length, width, depth, scale, gap,
                         DefaultFrequency, DefaultDisplacement, DefaultAlphaMin, DefaultAlphaMax);
    Lattice.IndicesLength(length, width, depth);
    InitializeCubes(System(GridState(params, Spacing(scale, gap), [], map[], {}), world))
  }

  /** `updateGrid`: overwrite all nine parameters and `spacing`; on a layout change,
      hide and erase every tracked cube, empty `cubes` and rebuild. */
  function UpdateGrid(s: System, requested: Params): (r: System)
    ensures r.grid.params == requested
    ensures r.grid.spacing == requested.gap + 4.0 * requested.scale
    ensures !ResizeNeeded(s.grid.params, requested) ==>
              && r.grid.cubes == s.grid.cubes
              && r.grid.cubeOrigins == s.grid.cubeOrigins
              && r.grid.pending == s.grid.pending
              && r.world == s.world
    ensures ResizeNeeded(s.grid.params, requested) ==>
              var n := Lattice.Count(requested.length, requested.width, requested.depth);
              && r.grid.cubes == []
              && r.world.next == s.world.next + n
              && r.grid.pending == s.grid.pending + Fresh(s.world.next, n)
              && r.grid.cubeOrigins.Keys == s.grid.cubeOrigins.Keys + Fresh(s.world.next, n)
              && r.world.objects.Keys == s.world.objects.Keys + Fresh(s.world.next, n)
  {
    var resize := ResizeNeeded(s.grid.params, requested);
    var grid := s.grid.(params := requested, spacing := Spacing(requested.scale, requested.gap));
    if !resize then System(grid, s.world)
    else
      Lattice.IndicesLength(requested.length, requested.width, requested.depth);
      var hidden := s.world.(objects := Hide(s.world.objects, s.grid.cubes));
      InitializeCubes(System(grid.(cubes := []), hidden))
  }

  /** The completion callback of `createCube`: finalize the skin and append the
      cube to `cubes`. Only a requested cube has a callback to fire. */
  function Complete(s: System, h: Handle): (r: System)
    ensures h in s.grid.pending ==>
              && r.grid.cubes == s.grid.cubes + [h]
              && r.grid.pending == s.grid.pending - {h}
    ensures h !in s.grid.pending ==> r == s
    ensures r.grid.params == s.grid.params && r.grid.spacing == s.grid.spacing
    ensures r.grid.cubeOrigins == s.grid.cubeOrigins
    ensures r.world.next == s.world.next && r.world.objects.Keys == s.world.objects.Keys
    ensures h in s.grid.pending && h in s.world.objects ==> r.world.objects[h] == s.world.objects[h].(finalized := true)
    ensures forall k :: k in s.world.objects && k != h ==> r.world.objects[k] == s.world.objects[k]
  {
    if h !in s.grid.pending then s
    else
      var objects := if h in s.world.objects
                     then s.world.objects[h := s.world.objects[h].(finalized := true)]
                     else s.world.objects;
      System(s.grid.(cubes := s.grid.cubes + [h], pending := s.grid.pending - {h}),
             s.world.(objects := objects))
  }

  // ---------------------------------------------------------------------
  // Per-frame update
  // ---------------------------------------------------------------------

  /** What one call of `update` sees besides the grid: the advanced clock, its sine,
      the camera position, and the length function of the engine's vectors. */
  datatype FrameInput = FrameInput(time: real, easedTime: real, camera: Vec3, magnitude: Vec3 -> Distance)

  /** One visible cube in one frame: `updateCubePosition` then `updateCubeAlpha`.
      The alpha uses the distance from the camera to the position just written. */
  function Animate(obj: CubeObject, origin: Vec3, g: Params, spacing: real, f: FrameInput): (r: CubeObject)
    ensures r.visible == obj.visible && r.inScene == obj.inScene
    ensures r.finalized == obj.finalized && r.size == obj.size
    ensures r.tint.Fog?
  {
    var pos := Displaced(origin, g.frequency, f.easedTime, MaxDisplacement(spacing, g.displacement));
    var toCamera := Vec3(pos.x - f.camera.x, pos.y - f.camera.y, pos.z - f.camera.z);
    var alphaNoise := Noise.Sample(AlphaArgument(g.frequency, f.time, origin));
    obj.(position := pos, tint := Fog(Alpha(g.alphaMin, g.alphaMax, alphaNoise, f.magnitude(toCamera))))
  }

  /** A cube never strays from its rest position by more than `spacing * displacement`
      along any axis. */
  lemma AnimateNearOrigin(obj: CubeObject, origin: Vec3, g: Params, spacing: real, f: FrameInput)
    ensures var p := Animate(obj, origin, g, spacing, f).position;
            && Abs(p.x - origin.x) <= Abs(MaxDisplacement(spacing, g.displacement))
            && Abs(p.y - origin.y) <= Abs(MaxDisplacement(spacing, g.displacement))
            && Abs(p.z - origin.z) <= Abs(MaxDisplacement(spacing, g.displacement))
  {
  }

  /** Displacement does not accumulate: the frame's result ignores where the cube was
      left by the previous frame, so animating twice in the same frame changes nothing. */
  lemma AnimateForgetsPosition(obj: CubeObject, p: Vec3, origin: Vec3, g: Params, spacing: real, f: FrameInput)
    ensures Animate(obj.(position := p), origin, g, spacing, f) == Animate(obj, origin, g, spacing, f)
    ensures var a := Animate(obj, origin, g, spacing, f);
            Animate(a, origin, g, spacing, f) == a
  {
  }

  /** What the loop of `update` does to one tracked, visible cube, given its origin. */
  type CubeStep = (CubeObject, Vec3) -> CubeObject

  /** The per-cube step of one frame. */
  function FrameStep(g: Params, spacing: real, f: FrameInput): CubeStep
  {
    (obj: CubeObject, origin: Vec3) => Animate(obj, origin, g, spacing, f)
  }

  /** A step that keeps visibility and is idempotent, as `FrameStep` is. */
  ghost predicate Settles(step: CubeStep)
  {
    && (forall obj, origin :: step(obj, origin).visible == obj.visible)
    && (forall obj, origin :: step(step(obj, origin), origin) == step(obj, origin))
  }

  /** Animating a cube keeps its visibility, and a second application in the same
      frame changes nothing. */
  lemma FrameStepSettles(g: Params, spacing: real, f: FrameInput)
    ensures Settles(FrameStep(g, spacing, f))
  {
    forall obj, origin
      ensures FrameStep(g, spacing, f)(FrameStep(g, spacing, f)(obj, origin), origin) == FrameStep(g, spacing, f)(obj, origin)
    {
      AnimateForgetsPosition(obj, obj.position, origin, g, spacing, f);
    }
  }

  /** The world objects after the loop of `update` has run over `hs` in order: every
      handle met whose object is visible gets `step` applied from its recorded origin. */
  function AnimateRun(objects: map<Handle, CubeObject>, origins: map<Handle, Vec3>, hs: seq<Handle>,
                      step: CubeStep): (r: map<Handle, CubeObject>)
    decreases |hs|
    ensures r.Keys == objects.Keys
  {
    if hs == [] then objects
    else
      var prev := AnimateRun(objects, origins, hs[..|hs| - 1], step);
      var h := hs[|hs| - 1];
      if h in prev && prev[h].visible then prev[h := step(prev[h], OriginOf(origins, h))]
      else prev
  }

  /** The loop's net effect, object by object: for a step that settles, a visible object
      whose handle occurs in `hs` (once or more) is stepped once from its origin; every
      other object is left as it was. */
  lemma {:induction false} AnimateRunPointwise(objects: map<Handle, CubeObject>, origins: map<Handle, Vec3>,
                                               hs: seq<Handle>, step: CubeStep)
    requires Settles(step)
    ensures var r := AnimateRun(objects, origins, hs, step);
            forall h :: h in objects ==>
              r[h] == if h in hs && objects[h].visible then step(objects[h], OriginOf(origins, h)) else objects[h]
    decreases |hs|
  {
    if hs != [] {
      var prefix := hs[..|hs| - 1];
      var last := hs[|hs| - 1];
      AnimateRunPointwise(objects, origins, prefix, step);
      assert forall h :: h in hs <==> h in prefix || h == last by {
        assert hs == prefix + [last];
      }
    }
  }

  /** One more iteration of the loop. */
  lemma AnimateRunSnoc(objects: map<Handle, CubeObject>, origins: map<Handle, Vec3>, hs: seq<Handle>, h: Handle,
                       step: CubeStep)
    ensures var prev := AnimateRun(objects, origins, hs, step);
            AnimateRun(objects, origins, hs + [h], step) ==
              if h in prev && prev[h].visible then prev[h := step(prev[h], OriginOf(origins, h))] else prev
  {
    assert (hs + [h])[..|hs|] == hs;
  }

  /** The loop of `update` over the tracked cubes: step each visible one from its
      origin, and give every tracked cube without an origin the zero origin. */
  method AnimateCubes(objects: map<Handle, CubeObject>, origins: map<Handle, Vec3>, cubes: seq<Handle>,
                      step: CubeStep)
    returns (animated: map<Handle, CubeObject>, read: map<Handle, Vec3>)
    ensures animated == AnimateRun(objects, origins, cubes, step)
    ensures forall h :: OriginOf(read, h) == OriginOf(origins, h)
    ensures forall h :: h in read <==> h in origins || h in cubes
  {
    animated, read := objects, origins;
    for i := 0 to |cubes|
      invariant animated == AnimateRun(objects, origins, cubes[..i], step)
      invariant forall h :: OriginOf(read, h) == OriginOf(origins, h)
      invariant forall h :: h in read <==> h in origins || h in cubes[..i]
    {
      var h := cubes[i];
      assert cubes[..i + 1] == cubes[..i] + [h];
      AnimateRunSnoc(objects, origins, cubes[..i], h, step);
      var origin := OriginOf(read, h);
      read := read[h := origin];
      if h in animated && animated[h].visible {
        animated := animated[h := step(animated[h], origin)];
      }
      assert forall k :: k in cubes[..i + 1] <==> k in cubes[..i] || k == h by {
        assert cubes[..i + 1] == cubes[..i] + [h];
      }
    }
    assert cubes[..|cubes|] == cubes;
  }

  /** `update`: advance the clock by a fixed step, then animate every tracked cube
      that is visible. `sin` and `Vector::magnitude` are supplied by the caller. Reading
      `cubeOrigins[cube]` adds a zero origin for a tracked cube that has none. */
  method Update(s: System, timeCounter: real, sin: real -> real, camera: Vec3, magnitude: Vec3 -> Distance)
    returns (r: System, time: real)
    ensures time == timeCounter + TimeStep && time > timeCounter
    ensures r.grid.params == s.grid.params && r.grid.spacing == s.grid.spacing
    ensures r.grid.cubes == s.grid.cubes && r.grid.pending == s.grid.pending
    ensures r.world.next == s.world.next && r.world.objects.Keys == s.world.objects.Keys
    ensures forall h :: OriginOf(r.grid.cubeOrigins, h) == OriginOf(s.grid.cubeOrigins, h)
    ensures forall h :: h in r.grid.cubeOrigins <==> h in s.grid.cubeOrigins || h in s.grid.cubes
    ensures WellFormed(s) ==> WellFormed(r)
    ensures var f := FrameInput(time, sin(time), camera, magnitude);
            forall h :: h in s.world.objects ==>
              r.world.objects[h] ==
                if h in s.grid.cubes && s.world.objects[h].visible
                then Animate(s.world.objects[h], OriginOf(s.grid.cubeOrigins, h), s.grid.params, s.grid.spacing, f)
                else s.world.objects[h]
  {
    time := timeCounter + TimeStep;
    var f := FrameInput(time, sin(time), camera, magnitude);
    var step := FrameStep(s.grid.params, s.grid.spacing, f);
    var objects, origins := AnimateCubes(s.world.objects, s.grid.cubeOrigins, s.grid.cubes, step);
    FrameStepSettles(s.grid.params, s.grid.spacing, f);
    AnimateRunPointwise(s.world.objects, s.grid.cubeOrigins, s.grid.cubes, step);
    r := System(s.grid.(cubeOrigins := origins), s.world.(objects := objects));
  }
}
