/**
 Runs of the grid events on a two-cube grid (`length` 2, `width` 1, `depth` 1,
 any scale and gap, in any engine world), showing the behaviour the general
 lemmas describe: the population is requested but not yet tracked, a depth
 change erases the tracked cubes only, a change of a cosmetic parameter
 rebuilds nothing, and a cube still loading across a rebuild joins the new
 `cubes` with its old origin.
 */
module GridScenarios {
  import Lattice
  import opened CubeMotion
  import opened Grid
  import GridFacts

  /** The two-cube grid right after construction. */
  function TwoCubes(scale: real, gap: real, world: World): System
  {
    Construct(2, 1, 1, scale, gap, world)
  }

  /** The loop nest of a 2 x 1 x 1 grid visits (0, 0, 0) and then (1, 0, 0). */
  lemma TwoCubesIndices()
    ensures Lattice.Indices(2, 1, 1) == [Lattice.Index(0, 0, 0), Lattice.Index(1, 0, 0)]
  {
    assert Lattice.Plane(0, 1, 1) == [Lattice.Index(0, 0, 0)];
    assert Lattice.Plane(1, 1, 1) == [Lattice.Index(1, 0, 0)];
  }

  /** Doubling the depth: the loop nest visits (0, 0, 0), (0, 0, 1), (1, 0, 0), (1, 0, 1). */
  lemma DeeperIndices()
    ensures Lattice.Indices(2, 1, 2) ==
            [Lattice.Index(0, 0, 0), Lattice.Index(0, 0, 1), Lattice.Index(1, 0, 0), Lattice.Index(1, 0, 1)]
  {
    assert Lattice.Plane(0, 1, 2) == [Lattice.Index(0, 0, 0), Lattice.Index(0, 0, 1)];
    assert Lattice.Plane(1, 1, 2) == [Lattice.Index(1, 0, 0), Lattice.Index(1, 0, 1)];
  }

  /** Rest positions of the loop counters the scenarios meet. */
  lemma UnitPositions(spacing: real)
    ensures GridPosition(Lattice.Index(0, 0, 0), spacing) == Vec3(0.0, 0.0, 0.0)
    ensures GridPosition(Lattice.Index(1, 0, 0), spacing) == Vec3(spacing, 0.0, 0.0)
    ensures GridPosition(Lattice.Index(0, 0, 1), spacing) == Vec3(0.0, 0.0, spacing)
  {
  }

  /** Construction requests two cubes, handles `next` and `next + 1`, at x = 0 and
      x = spacing, and tracks neither of them yet. */
  lemma ConstructRequestsTwo(scale: real, gap: real, world: World)
    ensures var s := TwoCubes(scale, gap, world);
            var n := world.next;
            && s.grid.cubes == []
            && (forall h :: h in s.grid.pending <==> h == n || h == n + 1)
            && s.world.next == n + 2
            && s.grid.cubeOrigins[n] == Vec3(0.0, 0.0, 0.0)
            && s.grid.cubeOrigins[n + 1] == Vec3(s.grid.spacing, 0.0, 0.0)
            && s.world.objects[n + 1].visible && !s.world.objects[n + 1].finalized
  {
    var params := Params(2, 1, 1, scale, gap, DefaultFrequency, DefaultDisplacement, DefaultAlphaMin, DefaultAlphaMax);
    var start := System(GridState(params, Spacing(scale, gap), [], map[], {}), world);
    assert TwoCubes(scale, gap, world) == InitializeCubes(start);
    TwoCubesIndices();
    UnitPositions(Spacing(scale, gap));
    GridFacts.InitializeCubesRecords(start, 0);
    GridFacts.InitializeCubesRecords(start, 1);
  }

  /** Both completion callbacks fire, in request order: both cubes are tracked. */
  lemma LoadedTracksBoth(scale: real, gap: real, world: World)
    requires HandlesBelowNext(world)
    ensures var n := world.next;
            var s := Complete(Complete(TwoCubes(scale, gap, world), n), n + 1);
            && s.grid.cubes == [n, n + 1]
            && s.grid.pending == {}
            && WellFormed(s)
  {
    var n := world.next;
    var s0 := TwoCubes(scale, gap, world);
    ConstructRequestsTwo(scale, gap, world);
    GridFacts.ConstructWellFormed(2, 1, 1, scale, gap, world);
    GridFacts.CompleteWellFormed(s0, n);
    GridFacts.CompleteWellFormed(Complete(s0, n), n + 1);
  }

  /** On a loaded grid, doubling the depth erases both tracked cubes. */
  lemma DepthChangeErasesTracked(s: System, a: Handle, b: Handle)
    requires WellFormed(s) && s.grid.cubes == [a, b]
    requires s.grid.params.length == 2 && s.grid.params.width == 1 && s.grid.params.depth == 1
    ensures var r := UpdateGrid(s, s.grid.params.(depth := 2));
            && r.grid.cubes == []
            && a in r.world.objects && !r.world.objects[a].visible && !r.world.objects[a].inScene
            && b in r.world.objects && !r.world.objects[b].visible && !r.world.objects[b].inScene
  {
    assert s.grid.cubes[0] == a && s.grid.cubes[1] == b;
    assert a in s.world.objects && b in s.world.objects;
    GridFacts.ResizeRetiresTrackedOnly(s, s.grid.params.(depth := 2));
  }

  /** Doubling the depth of a 2 x 1 x 1 grid requests four new cubes, handles `next`
      to `next + 3`, the second of them at z = spacing. */
  lemma DepthChangeRequestsFour(s: System)
    requires s.grid.params.length == 2 && s.grid.params.width == 1 && s.grid.params.depth == 1
    ensures var r := UpdateGrid(s, s.grid.params.(depth := 2));
            var n := s.world.next;
            && r.world.next == n + 4
            && (forall h :: h in r.grid.pending <==> h in s.grid.pending || n <= h < n + 4)
            && r.grid.cubeOrigins[n + 1] == Vec3(0.0, 0.0, r.grid.spacing)
  {
    var requested := s.grid.params.(depth := 2);
    DeeperIndices();
    GridFacts.ResizeRequestsNewLattice(s, requested, 1);
    UnitPositions(Spacing(requested.scale, requested.gap));
  }

  /** Lowering the minimum alpha alone rebuilds nothing. */
  lemma AlphaChangeKeepsCubes(s: System)
    ensures var r := UpdateGrid(s, s.grid.params.(alphaMin := 0.5));
            r.grid.cubes == s.grid.cubes && r.world == s.world && r.grid.params.alphaMin == 0.5
  {
    GridFacts.CosmeticChangeKeepsPopulation(s, s.grid.params.frequency, s.grid.params.displacement,
                                            0.5, s.grid.params.alphaMax);
  }

  /** A rebuild while the cube at the origin is still loading does not erase it; when
      it then completes, it joins the new `cubes` with its old origin, which the first
      cube of the new population shares: two cubes in the scene now stand at the origin. */
  lemma RebuildWhileLoading(s: System, a: Handle)
    requires WellFormed(s) && a in s.grid.pending && s.grid.cubeOrigins[a] == Vec3(0.0, 0.0, 0.0)
    requires s.grid.params.length == 2 && s.grid.params.width == 1 && s.grid.params.depth == 1
    ensures var n := s.world.next;
            var r := Complete(UpdateGrid(s, s.grid.params.(depth := 2)), a);
            && r.grid.cubes == [a]
            && r.world.objects[a].inScene && r.world.objects[a].finalized
            && r.world.objects[n].inScene
            && r.grid.cubeOrigins[a] == r.grid.cubeOrigins[n] == Vec3(0.0, 0.0, 0.0)
  {
    var requested := s.grid.params.(depth := 2);
    DeeperIndices();
    UnitPositions(Spacing(requested.scale, requested.gap));
    GridFacts.ResizeRetiresTrackedOnly(s, requested);
    GridFacts.LateCompletionJoins(s, requested, a);
    GridFacts.ResizeRequestsNewLattice(s, requested, 0);
  }
}
