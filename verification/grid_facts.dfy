/**
 Properties of the grid events taken together: what a rebuild does to the cubes
 it replaces and to the ones still loading, where the new cubes are put, and the
 bookkeeping facts (`Grid.WellFormed`) that construction, `updateGrid`, the
 completion callback and `update` all keep (the last as a postcondition of
 `Grid.Update`).
 */
module GridFacts {
  import Lattice
  import opened CubeMotion
  import opened Grid

  // ---------------------------------------------------------------------
  // Where the new cubes go
  // ---------------------------------------------------------------------

  /** The `n`-th creation request of `initializeCubes` gets handle `next + n`, a new
      visible cube of the grid's scale at the position of the `n`-th loop iteration,
      and that position as its origin. */
  lemma InitializeCubesRecords(s: System, n: nat)
    requires n < |Lattice.Indices(s.grid.params.length, s.grid.params.width, s.grid.params.depth)|
    ensures var r := InitializeCubes(s);
            var p := GridPosition(Lattice.Indices(s.grid.params.length, s.grid.params.width, s.grid.params.depth)[n],
                                  s.grid.spacing);
            && s.world.next + n in r.grid.cubeOrigins && s.world.next + n in r.world.objects
            && r.grid.cubeOrigins[s.world.next + n] == p
            && r.world.objects[s.world.next + n] == NewCube(p, s.grid.params.scale)
  {
    var g := s.grid.params;
    var idxs := Lattice.Indices(g.length, g.width, g.depth);
    var todo := Positions(idxs, s.grid.spacing);
    assert InitializeCubes(s) == Populate(s, todo);
    assert todo[n] == GridPosition(idxs[n], s.grid.spacing);
    PopulateRecords(s, todo, n);
  }

  /** The constructor's `n`-th request gets handle `next + n`, a new visible cube of the
      given scale at the `n`-th position of the box, spaced `gap + 4 scale` apart, and that
      position as its origin. */
  lemma ConstructRecords(length: int, width: int, depth: int, scale: real, gap: real, world: World, n: nat)
    requires n < |Lattice.Indices(length, width, depth)|
    ensures var r := Construct(length, width, depth, scale, gap, world);
            var p := GridPosition(Lattice.Indices(length, width, depth)[n], gap + 4.0 * scale);
            && world.next + n in r.grid.pending
            && world.next + n in r.grid.cubeOrigins && r.grid.cubeOrigins[world.next + n] == p
            && world.next + n in r.world.objects && r.world.objects[world.next + n] == NewCube(p, scale)
  {
    var params := Params(length, width, depth, scale, gap,
                         DefaultFrequency, DefaultDisplacement, DefaultAlphaMin, DefaultAlphaMax);
    var start := System(GridState(params, Spacing(scale, gap), [], map[], {}), world);
    assert Construct(length, width, depth, scale, gap, world) == InitializeCubes(start);
    Lattice.IndicesLength(length, width, depth);
    InitializeCubesRecords(start, n);
  }

  /** Every position of the box gets a cube: for loop counters `p` inside the box some
      newly requested handle has origin `(p.x * spacing, p.y * spacing, p.z * spacing)`. */
  lemma InitializeCubesCoversBox(s: System, p: Lattice.Index)
    requires Lattice.InBox(p, s.grid.params.length, s.grid.params.width, s.grid.params.depth)
    ensures var r := InitializeCubes(s);
            exists h :: s.world.next <= h < r.world.next && h in r.grid.cubeOrigins &&
                        r.grid.cubeOrigins[h] == GridPosition(p, s.grid.spacing)
  {
    var g := s.grid.params;
    var idxs := Lattice.Indices(g.length, g.width, g.depth);
    Lattice.IndicesMembers(g.length, g.width, g.depth, p);
    Lattice.IndicesLength(g.length, g.width, g.depth);
    var n :| 0 <= n < |idxs| && idxs[n] == p;
    InitializeCubesRecords(s, n);
    var r := InitializeCubes(s);
    assert s.world.next <= s.world.next + n < r.world.next;
  }

  // ---------------------------------------------------------------------
  // What a rebuild does to the old population
  // ---------------------------------------------------------------------

  /** A rebuild makes every tracked cube invisible and takes it out of the scene, and
      leaves every other existing object as it was: in particular a cube that is still
      loading stays visible and in the scene. */
  lemma ResizeRetiresTrackedOnly(s: System, requested: Params)
    requires WellFormed(s)
    requires ResizeNeeded(s.grid.params, requested)
    ensures var r := UpdateGrid(s, requested);
            forall h :: h in s.world.objects ==>
              && h in r.world.objects
              && r.world.objects[h] == if h in s.grid.cubes then s.world.objects[h].(visible := false, inScene := false)
                                       else s.world.objects[h]
  {
    var grid := s.grid.(params := requested, spacing := Spacing(requested.scale, requested.gap), cubes := []);
    var hidden := s.world.(objects := Hide(s.world.objects, s.grid.cubes));
    var todo := Positions(Lattice.Indices(requested.length, requested.width, requested.depth), grid.spacing);
    assert UpdateGrid(s, requested) == Populate(System(grid, hidden), todo);
    PopulateKeepsOlder(System(grid, hidden), todo);
  }

  /** A rebuild keeps every recorded origin, including those of the cubes it erases. */
  lemma ResizeKeepsOrigins(s: System, requested: Params)
    requires WellFormed(s)
    requires ResizeNeeded(s.grid.params, requested)
    ensures var r := UpdateGrid(s, requested);
            forall h :: h in s.grid.cubeOrigins ==> h in r.grid.cubeOrigins && r.grid.cubeOrigins[h] == s.grid.cubeOrigins[h]
  {
    var grid := s.grid.(params := requested, spacing := Spacing(requested.scale, requested.gap), cubes := []);
    var hidden := s.world.(objects := Hide(s.world.objects, s.grid.cubes));
    var todo := Positions(Lattice.Indices(requested.length, requested.width, requested.depth), grid.spacing);
    assert UpdateGrid(s, requested) == Populate(System(grid, hidden), todo);
    PopulateKeepsOlder(System(grid, hidden), todo);
  }

  /** After a rebuild `cubes` is empty and one request is outstanding per position of
      the new box, placed on the new lattice; the new origins are recorded at once. */
  lemma ResizeRequestsNewLattice(s: System, requested: Params, n: nat)
    requires ResizeNeeded(s.grid.params, requested)
    requires n < |Lattice.Indices(requested.length, requested.width, requested.depth)|
    ensures var r := UpdateGrid(s, requested);
            var p := GridPosition(Lattice.Indices(requested.length, requested.width, requested.depth)[n],
                                  Spacing(requested.scale, requested.gap));
            && r.grid.cubes == []
            && s.world.next + n in r.grid.pending
            && r.grid.cubeOrigins[s.world.next + n] == p
            && r.world.objects[s.world.next + n] == NewCube(p, requested.scale)
  {
    var grid := s.grid.(params := requested, spacing := Spacing(requested.scale, requested.gap), cubes := []);
    var hidden := s.world.(objects := Hide(s.world.objects, s.grid.cubes));
    var mid := System(grid, hidden);
    assert mid.grid.params == requested && mid.grid.spacing == Spacing(requested.scale, requested.gap);
    assert mid.world.next == s.world.next;
    var r := InitializeCubes(mid);
    assert UpdateGrid(s, requested) == r;
    InitializeCubesRecords(mid, n);
    var p := GridPosition(Lattice.Indices(requested.length, requested.width, requested.depth)[n], mid.grid.spacing);
    var cube := r.world.objects[s.world.next + n];
    assert cube == NewCube(p, requested.scale);
  }

  /** A change of the cosmetic parameters alone (frequency, displacement, alpha range)
      never rebuilds; it only stores the new values. */
  lemma CosmeticChangeKeepsPopulation(s: System, frequency: real, displacement: real, alphaMin: real, alphaMax: real)
    ensures var requested := s.grid.params.(frequency := frequency, displacement := displacement,
                                            alphaMin := alphaMin, alphaMax := alphaMax);
            var r := UpdateGrid(s, requested);
            && r.grid.params == requested
            && r.grid.cubes == s.grid.cubes && r.grid.cubeOrigins == s.grid.cubeOrigins
            && r.grid.pending == s.grid.pending && r.world == s.world
  {
  }

  /** Calling `updateGrid` again with the parameters it just stored changes nothing. */
  lemma UpdateGridIdempotent(s: System, requested: Params)
    ensures var r := UpdateGrid(s, requested);
            UpdateGrid(r, requested) == r
  {
    var r := UpdateGrid(s, requested);
    assert !ResizeNeeded(r.grid.params, requested);
    assert r.grid.spacing == Spacing(requested.scale, requested.gap);
  }

  // ---------------------------------------------------------------------
  // Late completions
  // ---------------------------------------------------------------------

  /** A cube requested before a rebuild and completing after it still joins `cubes`,
      with its origin from the OLD lattice: there is no generation check that would
      drop it. */
  lemma LateCompletionJoins(s: System, requested: Params, h: Handle)
    requires WellFormed(s)
    requires h in s.grid.pending
    requires ResizeNeeded(s.grid.params, requested)
    ensures var r := Complete(UpdateGrid(s, requested), h);
            && r.grid.cubes == [h]
            && h in r.grid.cubeOrigins && r.grid.cubeOrigins[h] == s.grid.cubeOrigins[h]
  {
    ResizeKeepsOrigins(s, requested);
  }

  /** The completion callback fires once: a second completion of the same handle
      changes nothing. */
  lemma CompleteOnce(s: System, h: Handle)
    ensures Complete(Complete(s, h), h) == Complete(s, h)
  {
  }

  // ---------------------------------------------------------------------
  // Invariants
  // ---------------------------------------------------------------------

  /** Construction on a world whose handles are all below `next` gives a well-formed grid. */
  lemma ConstructWellFormed(length: int, width: int, depth: int, scale: real, gap: real, world: World)
    requires HandlesBelowNext(world)
    ensures WellFormed(Construct(length, width, depth, scale, gap, world))
  {
    var params := Params(length, width, depth, scale, gap,
                         DefaultFrequency, DefaultDisplacement, DefaultAlphaMin, DefaultAlphaMax);
    var s := System(GridState(params, Spacing(scale, gap), [], map[], {}), world);
    PopulateWellFormed(s, Positions(Lattice.Indices(length, width, depth), s.grid.spacing));
  }

  /** `updateGrid` keeps the bookkeeping well-formed. */
  lemma UpdateGridWellFormed(s: System, requested: Params)
    requires WellFormed(s)
    ensures WellFormed(UpdateGrid(s, requested))
  {
    if ResizeNeeded(s.grid.params, requested) {
      var grid := s.grid.(params := requested, spacing := Spacing(requested.scale, requested.gap), cubes := []);
      var hidden := s.world.(objects := Hide(s.world.objects, s.grid.cubes));
      var todo := Positions(Lattice.Indices(requested.length, requested.width, requested.depth), grid.spacing);
      assert UpdateGrid(s, requested) == Populate(System(grid, hidden), todo);
      RetireWellFormed(s, grid);
      PopulateWellFormed(System(grid, hidden), todo);
    }
  }

  /** The completion callback keeps the bookkeeping well-formed; in particular the
      handle it appends to `cubes` has an origin. */
  lemma CompleteWellFormed(s: System, h: Handle)
    requires WellFormed(s)
    ensures WellFormed(Complete(s, h))
    ensures h in s.grid.pending ==> h in Complete(s, h).grid.cubeOrigins
  {
    if h in s.grid.pending {
      var r := Complete(s, h);
      forall i, j | 0 <= i < j < |r.grid.cubes|
        ensures r.grid.cubes[i] != r.grid.cubes[j]
      {
        if j == |s.grid.cubes| {
          assert r.grid.cubes[i] == s.grid.cubes[i];
        }
      }
    }
  }

  /** The requests of a population keep the bookkeeping well-formed. */
  lemma {:induction false} PopulateWellFormed(s: System, todo: seq<Vec3>)
    requires WellFormed(s)
    ensures WellFormed(Populate(s, todo))
    decreases |todo|
  {
    if todo != [] {
      var prefix := todo[..|todo| - 1];
      PopulateWellFormed(s, prefix);
      RequestWellFormed(Populate(s, prefix), todo[|todo| - 1]);
    }
  }

  /** Hiding the tracked cubes and forgetting them keeps the bookkeeping well-formed:
      no tracked cube is pending, so the pending cubes are untouched. */
  lemma RetireWellFormed(s: System, grid: GridState)
    requires WellFormed(s)
    requires grid.cubes == [] && grid.cubeOrigins == s.grid.cubeOrigins && grid.pending == s.grid.pending
    ensures WellFormed(System(grid, s.world.(objects := Hide(s.world.objects, s.grid.cubes))))
  {
  }

  /** One creation request keeps the bookkeeping well-formed: the handle it uses is
      fresh, so it cannot be tracked already. */
  lemma RequestWellFormed(s: System, pos: Vec3)
    requires WellFormed(s)
    ensures WellFormed(Request(s, pos))
  {
    var h := s.world.next;
    var r := Request(s, pos);
    assert h !in s.world.objects;
    forall i | 0 <= i < |r.grid.cubes|
      ensures r.grid.cubes[i] !in r.grid.pending
    {
      assert r.grid.cubes[i] in s.grid.cubeOrigins;
    }
  }
}
