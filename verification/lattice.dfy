/**
 The grid positions visited by `initializeCubes`: three nested loops,
 `x` outermost and `z` innermost, each running from 0 up to (not including)
 its dimension. A dimension that is zero or negative makes its loop run
 no iterations, and then no position at all is visited.
 */
module Lattice {

  /** One iteration of the innermost loop body: the loop counters `(x, y, z)`. */
  datatype Index = Index(x: int, y: int, z: int)

  /** The innermost loop: `z` from 0 to `depth - 1` for fixed `x` and `y`. */
  function Row(x: int, y: int, depth: int): seq<Index>
    decreases depth
  {
    if depth <= 0 then [] else Row(x, y, depth - 1) + [Index(x, y, depth - 1)]
  }

  /** The middle loop: `y` from 0 to `width - 1` for fixed `x`. */
  function Plane(x: int, width: int, depth: int): seq<Index>
    decreases width
  {
    if width <= 0 then [] else Plane(x, width - 1, depth) + Row(x, width - 1, depth)
  }

  /** The whole loop nest: `x` from 0 to `length - 1`. */
  function Indices(length: int, width: int, depth: int): seq<Index>
    decreases length
  {
    if length <= 0 then [] else Indices(length - 1, width, depth) + Plane(length - 1, width, depth)
  }

  /** The number of loop-body executions: the product, or 0 if any dimension is not positive. */
  function Count(length: int, width: int, depth: int): nat
  {
    if length <= 0 || width <= 0 || depth <= 0 then 0 else length * width * depth
  }

  /** `Index` `a` is visited before `b` in the loop nest. */
  predicate Before(a: Index, b: Index)
  {
    a.x < b.x || (a.x == b.x && (a.y < b.y || (a.y == b.y && a.z < b.z)))
  }

  predicate InBox(p: Index, length: int, width: int, depth: int)
  {
    0 <= p.x < length && 0 <= p.y < width && 0 <= p.z < depth
  }

  ghost predicate StrictlyOrdered(s: seq<Index>)
  {
    forall p, q :: 0 <= p < q < |s| ==> Before(s[p], s[q])
  }

  function Pos(n: int): nat { if n <= 0 then 0 else n }

  // ---------------------------------------------------------------------
  // How many
  // ---------------------------------------------------------------------

  lemma {:induction false} RowLength(x: int, y: int, depth: int)
    ensures |Row(x, y, depth)| == Pos(depth)
    decreases depth
  {
    if depth > 0 {
      RowLength(x, y, depth - 1);
    }
  }

  lemma {:induction false} PlaneLength(x: int, width: int, depth: int)
    ensures |Plane(x, width, depth)| == Pos(width) * Pos(depth)
    decreases width
  {
    if width > 0 {
      PlaneLength(x, width - 1, depth);
      RowLength(x, width - 1, depth);
      assert (width - 1) * Pos(depth) + Pos(depth) == width * Pos(depth);
    }
  }

  lemma {:induction false} IndicesSize(length: int, width: int, depth: int)
    ensures |Indices(length, width, depth)| == Pos(length) * (Pos(width) * Pos(depth))
    decreases length
  {
    if length > 0 {
      IndicesSize(length - 1, width, depth);
      PlaneLength(length - 1, width, depth);
      NextMultiple(length, Pos(width) * Pos(depth));
    }
  }

  lemma NextMultiple(n: int, a: int)
    requires n > 0
    ensures Pos(n - 1) * a + a == Pos(n) * a
  {
  }

  lemma PositiveProduct(a: int, b: int)
    requires a > 0 && b > 0
    ensures a * b > 0
  {
  }

  /** The loop body runs exactly `length * width * depth` times, or not at all when a
      dimension is zero or negative. */
  lemma IndicesLength(length: int, width: int, depth: int)
    ensures |Indices(length, width, depth)| == Count(length, width, depth)
    ensures |Indices(length, width, depth)| == 0 <==> (length <= 0 || width <= 0 || depth <= 0)
  {
    IndicesSize(length, width, depth);
    if length > 0 && width > 0 && depth > 0 {
      PositiveProduct(width, depth);
      PositiveProduct(length, width * depth);
      assert length * (width * depth) == length * width * depth;
    }
  }

  // ---------------------------------------------------------------------
  // Which
  // ---------------------------------------------------------------------

  lemma {:induction false} RowMembers(x: int, y: int, depth: int, p: Index)
    ensures p in Row(x, y, depth) <==> (p.x == x && p.y == y && 0 <= p.z < depth)
    decreases depth
  {
    if depth > 0 {
      var s, t := Row(x, y, depth - 1), [Index(x, y, depth - 1)];
      assert Row(x, y, depth) == s + t;
      assert p in s + t <==> p in s || p in t;
      RowMembers(x, y, depth - 1, p);
    }
  }

  lemma {:induction false} PlaneMembers(x: int, width: int, depth: int, p: Index)
    ensures p in Plane(x, width, depth) <==> (p.x == x && 0 <= p.y < width && 0 <= p.z < depth)
    decreases width
  {
    if width > 0 {
      var s, t := Plane(x, width - 1, depth), Row(x, width - 1, depth);
      assert Plane(x, width, depth) == s + t;
      assert p in s + t <==> p in s || p in t;
      PlaneMembers(x, width - 1, depth, p);
      RowMembers(x, width - 1, depth, p);
    }
  }

  /** Exactly the positions of the box `[0, length) x [0, width) x [0, depth)` are visited. */
  lemma IndicesMembers(length: int, width: int, depth: int, p: Index)
    ensures p in Indices(length, width, depth) <==> InBox(p, length, width, depth)
  {
    if p in Indices(length, width, depth) {
      IndicesSound(length, width, depth, p);
    }
    if InBox(p, length, width, depth) {
      IndicesComplete(length, width, depth, p);
    }
  }

  lemma {:induction false} IndicesSound(length: int, width: int, depth: int, p: Index)
    requires p in Indices(length, width, depth)
    ensures InBox(p, length, width, depth)
    decreases length
  {
    var s, t := Indices(length - 1, width, depth), Plane(length - 1, width, depth);
    assert Indices(length, width, depth) == s + t;
    if p in s {
      IndicesSound(length - 1, width, depth, p);
    } else {
      assert p in t;
      PlaneMembers(length - 1, width, depth, p);
    }
  }

  lemma {:induction false} IndicesComplete(length: int, width: int, depth: int, p: Index)
    requires InBox(p, length, width, depth)
    ensures p in Indices(length, width, depth)
    decreases length
  {
    var s, t := Indices(length - 1, width, depth), Plane(length - 1, width, depth);
    assert Indices(length, width, depth) == s + t;
    if p.x == length - 1 {
      PlaneMembers(length - 1, width, depth, p);
      assert p in t;
    } else {
      IndicesComplete(length - 1, width, depth, p);
      assert p in s;
    }
  }

  // ---------------------------------------------------------------------
  // In which order
  // ---------------------------------------------------------------------

  /** Appending two ordered runs, every element of the first before every element of the second,
      gives an ordered run. */
  lemma OrderedAppend(s: seq<Index>, t: seq<Index>)
    requires StrictlyOrdered(s) && StrictlyOrdered(t)
    requires forall p, q :: 0 <= p < |s| && 0 <= q < |t| ==> Before(s[p], t[q])
    ensures StrictlyOrdered(s + t)
  {
    var u := s + t;
    forall p, q | 0 <= p < q < |u|
      ensures Before(u[p], u[q])
    {
      if q < |s| {
        assert u[p] == s[p] && u[q] == s[q];
      } else if p >= |s| {
        assert u[p] == t[p - |s|] && u[q] == t[q - |s|];
      } else {
        assert u[p] == s[p] && u[q] == t[q - |s|];
      }
    }
  }

  lemma {:induction false} RowOrdered(x: int, y: int, depth: int)
    ensures StrictlyOrdered(Row(x, y, depth))
    decreases depth
  {
    if depth > 0 {
      RowOrdered(x, y, depth - 1);
      var s := Row(x, y, depth - 1);
      forall p | 0 <= p < |s|
        ensures Before(s[p], Index(x, y, depth - 1))
      {
        RowMembers(x, y, depth - 1, s[p]);
      }
      OrderedAppend(s, [Index(x, y, depth - 1)]);
      assert Row(x, y, depth) == s + [Index(x, y, depth - 1)];
    }
  }

  lemma {:induction false} PlaneOrdered(x: int, width: int, depth: int)
    ensures StrictlyOrdered(Plane(x, width, depth))
    decreases width
  {
    if width > 0 {
      PlaneOrdered(x, width - 1, depth);
      RowOrdered(x, width - 1, depth);
      var s, t := Plane(x, width - 1, depth), Row(x, width - 1, depth);
      forall p, q | 0 <= p < |s| && 0 <= q < |t|
        ensures Before(s[p], t[q])
      {
        PlaneMembers(x, width - 1, depth, s[p]);
        RowMembers(x, width - 1, depth, t[q]);
      }
      OrderedAppend(s, t);
      assert Plane(x, width, depth) == s + t;
    }
  }

  /** The loop nest visits positions in strictly increasing lexicographic order. */
  lemma {:induction false} IndicesOrdered(length: int, width: int, depth: int)
    ensures StrictlyOrdered(Indices(length, width, depth))
    decreases length
  {
    if length > 0 {
      IndicesOrdered(length - 1, width, depth);
      PlaneOrdered(length - 1, width, depth);
      var s, t := Indices(length - 1, width, depth), Plane(length - 1, width, depth);
      forall p, q | 0 <= p < |s| && 0 <= q < |t|
        ensures Before(s[p], t[q])
      {
        IndicesMembers(length - 1, width, depth, s[p]);
        PlaneMembers(length - 1, width, depth, t[q]);
      }
      OrderedAppend(s, t);
      assert Indices(length, width, depth) == s + t;
    }
  }

  /** No position is visited twice. */
  lemma IndicesDistinct(length: int, width: int, depth: int)
    ensures forall p, q :: 0 <= p < q < |Indices(length, width, depth)| ==>
              Indices(length, width, depth)[p] != Indices(length, width, depth)[q]
  {
    IndicesOrdered(length, width, depth);
  }
}
