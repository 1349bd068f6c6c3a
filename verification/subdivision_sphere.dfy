/** `Subdivision_Sphere`: a tetrahedron whose faces are split recursively
    into four, each new point being the normalised midpoint of two earlier
    ones. Points stay symbolic: a corner of the tetrahedron, or the midpoint
    of two points. */
module SubdivisionSphere {

  datatype Point = Vertex(k: nat) | Midpoint(p: Point, q: Point)

  /** 4 to the power `n`, with every `n <= 0` counting as 0. */
  function Pow4(n: int): (p: nat)
    ensures p >= 1
  {
    if n <= 0 then 1 else 4 * Pow4(n - 1)
  }

  /** The number of points one triangle adds at depth `n`. */
  function Added(n: int): nat
  {
    Pow4(n) - 1
  }

  /** The number of indices one triangle adds at depth `n`. */
  function Emitted(n: int): nat
  {
    3 * Pow4(n)
  }

  /** The depth a `count` asks for. */
  function Depth(n: int): nat
  {
    if n <= 0 then 0 else n
  }

  /** A triangle as its three corner indices. */
  datatype Tri = Tri(a: nat, b: nat, c: nat)

  /** Every corner of `t` names one of `n` points. */
  predicate FitsTri(t: Tri, n: nat)
  {
    t.a < n && t.b < n && t.c < n
  }

  /** Every corner of every triangle names one of `n` points. */
  predicate Fits(tris: seq<Tri>, n: nat)
  {
    forall k :: 0 <= k < |tris| ==> FitsTri(tris[k], n)
  }

  /** Every index from `from` on names one of `bound` points. */
  predicate AllBelow(ix: seq<nat>, from: nat, bound: nat)
  {
    forall x :: from <= x < |ix| ==> ix[x] < bound
  }

  /** The points from `from` on are all midpoints. */
  predicate NewMidpoints(ps: seq<Point>, from: nat)
  {
    forall x :: from <= x < |ps| ==> ps[x].Midpoint?
  }

  /** What `subdivide_triangle(a, b, c, count)` leaves in the position and
      index lists `ps` and `ix`: with `count <= 0` the triangle itself; else
      the three midpoints ab, ac, bc and the four sub-triangles (a, ab, ac),
      (ab, b, bc), (ac, bc, c), (ab, bc, ac), one level down. Only triangles
      that are split read positions, so only they need their corners to
      exist. */
  function Subdivide(ps: seq<Point>, ix: seq<nat>, t: Tri, count: int): (r: (seq<Point>, seq<nat>))
    requires count > 0 ==> FitsTri(t, |ps|)
    ensures |r.0| == |ps| + Added(count)
    ensures |r.1| == |ix| + Emitted(count)
    decreases Depth(count), 1, 0
  {
    if count <= 0 then
      (ps, ix + [t.a, t.b, t.c])
    else
      var ab, ac, bc := |ps|, |ps| + 1, |ps| + 2;
      var ps0 := ps + [Midpoint(ps[t.a], ps[t.b]), Midpoint(ps[t.a], ps[t.c]), Midpoint(ps[t.b], ps[t.c])];
      SubdivideAll(ps0, ix, Quarters(t, |ps|), count - 1)
  }

  /** The four sub-triangles of `t` when its midpoints are stored from `m` on. */
  function Quarters(t: Tri, m: nat): (q: seq<Tri>)
    ensures FitsTri(t, m) ==> Fits(q, m + 3)
  {
    [Tri(t.a, m, m + 1), Tri(m, t.b, m + 2), Tri(m + 1, m + 2, t.c), Tri(m, m + 2, m + 1)]
  }

  /** `Subdivide` on each triangle of `tris` in turn. */
  function SubdivideAll(ps: seq<Point>, ix: seq<nat>, tris: seq<Tri>, count: int): (r: (seq<Point>, seq<nat>))
    requires count > 0 ==> Fits(tris, |ps|)
    ensures |r.0| == |ps| + |tris| * Added(count)
    ensures |r.1| == |ix| + |tris| * Emitted(count)
    decreases Depth(count) + 1, 0, |tris|
  {
    if tris == [] then
      (ps, ix)
    else
      FitsRest(tris, |ps|, count);
      var r1 := Subdivide(ps, ix, tris[0], count);
      FitsMore(tris[1..], |ps|, |r1.0|, count);
      var r := SubdivideAll(r1.0, r1.1, tris[1..], count);
      Distrib(|tris|, Added(count));
      Distrib(|tris|, Emitted(count));
      r
  }

  lemma FitsRest(tris: seq<Tri>, n: nat, count: int)
    requires tris != [] && (count > 0 ==> Fits(tris, n))
    ensures count > 0 ==> FitsTri(tris[0], n) && Fits(tris[1..], n)
  {
  }

  lemma FitsMore(tris: seq<Tri>, n: nat, m: nat, count: int)
    requires n <= m && (count > 0 ==> Fits(tris, n))
    ensures count > 0 ==> Fits(tris, m)
  {
  }

  lemma Prefix<T>(a: seq<T>, b: seq<T>, c: seq<T>)
    requires |a| <= |b| <= |c| && b[..|a|] == a && c[..|b|] == b
    ensures c[..|a|] == a
    ensures forall x :: |a| <= x < |b| ==> c[x] == b[x]
  {
    assert c[..|b|][..|a|] == c[..|a|];
  }

  /** Subdividing only appends to both lists, adds only midpoints, and every
      index it adds names a point that exists once it is done. */
  lemma {:induction false} SubdivideFacts(ps: seq<Point>, ix: seq<nat>, t: Tri, count: int)
    requires count > 0 ==> FitsTri(t, |ps|)
    ensures var r := Subdivide(ps, ix, t, count);
      && r.0[..|ps|] == ps && r.1[..|ix|] == ix
      && NewMidpoints(r.0, |ps|)
      && (FitsTri(t, |ps|) ==> AllBelow(r.1, |ix|, |r.0|))
    decreases Depth(count), 1, 0
  {
    if count > 0 {
      var ps0 := ps + [Midpoint(ps[t.a], ps[t.b]), Midpoint(ps[t.a], ps[t.c]), Midpoint(ps[t.b], ps[t.c])];
      SubdivideAllFacts(ps0, ix, Quarters(t, |ps|), count - 1);
      var r := SubdivideAll(ps0, ix, Quarters(t, |ps|), count - 1);
      Prefix(ps, ps0, r.0);
    }
  }

  lemma {:induction false} SubdivideAllFacts(ps: seq<Point>, ix: seq<nat>, tris: seq<Tri>, count: int)
    requires count > 0 ==> Fits(tris, |ps|)
    ensures var r := SubdivideAll(ps, ix, tris, count);
      && r.0[..|ps|] == ps && r.1[..|ix|] == ix
      && NewMidpoints(r.0, |ps|)
      && (Fits(tris, |ps|) ==> AllBelow(r.1, |ix|, |r.0|))
    decreases Depth(count) + 1, 0, |tris|
  {
    if tris != [] {
      FitsRest(tris, |ps|, count);
      var r1 := Subdivide(ps, ix, tris[0], count);
      FitsMore(tris[1..], |ps|, |r1.0|, count);
      SubdivideFacts(ps, ix, tris[0], count);
      SubdivideAllFacts(r1.0, r1.1, tris[1..], count);
      var r := SubdivideAll(r1.0, r1.1, tris[1..], count);
      Prefix(ps, r1.0, r.0);
      Prefix(ix, r1.1, r.1);
      MidpointsCompose(|ps|, r1.0, r.0);
      if Fits(tris, |ps|) {
        FitsRest(tris, |ps|, 1);
        FitsMore(tris[1..], |ps|, |r1.0|, 1);
        BelowCompose(|ix|, r1.1, r.1, |r1.0|, |r.0|);
      }
    }
  }

  lemma MidpointsCompose(from: nat, a: seq<Point>, b: seq<Point>)
    requires from <= |a| <= |b| && b[..|a|] == a
    requires NewMidpoints(a, from) && NewMidpoints(b, |a|)
    ensures NewMidpoints(b, from)
  {
    forall x | from <= x < |a|
      ensures b[x].Midpoint?
    {
      assert b[x] == b[..|a|][x];
    }
  }

  lemma BelowCompose(from: nat, a: seq<nat>, b: seq<nat>, na: nat, nb: nat)
    requires from <= |a| <= |b| && b[..|a|] == a && na <= nb
    requires AllBelow(a, from, na) && AllBelow(b, |a|, nb)
    ensures AllBelow(b, from, nb)
  {
    forall x | from <= x < |a|
      ensures b[x] < nb
    {
      assert b[x] == b[..|a|][x];
    }
  }

  lemma Distrib(n: nat, p: nat)
    requires n >= 1
    ensures (n - 1) * p + p == n * p
  {
  }

  /** The four faces of the tetrahedron the sphere starts from. */
  const Faces: seq<Tri> := [Tri(0, 1, 2), Tri(3, 2, 1), Tri(1, 0, 3), Tri(0, 2, 3)]

  /** The four corners of the tetrahedron. */
  const Tetrahedron: seq<Point> := [Vertex(0), Vertex(1), Vertex(2), Vertex(3)]

  /** The sphere's positions and indices after the four faces are
      subdivided `n` times. */
  function SphereMesh(n: int): (r: (seq<Point>, seq<nat>))
  {
    SubdivideAll(Tetrahedron, [], Faces, n)
  }

  /** A sphere of `n` subdivisions has 4^(n+1) points and 4^(n+1)
      triangles, every index names one of its points, and the points after
      the four corners are all midpoints. */
  lemma SphereCounts(n: int)
    ensures var (ps, ix) := SphereMesh(n);
      && |ps| == 4 * Pow4(n)
      && |ix| == 12 * Pow4(n)
      && ps[..4] == Tetrahedron
      && AllBelow(ix, 0, |ps|)
      && NewMidpoints(ps, 4)
  {
    assert Fits(Faces, 4);
    SubdivideAllFacts(Tetrahedron, [], Faces, n);
  }

  /** A split triangle adds three points and nine indices when it reaches
      the last level. */
  lemma OneLevel(ps: seq<Point>, ix: seq<nat>, t: Tri)
    requires FitsTri(t, |ps|)
    ensures |Subdivide(ps, ix, t, 1).0| == |ps| + 3
    ensures Subdivide(ps, ix, t, 1).1 == ix + [t.a, |ps|, |ps| + 1, |ps|, t.b, |ps| + 2, |ps| + 1, |ps| + 2, t.c, |ps|, |ps| + 2, |ps| + 1]
  {
    var m := |ps|;
    var ps0 := ps + [Midpoint(ps[t.a], ps[t.b]), Midpoint(ps[t.a], ps[t.c]), Midpoint(ps[t.b], ps[t.c])];
    Four(ps0, ix, Tri(t.a, m, m + 1), Tri(m, t.b, m + 2), Tri(m + 1, m + 2, t.c), Tri(m, m + 2, m + 1), 0);
  }

  /** A triangle with `count <= 0` adds exactly its own three corners and no
      points. */
  lemma NoSplit(ps: seq<Point>, ix: seq<nat>, t: Tri, count: int)
    requires count <= 0
    ensures Subdivide(ps, ix, t, count) == (ps, ix + [t.a, t.b, t.c])
  {
  }

  /** `SubdivideAll` on four triangles is four `Subdivide`s in a row. */
  lemma Four(ps: seq<Point>, ix: seq<nat>, t0: Tri, t1: Tri, t2: Tri, t3: Tri, count: int)
    requires count > 0 ==> FitsTri(t0, |ps|) && FitsTri(t1, |ps|) && FitsTri(t2, |ps|) && FitsTri(t3, |ps|)
    ensures var r1 := Subdivide(ps, ix, t0, count);
      var r2 := Subdivide(r1.0, r1.1, t1, count);
      var r3 := Subdivide(r2.0, r2.1, t2, count);
      SubdivideAll(ps, ix, [t0, t1, t2, t3], count) == Subdivide(r3.0, r3.1, t3, count)
  {
    var r1 := Subdivide(ps, ix, t0, count);
    var r2 := Subdivide(r1.0, r1.1, t1, count);
    var r3 := Subdivide(r2.0, r2.1, t2, count);
    FirstOf(ps, ix, t0, [t1, t2, t3], count);
    FirstOf(r1.0, r1.1, t1, [t2, t3], count);
    FirstOf(r2.0, r2.1, t2, [t3], count);
    FirstOf(r3.0, r3.1, t3, [], count);
  }

  /** `SubdivideAll` subdivides the first triangle, then the rest. */
  lemma FirstOf(ps: seq<Point>, ix: seq<nat>, t: Tri, rest: seq<Tri>, count: int)
    requires count > 0 ==> FitsTri(t, |ps|) && Fits(rest, |ps|)
    ensures var r1 := Subdivide(ps, ix, t, count);
      && (count > 0 ==> Fits(rest, |r1.0|))
      && SubdivideAll(ps, ix, [t] + rest, count) == SubdivideAll(r1.0, r1.1, rest, count)
  {
    assert ([t] + rest)[0] == t && ([t] + rest)[1..] == rest;
    FitsMore(rest, |ps|, |Subdivide(ps, ix, t, count).0|, count);
  }

  /** The shape's position and index lists. */
  class Sphere {
    var positions: seq<Point>
    var indices: seq<nat>

    constructor (maxSubdivisions: int)
      ensures (positions, indices) == SphereMesh(maxSubdivisions)
    {
      positions := Tetrahedron;
      indices := [];
      new;
      Four(Tetrahedron, [], Faces[0], Faces[1], Faces[2], Faces[3], maxSubdivisions);
      SubdivideTriangle(0, 1, 2, maxSubdivisions);
      SubdivideTriangle(3, 2, 1, maxSubdivisions);
      SubdivideTriangle(1, 0, 3, maxSubdivisions);
      SubdivideTriangle(0, 2, 3, maxSubdivisions);
    }

    /** `subdivide_triangle`, appending to the lists in place. */
    method SubdivideTriangle(a: nat, b: nat, c: nat, count: int)
      requires count > 0 ==> a < |positions| && b < |positions| && c < |positions|
      modifies this
      ensures (positions, indices) == Subdivide(old(positions), old(indices), Tri(a, b, c), count)
      decreases Depth(count)
    {
      if count <= 0 {
        indices := indices + [a, b, c];
        return;
      }
      var abPoint, acPoint, bcPoint := Midpoint(positions[a], positions[b]), Midpoint(positions[a], positions[c]), Midpoint(positions[b], positions[c]);
      var ab, ac, bc := |positions|, |positions| + 1, |positions| + 2;
      positions := positions + [abPoint];
      positions := positions + [acPoint];
      positions := positions + [bcPoint];
      assert positions == old(positions) + [abPoint, acPoint, bcPoint];
      assert Quarters(Tri(a, b, c), ab) == [Tri(a, ab, ac), Tri(ab, b, bc), Tri(ac, bc, c), Tri(ab, bc, ac)];
      Four(positions, indices, Tri(a, ab, ac), Tri(ab, b, bc), Tri(ac, bc, c), Tri(ab, bc, ac), count - 1);
      SubdivideTriangle(a, ab, ac, count - 1);
      SubdivideTriangle(ab, b, bc, count - 1);
      SubdivideTriangle(ac, bc, c, count - 1);
      SubdivideTriangle(ab, bc, ac, count - 1);
    }
  }
}
