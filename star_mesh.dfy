/**
 * `StarAvatarGenerator.CreateStarMesh`: a flat star with `points` tips, built as
 * a fan of `2 * points` triangles around a centre vertex. Only the integer
 * structure is modelled: how many vertices there are, which radius each ring
 * vertex uses, and the triangle index array.
 */
module StarMesh {
  import opened CSharpInt

  /** The radius a vertex is placed at (the centre sits at the origin). */
  datatype Radius = Centre | Outer | Inner

  /** The largest point count whose index arithmetic stays inside a 32-bit int. */
  const MaxPoints: int := MaxInt32 / 6

  /** `points * 2` as the C# `int` arithmetic computes it: the number of ring vertices. */
  function RingSize(points: Int32): (d: Int32)
    ensures d == Wrap32(2 * points)
    ensures d % 2 == 0
  {
    var d :=
      if points >= 0x4000_0000 then 2 * points - 0x1_0000_0000
      else if points < -0x4000_0000 then 2 * points + 0x1_0000_0000
      else 2 * points;
    Wrap32Unique(2 * points, d);
    d
  }

  /**
   * `CreateStarMesh` throws exactly when the ring size is negative (the vertex array
   * size `ring + 1` is negative) or three times the ring size leaves `int` (the
   * triangle array size wraps to a negative length, or to one shorter than the
   * indices the triangle loop writes).
   */
  predicate MeshThrows(points: Int32)
  {
    RingSize(points) < 0 || 3 * RingSize(points) > MaxInt32
  }

  /**
   * The point counts that build a mesh: `0 ..= MaxPoints`, and the same number above
   * `int.MinValue`, where the doubling wraps round to the ring of `points - int.MinValue`.
   */
  lemma MeshSizes(points: Int32)
    ensures !MeshThrows(points) <==> 0 <= points <= MaxPoints || MinInt32 <= points <= MinInt32 + MaxPoints
    ensures 0 <= points <= MaxPoints ==> RingSize(points) == 2 * points
    ensures MinInt32 <= points <= MinInt32 + MaxPoints ==> RingSize(points) == 2 * (points - MinInt32)
  {
  }

  /** Vertex `v` of the mesh: the centre first, then the ring alternating outer and inner, starting with a tip. */
  function VertexRadius(v: nat): Radius
  {
    if v == 0 then Centre else if (v - 1) % 2 == 0 then Outer else Inner
  }

  /** Triangle `t` of the fan: the centre, ring vertex `t + 1`, and the next ring vertex round the ring. */
  function Triangle(points: nat, t: nat): (tri: (int, int, int))
    requires t < 2 * points
    ensures tri.0 == 0
    ensures 1 <= tri.1 <= 2 * points && 1 <= tri.2 <= 2 * points
  {
    (0, t + 1, (t + 1) % (2 * points) + 1)
  }

  /** The next ring vertex after `t + 1`: the one after it, or vertex 1 once the ring is closed. */
  lemma NextRingVertex(points: nat, t: nat)
    requires t < 2 * points
    ensures t + 1 < 2 * points ==> Triangle(points, t).2 == t + 2
    ensures t + 1 == 2 * points ==> Triangle(points, t).2 == 1
  {
    if t + 1 < 2 * points {
      ModBelow(t + 1, 2 * points);
    } else {
      ModSelf(2 * points);
    }
  }

  lemma ModBelow(a: int, n: int)
    requires 0 <= a < n
    ensures a % n == a
  {
  }

  lemma ModSelf(n: int)
    requires 0 < n
    ensures n % n == 0
  {
  }

  /** Every index of every triangle names one of the `2 * points + 1` vertices. */
  lemma TriangleIndicesInRange(points: nat, t: nat)
    requires t < 2 * points
    ensures var tri := Triangle(points, t);
      && 0 <= tri.0 < 2 * points + 1 && 0 <= tri.1 < 2 * points + 1 && 0 <= tri.2 < 2 * points + 1
  {
  }

  /** Neighbouring triangles share an edge: each one's last vertex is the next one's middle vertex, and the last wraps to vertex 1. */
  lemma FanIsClosed(points: nat, t: nat)
    requires t < 2 * points
    ensures t + 1 < 2 * points ==> Triangle(points, t).2 == Triangle(points, t + 1).1
    ensures t + 1 == 2 * points ==> Triangle(points, t).2 == 1 == Triangle(points, 0).1
  {
    NextRingVertex(points, t);
  }

  /** Each triangle joins an outer tip to an inner notch, so the outline alternates. */
  lemma TriangleSpansTipAndNotch(points: nat, t: nat)
    requires t < 2 * points
    ensures var tri := Triangle(points, t);
      {VertexRadius(tri.1), VertexRadius(tri.2)} == {Outer, Inner}
  {
    NextRingVertex(points, t);
    var tri := Triangle(points, t);
    if t + 1 < 2 * points {
      assert (tri.1 - 1) % 2 != (tri.2 - 1) % 2;
    }
  }

  /** Every ring vertex is the middle vertex of exactly one triangle: the fan covers the ring once. */
  lemma FanCoversRingOnce(points: nat, v: nat)
    requires 1 <= v <= 2 * points
    ensures Triangle(points, v - 1).1 == v
    ensures forall t :: 0 <= t < 2 * points && Triangle(points, t).1 == v ==> t == v - 1
  {
  }

  /**
   * `CreateStarMesh`: the vertex radii and the triangle index array of the fan
   * around the ring of `RingSize(points)` vertices, or a throw as `MeshThrows` says.
   */
  method CreateStarMesh(points: Int32) returns (thrown: bool, vertices: array<Radius>, triangles: array<int>)
    ensures thrown <==> MeshThrows(points)
    ensures thrown ==> vertices.Length == 0 && triangles.Length == 0
    ensures !thrown ==> vertices.Length == RingSize(points) + 1 && triangles.Length == 3 * RingSize(points)
    ensures !thrown ==> forall v :: 0 <= v < vertices.Length ==> vertices[v] == VertexRadius(v)
    ensures !thrown ==> forall t :: 0 <= t < RingSize(points) ==>
      (triangles[3 * t], triangles[3 * t + 1], triangles[3 * t + 2]) == Triangle(RingSize(points) / 2, t)
    ensures fresh(vertices) && fresh(triangles)
  {
    var ring: int := RingSize(points);
    var vertexCount := ring + 1;
    if vertexCount < 0 {
      // `new Vector3[vertexCount]` with a negative size
      thrown := true;
      vertices := new Radius[0];
      triangles := new int[0];
      return;
    }
    var triangleCount := Wrap32(ring * 3);
    if triangleCount < 0 || triangleCount < ring * 3 {
      // a negative `new int[...]`, or the triangle loop indexing past a wrapped length
      TriangleCountWraps(ring);
      thrown := true;
      vertices := new Radius[0];
      triangles := new int[0];
      return;
    }
    thrown := false;
    vertices := new Radius[vertexCount](_ => Centre);
    triangles := new int[triangleCount];
    FillVertices(vertices, ring / 2);
    FillTriangles(triangles, ring / 2);
  }

  /** Three times a ring size wraps to itself exactly when it stays inside `int`. */
  lemma TriangleCountWraps(ring: int)
    requires 0 <= ring <= MaxInt32
    ensures var w := Wrap32(ring * 3); w < 0 || w < ring * 3 <==> ring * 3 > MaxInt32
  {
    var w := Wrap32(ring * 3);
    if ring * 3 > MaxInt32 {
      assert ring * 3 - w >= 0x1_0000_0000 by {
        assert (ring * 3 - w) % 0x1_0000_0000 == 0;
        assert ring * 3 - w > 0;
      }
    }
  }

  /** The first loop: the centre, then each ring vertex's radius by parity. */
  method FillVertices(vertices: array<Radius>, points: nat)
    requires vertices.Length == 2 * points + 1
    modifies vertices
    ensures forall v :: 0 <= v < vertices.Length ==> vertices[v] == VertexRadius(v)
  {
    vertices[0] := Centre;
    for i := 0 to points * 2
      invariant vertices[0] == Centre
      invariant forall v :: 1 <= v <= i ==> vertices[v] == VertexRadius(v)
    {
      vertices[i + 1] := if i % 2 == 0 then Outer else Inner;
    }
    forall v | 0 <= v < vertices.Length
      ensures vertices[v] == VertexRadius(v)
    {
      if v > 0 {
        assert 1 <= v <= points * 2;
      }
    }
  }

  /** The second loop: three indices per triangle. */
  method FillTriangles(triangles: array<int>, points: nat)
    requires triangles.Length == 6 * points
    modifies triangles
    ensures forall t :: 0 <= t < 2 * points ==>
      (triangles[3 * t], triangles[3 * t + 1], triangles[3 * t + 2]) == Triangle(points, t)
  {
    for i := 0 to points * 2
      invariant forall t :: 0 <= t < i ==> (triangles[3 * t], triangles[3 * t + 1], triangles[3 * t + 2]) == Triangle(points, t)
    {
      var triIndex := i * 3;
      triangles[triIndex] := 0;
      triangles[triIndex + 1] := i + 1;
      triangles[triIndex + 2] := (i + 1) % (points * 2) + 1;
    }
  }
}
