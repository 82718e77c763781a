/** The `VerletPhysics` mass-spring system: vertices and springs are queued by
    `addVertex` / `addSpring`, `bake` lays them out in flat typed buffers and
    derives every spring's rest length, and `update` runs ten rounds of the
    three compute kernels over those buffers. The GPU renderer is replaced by
    the `length` function it evaluates (`length()` / `distance()`, a square
    root), and each kernel dispatch by a sequential pass. */
module Verlet {
  import opened Vectors
  import opened VerletTopology
  import opened VerletKernels

  // ---------------------------------------------------------------------------
  // What `bake` writes.

  /** The `vec4` value `addVertex` stores and `bake` copies into the position
      buffer. */
  function InitialPosition(v: Vertex): Vec4
  {
    Vec4(v.x, v.y, v.z, v.w)
  }

  /** Slots `2v` and `2v + 1` of the pointer buffer hold vertex `v`'s range:
      the running pointer when `bake` reached it, and its list length if it is
      free (0, the buffer's initial value, if it is fixed). */
  predicate PtrSlotOk(ptr: seq<int>, vertices: seq<Vertex>, v: int)
    requires 0 <= v < |vertices| && |ptr| == 2 * |vertices|
  {
    StartAt(ptr, v) == RangeStart(vertices, v) && CountAt(ptr, v) == RangeCount(vertices[v])
  }

  predicate PtrTableOk(ptr: seq<int>, vertices: seq<Vertex>)
  {
    |ptr| == 2 * |vertices| && forall v :: 0 <= v < |vertices| ==> PtrSlotOk(ptr, vertices, v)
  }

  /** The influencer buffer of `2 * m` slots starts with the flattened lists
      and keeps its zero initialisation after them. */
  predicate InfluencerTableOk(influencer: seq<int>, vertices: seq<Vertex>, m: nat)
  {
    var flat := Flatten(vertices);
    |influencer| == 2 * m && |flat| <= |influencer| && influencer[..|flat|] == flat
    && forall k :: |flat| <= k < |influencer| ==> influencer[k] == 0
  }

  /** The rest length `initSpringLengths` gives spring `s`: the distance of its
      endpoints' baked positions times its rest length factor. */
  function RestLength(pos: seq<Vec4>, s: Spring, length: Vec3 -> real): real
    requires s.vertex0 < |pos| && s.vertex1 < |pos|
  {
    length(Sub(pos[s.vertex0].Xyz(), pos[s.vertex1].Xyz())) * s.restLengthFactor
  }

  /** Spring `j`'s slots of the endpoint, parameter and factor buffers. */
  predicate SpringSlotOk(springVertex: seq<int>, params: seq<real>, factors: seq<real>, springs: seq<Spring>,
                         pos: seq<Vec4>, length: Vec3 -> real, j: int)
    requires 0 <= j < |springs| && |springVertex| == 2 * |springs| && |params| == 2 * |springs| && |factors| == |springs|
  {
    var s := springs[j];
    Vertex0At(springVertex, j) == s.vertex0 && Vertex1At(springVertex, j) == s.vertex1
    && StiffnessAt(params, j) == s.stiffness && factors[j] == s.restLengthFactor
    && s.vertex0 < |pos| && s.vertex1 < |pos| && RestLengthAt(params, j) == RestLength(pos, s, length)
  }

  predicate SpringTableOk(springVertex: seq<int>, params: seq<real>, factors: seq<real>, springs: seq<Spring>,
                          pos: seq<Vec4>, length: Vec3 -> real)
  {
    |springVertex| == 2 * |springs| && |params| == 2 * |springs| && |factors| == |springs|
    && forall j :: 0 <= j < |springs| ==> SpringSlotOk(springVertex, params, factors, springs, pos, length, j)
  }

  /** A spring baked with rest length factor 1 whose endpoints lie at least
      0.000001 apart exerts no force in the first round: `initSpringLengths`
      measures `v0.distance(v1)` and the kernel `length(v1 - v0)`, which
      agree for a length that ignores the sign of its argument. */
  lemma BakedSpringAtRest(springVertex: seq<int>, params: seq<real>, factors: seq<real>, springs: seq<Spring>,
                          pos: seq<Vec4>, length: Vec3 -> real, j: nat)
    requires LengthOk(length)
    requires SpringTableOk(springVertex, params, factors, springs, pos, length)
    requires EndpointsOk(springVertex, |pos|)
    requires j < |springs| && springs[j].restLengthFactor == 1.0
    requires length(Sub(pos[Vertex0At(springVertex, j)].Xyz(), pos[Vertex1At(springVertex, j)].Xyz())) >= MinDistance
    ensures SpringForces(pos, springVertex, params, |springs|, length)[j] == Zero
  {
    assert SpringSlotOk(springVertex, params, factors, springs, pos, length, j);
    var p0 := pos[Vertex0At(springVertex, j)].Xyz();
    var p1 := pos[Vertex1At(springVertex, j)].Xyz();
    assert Sub(p1, p0) == Scale(-1.0, Sub(p0, p1));
    assert length(Sub(p1, p0)) == length(Sub(p0, p1));
    SpringForceAtRest(p0, p1, StiffnessAt(params, j), RestLengthAt(params, j), length);
  }

  /** Vertex `v`'s range in the baked tables holds exactly its entries. */
  predicate RangeIsEntries(ptr: seq<int>, influencer: seq<int>, vertices: seq<Vertex>, v: int)
    requires 0 <= v < |vertices|
  {
    RangeOf(ptr, influencer, v) == Entries(vertices[v])
  }

  /** The tables `bake` derives from a consistent topology make every vertex's
      range exactly its entries: nothing for a fixed vertex, its encoded
      spring list for a free one. And they meet what the kernels need. */
  lemma BakedRanges(vertices: seq<Vertex>, springs: seq<Spring>, ptr: seq<int>, influencer: seq<int>)
    requires TopologyOk(vertices, springs)
    requires PtrTableOk(ptr, vertices) && InfluencerTableOk(influencer, vertices, |springs|)
    ensures InfluenceOk(ptr, influencer, |vertices|, |springs|, |Flatten(vertices)|)
    ensures forall v :: 0 <= v < |vertices| ==> RangeIsEntries(ptr, influencer, vertices, v)
  {
    forall k | 0 <= k < |Flatten(vertices)|
      ensures EntryNamesSpring(influencer, k, |springs|)
    {
      BakedEntry(vertices, springs, influencer, k);
    }
    forall v | 0 <= v < |vertices|
      ensures RangeFits(ptr, v, |Flatten(vertices)|)
      ensures RangeIsEntries(ptr, influencer, vertices, v)
    {
      BakedRange(vertices, springs, ptr, influencer, v);
    }
  }

  lemma BakedEntry(vertices: seq<Vertex>, springs: seq<Spring>, influencer: seq<int>, k: nat)
    requires TopologyOk(vertices, springs) && InfluencerTableOk(influencer, vertices, |springs|)
    requires k < |Flatten(vertices)|
    ensures EntryNamesSpring(influencer, k, |springs|)
  {
    FlattenEntry(vertices, springs, k);
    assert influencer[k] == influencer[..|Flatten(vertices)|][k];
  }

  lemma BakedRange(vertices: seq<Vertex>, springs: seq<Spring>, ptr: seq<int>, influencer: seq<int>, v: nat)
    requires PtrTableOk(ptr, vertices) && InfluencerTableOk(influencer, vertices, |springs|)
    requires v < |vertices|
    ensures RangeFits(ptr, v, |Flatten(vertices)|)
    ensures RangeOf(ptr, influencer, v) == Entries(vertices[v])
  {
    assert PtrSlotOk(ptr, vertices, v);
    RangeTiling(vertices, v);
    var flat := Flatten(vertices);
    var start := RangeStart(vertices, v);
    var end := RangeStart(vertices, v + 1);
    assert influencer[start..end] == influencer[..|flat|][start..end];
  }

  /** The pointer buffer `bake` writes: per vertex, the running pointer and
      the range length. */
  function PtrTable(vertices: seq<Vertex>): (r: seq<int>)
    ensures |r| == 2 * |vertices|
  {
    if |vertices| == 0 then []
    else
      var prefix := vertices[..|vertices| - 1];
      PtrTable(prefix) + [|Flatten(prefix)|, RangeCount(vertices[|vertices| - 1])]
  }

  /** The position buffer `bake` writes: per vertex, `(x, y, z, w)`. */
  function PositionBuffer(vertices: seq<Vertex>): (r: seq<real>)
    ensures |r| == 4 * |vertices|
  {
    if |vertices| == 0 then []
    else
      var v := vertices[|vertices| - 1];
      PositionBuffer(vertices[..|vertices| - 1]) + [v.x, v.y, v.z, v.w]
  }

  /** The inner `springs.forEach` of `bake`'s first loop: one encoded entry
      per reference, written from slot `p` on. */
  method WriteEntries(refs: seq<SpringRef>, influencer: array<int>, p: nat) returns (q: nat)
    requires p + |refs| <= influencer.Length
    modifies influencer
    ensures q == p + |refs|
    ensures influencer[..q] == old(influencer[..p]) + EncodeAll(refs)
    ensures forall k :: q <= k < influencer.Length ==> influencer[k] == old(influencer[k])
  {
    q := p;
    var k := 0;
    while k < |refs|
      invariant 0 <= k <= |refs| && q == p + k
      invariant influencer[..q] == old(influencer[..p]) + EncodeAll(refs)[..k]
      invariant forall j :: q <= j < influencer.Length ==> influencer[j] == old(influencer[j])
    {
      var s := refs[k];
      influencer[q] := (s.id + 1) * s.sign;
      assert EncodeAll(refs)[..k + 1] == EncodeAll(refs)[..k] + [Encode(s)];
      assert influencer[..q + 1] == influencer[..q] + [Encode(s)];
      q := q + 1;
      k := k + 1;
    }
    assert EncodeAll(refs)[..k] == EncodeAll(refs);
  }

  /** Every slot pair of the pointer table holds its vertex's range. */
  lemma {:induction false} PtrTableSlots(vertices: seq<Vertex>)
    ensures PtrTableOk(PtrTable(vertices), vertices)
  {
    if |vertices| > 0 {
      var n := |vertices| - 1;
      var prefix := vertices[..n];
      PtrTableSlots(prefix);
      forall v | 0 <= v < |vertices|
        ensures PtrSlotOk(PtrTable(vertices), vertices, v)
      {
        if v < n {
          assert PtrSlotOk(PtrTable(prefix), prefix, v);
          assert vertices[..v] == prefix[..v];
        } else {
          assert vertices[..v] == prefix;
        }
      }
    }
  }

  /** Element `v` of the position buffer is vertex `v`'s stored value. */
  lemma {:induction false} PositionBufferElements(vertices: seq<Vertex>)
    ensures forall v :: 0 <= v < |vertices| ==> Vec4At(PositionBuffer(vertices), v) == InitialPosition(vertices[v])
  {
    if |vertices| > 0 {
      var n := |vertices| - 1;
      PositionBufferElements(vertices[..n]);
    }
  }

  /** One iteration of `bake`'s first loop: vertex `v`'s position, its
      `(start, count)` slots (the count slot only when it is free) and its
      entries. */
  method WriteVertex(v: Vertex, position: array<real>, ptr: array<int>, influencer: array<int>, p: nat) returns (q: nat)
    requires 4 * v.id + 3 < position.Length && 2 * v.id + 1 < ptr.Length && p + RangeCount(v) <= influencer.Length
    requires ptr != influencer && ptr[2 * v.id + 1] == 0
    modifies position, ptr, influencer
    ensures q == p + RangeCount(v)
    ensures position[..] == old(position[..])[4 * v.id := v.x][4 * v.id + 1 := v.y][4 * v.id + 2 := v.z][4 * v.id + 3 := v.w]
    ensures ptr[..] == old(ptr[..])[2 * v.id := p][2 * v.id + 1 := RangeCount(v)]
    ensures influencer[..q] == old(influencer[..p]) + Entries(v)
    ensures forall k :: q <= k < influencer.Length ==> influencer[k] == old(influencer[k])
  {
    position[v.id * 4 + 0] := v.x;
    position[v.id * 4 + 1] := v.y;
    position[v.id * 4 + 2] := v.z;
    position[v.id * 4 + 3] := v.w;
    ptr[v.id * 2 + 0] := p;
    q := p;
    if !v.fixed {
      ptr[v.id * 2 + 1] := |v.springs|;
      q := WriteEntries(v.springs, influencer, p);
    } else {
      assert influencer[..q] == old(influencer[..p]);
    }
  }

  /** Writing vertex `i`'s value after the first `i` extends the position prefix. */
  lemma PositionStep(vertices: seq<Vertex>, i: nat, s: seq<real>)
    requires i < |vertices| && 4 * i + 3 < |s| && s[..4 * i] == PositionBuffer(vertices[..i])
    ensures var v := vertices[i];
      s[4 * i := v.x][4 * i + 1 := v.y][4 * i + 2 := v.z][4 * i + 3 := v.w][..4 * i + 4] == PositionBuffer(vertices[..i + 1])
  {
    assert vertices[..i + 1][..i] == vertices[..i];
  }

  /** Writing vertex `i`'s slots after the first `i` extends the table prefix. */
  lemma PtrStep(vertices: seq<Vertex>, i: nat, s: seq<int>)
    requires i < |vertices| && 2 * i + 1 < |s| && s[..2 * i] == PtrTable(vertices[..i])
    ensures s[2 * i := |Flatten(vertices[..i])|][2 * i + 1 := RangeCount(vertices[i])][..2 * i + 2] == PtrTable(vertices[..i + 1])
  {
    assert vertices[..i + 1][..i] == vertices[..i];
  }

  /** The flattened lists of the first `i + 1` vertices. */
  lemma FlattenStep(vertices: seq<Vertex>, i: nat)
    requires i < |vertices|
    ensures Flatten(vertices[..i + 1]) == Flatten(vertices[..i]) + Entries(vertices[i])
    ensures |Flatten(vertices[..i + 1])| <= |Flatten(vertices)|
  {
    assert vertices[..i + 1][..i] == vertices[..i];
    FlattenPrefix(vertices, i + 1, |vertices|);
    assert vertices[..|vertices|] == vertices;
  }

  /** The buffers after the first loop of `bake` has handled vertices
      `0 .. i-1`: their positions and `(start, count)` slots, the later slots
      still zero, and their flattened lists followed by zeros. */
  ghost predicate FilledUpTo(vertices: seq<Vertex>, i: nat, position: seq<real>, ptr: seq<int>, influencer: seq<int>, p: nat)
    requires i <= |vertices| && |position| == 4 * |vertices| && |ptr| == 2 * |vertices|
  {
    position[..4 * i] == PositionBuffer(vertices[..i]) && ptr[..2 * i] == PtrTable(vertices[..i])
    && (forall k :: 2 * i <= k < |ptr| ==> ptr[k] == 0)
    && p == |Flatten(vertices[..i])| && p <= |influencer| && influencer[..p] == Flatten(vertices[..i])
    && forall k :: p <= k < |influencer| ==> influencer[k] == 0
  }

  /** One iteration of the first loop of `bake`, on vertex `i`. */
  method FillVertex(vertices: seq<Vertex>, i: nat, position: array<real>, ptr: array<int>, influencer: array<int>, p: nat)
    returns (q: nat)
    requires i < |vertices| && vertices[i].id == i && |Flatten(vertices)| <= influencer.Length
    requires position.Length == 4 * |vertices| && ptr.Length == 2 * |vertices| && ptr != influencer
    requires FilledUpTo(vertices, i, position[..], ptr[..], influencer[..], p)
    modifies position, ptr, influencer
    ensures FilledUpTo(vertices, i + 1, position[..], ptr[..], influencer[..], q)
  {
    ghost var pos0, ptr0, infl0 := position[..], ptr[..], influencer[..];
    FlattenStep(vertices, i);
    q := WriteVertex(vertices[i], position, ptr, influencer, p);
    FilledStep(vertices, i, pos0, ptr0, infl0, p, position[..], ptr[..], influencer[..], q);
  }

  /** What one vertex's writes do to the buffers: the loop's state moves from
      vertex `i` to vertex `i + 1`. */
  lemma FilledStep(vertices: seq<Vertex>, i: nat, pos0: seq<real>, ptr0: seq<int>, infl0: seq<int>, p: nat,
                   pos1: seq<real>, ptr1: seq<int>, infl1: seq<int>, q: nat)
    requires i < |vertices| && |pos0| == 4 * |vertices| && |ptr0| == 2 * |vertices| && |Flatten(vertices)| <= |infl0|
    requires FilledUpTo(vertices, i, pos0, ptr0, infl0, p)
    requires var v := vertices[i];
      pos1 == pos0[4 * i := v.x][4 * i + 1 := v.y][4 * i + 2 := v.z][4 * i + 3 := v.w]
      && ptr1 == ptr0[2 * i := p][2 * i + 1 := RangeCount(v)]
      && q == p + RangeCount(v) && |infl1| == |infl0| && q <= |infl1| && infl1[..q] == infl0[..p] + Entries(v)
      && forall k :: q <= k < |infl1| ==> infl1[k] == infl0[k]
    ensures FilledUpTo(vertices, i + 1, pos1, ptr1, infl1, q)
  {
    var v := vertices[i];
    PositionStep(vertices, i, pos0);
    assert pos1[..4 * (i + 1)] == PositionBuffer(vertices[..i + 1]);
    PtrStep(vertices, i, ptr0);
    assert ptr1[..2 * (i + 1)] == PtrTable(vertices[..i + 1]);
    FlattenStep(vertices, i);
    assert |Entries(v)| == RangeCount(v);
    assert infl1[..q] == Flatten(vertices[..i + 1]);
  }

  /** The first loop of `bake`: positions, `(start, count)` slots and the
      flattened lists. `ptr` and `influencer` come zero-initialised. */
  method FillVertexBuffers(vertices: seq<Vertex>, position: array<real>, ptr: array<int>, influencer: array<int>) returns (total: nat)
    requires forall i :: 0 <= i < |vertices| ==> vertices[i].id == i
    requires |Flatten(vertices)| <= influencer.Length
    requires position.Length == 4 * |vertices| && ptr.Length == 2 * |vertices|
    requires ptr != influencer
    requires forall k :: 0 <= k < ptr.Length ==> ptr[k] == 0
    requires forall k :: 0 <= k < influencer.Length ==> influencer[k] == 0
    modifies position, ptr, influencer
    ensures position[..] == PositionBuffer(vertices)
    ensures ptr[..] == PtrTable(vertices)
    ensures total == |Flatten(vertices)|
    ensures influencer[..total] == Flatten(vertices)
    ensures forall k :: total <= k < influencer.Length ==> influencer[k] == 0
  {
    var n := |vertices|;
    assert vertices[..n] == vertices;
    var p := 0;
    var i := 0;
    assert vertices[..0] == [];
    while i < n
      invariant 0 <= i <= n
      invariant FilledUpTo(vertices, i, position[..], ptr[..], influencer[..], p)
    {
      p := FillVertex(vertices, i, position, ptr, influencer, p);
      i := i + 1;
    }
    total := p;
    assert ptr[..2 * i] == ptr[..];
    assert position[..4 * i] == position[..];
  }
  /** Spring `j`'s slots as the second loop of `bake` leaves them: its
      endpoint ids, its stiffness, a zero rest length and its factor. */
  predicate SpringFilled(springVertex: seq<int>, params: seq<real>, factors: seq<real>, springs: seq<Spring>, j: int)
    requires 0 <= j < |springs| && |springVertex| == 2 * |springs| && |params| == 2 * |springs| && |factors| == |springs|
  {
    Vertex0At(springVertex, j) == springs[j].vertex0 && Vertex1At(springVertex, j) == springs[j].vertex1
    && StiffnessAt(params, j) == springs[j].stiffness && RestLengthAt(params, j) == 0.0
    && factors[j] == springs[j].restLengthFactor
  }

  /** The endpoint buffer the second loop fills names only queued vertices. */
  lemma FilledEndpoints(springVertex: seq<int>, params: seq<real>, factors: seq<real>, springs: seq<Spring>, n: nat)
    requires |springVertex| == 2 * |springs| && |params| == 2 * |springs| && |factors| == |springs|
    requires forall j :: 0 <= j < |springs| ==> SpringFilled(springVertex, params, factors, springs, j)
    requires forall j :: 0 <= j < |springs| ==> springs[j].vertex0 < n && springs[j].vertex1 < n
    ensures EndpointsOk(springVertex, n)
  {
    forall k | 0 <= k < |springVertex|
      ensures 0 <= springVertex[k] < n
    {
      var j := k / 2;
      assert k == 2 * j || k == 2 * j + 1;
      assert SpringFilled(springVertex, params, factors, springs, j);
    }
  }

  /** The rest lengths `initSpringLengths` writes over the filled buffers
      complete the spring table. */
  lemma FilledTable(springVertex: seq<int>, params: seq<real>, params': seq<real>, factors: seq<real>,
                    springs: seq<Spring>, position: seq<real>, n: nat, length: Vec3 -> real)
    requires |springVertex| == 2 * |springs| && |params| == 2 * |springs| && |params'| == 2 * |springs|
    requires |factors| == |springs| && |position| == 4 * n && EndpointsOk(springVertex, n)
    requires forall j :: 0 <= j < |springs| ==> SpringFilled(springVertex, params, factors, springs, j)
    requires forall j :: 0 <= j < |springs| ==>
      StiffnessAt(params', j) == StiffnessAt(params, j)
      && RestLengthAt(params', j)
         == length(Sub(Vec4At(position, Vertex0At(springVertex, j)).Xyz(),
                       Vec4At(position, Vertex1At(springVertex, j)).Xyz())) * factors[j]
    ensures SpringTableOk(springVertex, params', factors, springs, Vec4s(position), length)
  {
    forall j | 0 <= j < |springs|
      ensures SpringSlotOk(springVertex, params', factors, springs, Vec4s(position), length, j)
    {
      assert SpringFilled(springVertex, params, factors, springs, j);
    }
  }

  /** The second loop of `bake`: endpoints, stiffness, a zero rest length,
      and the rest length factor of every spring. */
  method FillSpringBuffers(springs: seq<Spring>, springVertex: array<int>, params: array<real>, factors: array<real>)
    requires DenseSprings(springs)
    requires springVertex.Length == 2 * |springs| && params.Length == 2 * |springs| && factors.Length == |springs|
    requires params != factors
    modifies springVertex, params, factors
    ensures forall j :: 0 <= j < |springs| ==> SpringFilled(springVertex[..], params[..], factors[..], springs, j)
  {
    var j := 0;
    while j < |springs|
      invariant 0 <= j <= |springs|
      invariant forall i :: 0 <= i < j ==>
        springVertex[2 * i] == springs[i].vertex0 && springVertex[2 * i + 1] == springs[i].vertex1
        && params[2 * i] == springs[i].stiffness && params[2 * i + 1] == 0.0
        && factors[i] == springs[i].restLengthFactor
    {
      var s := springs[j];
      assert s.id == j;
      springVertex[s.id * 2 + 0] := s.vertex0;
      springVertex[s.id * 2 + 1] := s.vertex1;
      params[s.id * 2 + 0] := s.stiffness;
      params[s.id * 2 + 1] := 0.0;
      factors[s.id] := s.restLengthFactor;
      j := j + 1;
    }
  }

  /** `initSpringLengths`: each spring's rest length becomes the distance of
      its endpoints times its factor; stiffness slots are kept. */
  method InitSpringLengths(position: array<real>, springVertex: array<int>, params: array<real>, factors: array<real>,
                           length: Vec3 -> real, n: nat, m: nat)
    requires position.Length == 4 * n && springVertex.Length == 2 * m && params.Length == 2 * m && factors.Length == m
    requires EndpointsOk(springVertex[..], n)
    requires params != position && params != factors
    modifies params
    ensures forall j :: 0 <= j < m ==>
      StiffnessAt(params[..], j) == old(StiffnessAt(params[..], j))
      && RestLengthAt(params[..], j)
         == length(Sub(Vec4At(position[..], Vertex0At(springVertex[..], j)).Xyz(),
                       Vec4At(position[..], Vertex1At(springVertex[..], j)).Xyz())) * factors[j]
  {
    ghost var pos := position[..];
    ghost var sv := springVertex[..];
    ghost var fs := factors[..];
    ghost var rest := seq(m, i requires 0 <= i < m =>
      length(Sub(Vec4At(pos, Vertex0At(sv, i)).Xyz(), Vec4At(pos, Vertex1At(sv, i)).Xyz())) * fs[i]);
    var j := 0;
    while j < m
      invariant 0 <= j <= m
      invariant forall i :: 0 <= i < m ==> StiffnessAt(params[..], i) == old(StiffnessAt(params[..], i))
      invariant forall i :: 0 <= i < j ==> RestLengthAt(params[..], i) == rest[i]
    {
      var a := springVertex[2 * j];
      var b := springVertex[2 * j + 1];
      assert a == Vertex0At(sv, j) && b == Vertex1At(sv, j);
      var v0 := Vec3(position[4 * a], position[4 * a + 1], position[4 * a + 2]);
      var v1 := Vec3(position[4 * b], position[4 * b + 1], position[4 * b + 2]);
      assert v0 == Vec4At(pos, a).Xyz() && v1 == Vec4At(pos, b).Xyz();
      params[2 * j + 1] := length(Sub(v0, v1)) * factors[j];
      j := j + 1;
    }
  }

  /** After `bake`, the vertex kernel gives a fixed vertex only its damped
      force plus gravity, and a free vertex its damped force plus the signed
      force of every spring on its list, plus gravity. */
  lemma BakedVertexForce(vertices: seq<Vertex>, springs: seq<Spring>, ptr: seq<int>, influencer: seq<int>,
                         force: seq<Vec3>, springForce: seq<Vec3>, v: nat)
    requires TopologyOk(vertices, springs)
    requires PtrTableOk(ptr, vertices) && InfluencerTableOk(influencer, vertices, |springs|)
    requires |force| == |vertices| && |springForce| == |springs| && v < |vertices|
    ensures var g := if vertices[v].fixed then Scale(Damping, force[v])
                     else SumRefs(Scale(Damping, force[v]), vertices[v].springs, springForce);
            VertexForces(force, ptr, influencer, springForce)[v] == Vec3(g.x, g.y + GravityY, g.z)
  {
    BakedRange(vertices, springs, ptr, influencer, v);
    if !vertices[v].fixed {
      RefsOfSound(springs, v);
      GatherDecodes(Scale(Damping, force[v]), vertices[v].springs, springForce);
    }
  }
  /** The positions `bake` writes, one per queued vertex. */
  function InitialPositions(vertices: seq<Vertex>): (r: seq<Vec4>)
    ensures |r| == |vertices|
  {
    seq(|vertices|, v requires 0 <= v < |vertices| => InitialPosition(vertices[v]))
  }

  /** A zero-initialised `vec3` buffer, element by element. */
  function Zeros(k: nat): (r: seq<Vec3>)
    ensures |r| == k
  {
    seq(k, _ => Zero)
  }

  /** The per-vertex half of `bake`: the position, force, pointer and
      influencer buffers, created zeroed and filled by its first loop. */
  method BakeVertices(vertices: seq<Vertex>, m: nat)
    returns (position: array<real>, force: array<real>, ptr: array<int>, influencer: array<int>, total: nat)
    requires forall i :: 0 <= i < |vertices| ==> vertices[i].id == i
    requires |Flatten(vertices)| <= 2 * m
    ensures fresh(position) && fresh(force) && fresh(ptr) && fresh(influencer) && position != force
    ensures position.Length == 4 * |vertices| && force.Length == 3 * |vertices|
    ensures Vec4s(position[..]) == InitialPositions(vertices)
    ensures Vec3s(force[..]) == Zeros(|vertices|)
    ensures PtrTableOk(ptr[..], vertices) && InfluencerTableOk(influencer[..], vertices, m)
    ensures total == |Flatten(vertices)|
  {
    var n := |vertices|;
    position := new real[4 * n](_ => 0.0);
    force := new real[3 * n](_ => 0.0);
    ptr := new int[2 * n](_ => 0);
    influencer := new int[2 * m](_ => 0);
    total := FillVertexBuffers(vertices, position, ptr, influencer);
    PtrTableSlots(vertices);
    PositionBufferVec4s(vertices);
    ZeroBuffer(force[..], n);
  }

  lemma PositionBufferVec4s(vertices: seq<Vertex>)
    ensures Vec4s(PositionBuffer(vertices)) == InitialPositions(vertices)
  {
    PositionBufferElements(vertices);
  }

  lemma ZeroBuffer(a: seq<real>, n: nat)
    requires |a| == 3 * n && forall k :: 0 <= k < |a| ==> a[k] == 0.0
    ensures Vec3s(a) == Zeros(n)
  {
  }

  /** The per-spring half of `bake`: the endpoint, parameter, factor and
      spring force buffers, created zeroed, filled by its second loop and
      completed by `initSpringLengths` from the baked positions. */
  method BakeSprings(springs: seq<Spring>, position: array<real>, n: nat, length: Vec3 -> real)
    returns (springVertex: array<int>, params: array<real>, factors: array<real>, springForce: array<real>)
    requires DenseSprings(springs) && position.Length == 4 * n
    requires forall j :: 0 <= j < |springs| ==> springs[j].vertex0 < n && springs[j].vertex1 < n
    ensures fresh(springVertex) && fresh(params) && fresh(factors) && fresh(springForce)
    ensures params != factors && params != springForce && factors != springForce
    ensures springForce.Length == 3 * |springs|
    ensures EndpointsOk(springVertex[..], n)
    ensures SpringTableOk(springVertex[..], params[..], factors[..], springs, Vec4s(position[..]), length)
    ensures Vec3s(springForce[..]) == Zeros(|springs|)
  {
    var m := |springs|;
    springVertex := new int[2 * m](_ => 0);
    params := new real[2 * m](_ => 0.0);
    factors := new real[m](_ => 0.0);
    springForce := new real[3 * m](_ => 0.0);
    FillSpringBuffers(springs, springVertex, params, factors);
    ghost var sv, filled, fs := springVertex[..], params[..], factors[..];
    FilledEndpoints(sv, filled, fs, springs, n);
    ZeroBuffer(springForce[..], m);
    ghost var zeros := springForce[..];
    InitSpringLengths(position, springVertex, params, factors, length, n, m);
    assert springVertex[..] == sv && factors[..] == fs && springForce[..] == zeros;
    FilledTable(sv, filled, params[..], fs, springs, position[..], n, length);
  }

  /** The buffers after `bake`, read as sequences: the initial positions,
      zero vertex and spring forces, the pointer and influencer tables, in
      which every vertex's range is exactly its entries, and the spring
      tables with rest lengths derived from the initial positions. */
  predicate BakedBuffers(vertices: seq<Vertex>, springs: seq<Spring>, length: Vec3 -> real,
                         position: seq<real>, force: seq<real>, ptr: seq<int>, influencer: seq<int>,
                         springVertex: seq<int>, params: seq<real>, factors: seq<real>, springForce: seq<real>)
  {
    Vec4s(position) == InitialPositions(vertices) && Vec3s(force) == Zeros(|vertices|)
    && Vec3s(springForce) == Zeros(|springs|)
    && PtrTableOk(ptr, vertices) && InfluencerTableOk(influencer, vertices, |springs|)
    && SpringTableOk(springVertex, params, factors, springs, Vec4s(position), length)
    && forall v :: 0 <= v < |vertices| ==> RangeIsEntries(ptr, influencer, vertices, v)
  }

  /** Both loops of `bake` and the rest-length pass, on fresh buffers sized
      from the queues. */
  method BakeBuffers(vertices: seq<Vertex>, springs: seq<Spring>, length: Vec3 -> real)
    returns (position: array<real>, force: array<real>, ptr: array<int>, influencer: array<int>, total: nat,
             sv: array<int>, params: array<real>, factors: array<real>, springForce: array<real>)
    requires TopologyOk(vertices, springs)
    ensures fresh(position) && fresh(force) && fresh(ptr) && fresh(influencer)
    ensures fresh(sv) && fresh(params) && fresh(factors) && fresh(springForce)
    ensures position.Length == 4 * |vertices| && force.Length == 3 * |vertices|
    ensures factors.Length == |springs| && springForce.Length == 3 * |springs|
    ensures position != force && position != springForce && force != springForce
    ensures params != position && params != force && params != springForce
    ensures factors != position && factors != force && factors != springForce && factors != params
    ensures BakedOk(Baked(|vertices|, |springs|, sv[..], params[..], ptr[..], influencer[..], total))
    ensures BakedBuffers(vertices, springs, length, position[..], force[..], ptr[..], influencer[..],
                         sv[..], params[..], factors[..], springForce[..])
  {
    var n, m := |vertices|, |springs|;
    FlattenBound(vertices, springs);
    position, force, ptr, influencer, total := BakeVertices(vertices, m);
    BakedRanges(vertices, springs, ptr[..], influencer[..]);
    ghost var pos, f, p, infl := position[..], force[..], ptr[..], influencer[..];
    sv, params, factors, springForce := BakeSprings(springs, position, n, length);
    assert position[..] == pos && force[..] == f && ptr[..] == p && influencer[..] == infl;
  }

  // ---------------------------------------------------------------------------
  // The class.

  class VerletPhysics {
    var isBaked: bool
    var vertexQueue: seq<Vertex>
    var springQueue: seq<Spring>
    var vertexCount: nat
    var springCount: nat
    /** `vec4` per vertex: `xyz` and the movable mask `w`. */
    var positionData: array<real>
    /** `vec3` per vertex. */
    var forceData: array<real>
    /** `uvec2` per vertex: start and count of its range. */
    var influencerPtrData: array<int>
    /** `int` per entry, `2 * springCount` slots. */
    var influencerData: array<int>
    /** `uvec2` per spring: its endpoints. */
    var springVertexData: array<int>
    /** `vec2` per spring: stiffness and rest length. */
    var springParamsData: array<real>
    /** `float` per spring: its rest length factor. */
    var springLengthFactorData: array<real>
    /** `vec3` per spring. */
    var springForceData: array<real>
    /** The number of influencer slots `bake` filled. */
    ghost var influencerTotal: nat
    /** The vector length the kernels evaluate (`length()`, `distance()`). */
    const length: Vec3 -> real

    /** The buffers the kernels only read. */
    ghost function Tables(): Baked
      reads this, springVertexData, springParamsData, influencerPtrData, influencerData
    {
      Baked(vertexCount, springCount, springVertexData[..], springParamsData[..],
            influencerPtrData[..], influencerData[..], influencerTotal)
    }

    /** The buffers the kernels write, element by element. */
    ghost function State(): SimState
      reads this, positionData, forceData, springForceData
    {
      SimState(Vec4s(positionData[..]), Vec3s(forceData[..]), Vec3s(springForceData[..]))
    }

    ghost predicate Valid()
      reads this, positionData, forceData, springVertexData, springParamsData, influencerPtrData, influencerData,
            springLengthFactorData, springForceData
    {
      TopologyOk(vertexQueue, springQueue)
      && positionData.Length == 4 * vertexCount && forceData.Length == 3 * vertexCount
      && springLengthFactorData.Length == springCount && springForceData.Length == 3 * springCount
      && positionData != forceData && positionData != springForceData && forceData != springForceData
      && springParamsData != positionData && springParamsData != forceData && springParamsData != springForceData
      && springLengthFactorData != positionData && springLengthFactorData != forceData
      && springLengthFactorData != springForceData && springLengthFactorData != springParamsData
      && BakedOk(Tables())
    }

    /** Every `Valid` system's written buffers fit its read-only ones. */
    lemma ValidState()
      requires Valid()
      ensures StateOk(Tables(), State())
    {
    }

    /** A new system: empty queues, not baked, no buffers yet. */
    constructor(length: Vec3 -> real)
      requires LengthOk(length)
      ensures Valid() && !isBaked && vertexQueue == [] && springQueue == [] && this.length == length
    {
      this.length := length;
      isBaked := false;
      vertexQueue := [];
      springQueue := [];
      vertexCount := 0;
      springCount := 0;
      positionData := new real[0];
      forceData := new real[0];
      influencerPtrData := new int[0];
      influencerData := new int[0];
      springVertexData := new int[0];
      springParamsData := new real[0];
      springLengthFactorData := new real[0];
      springForceData := new real[0];
      influencerTotal := 0;
    }

    /** `addVertex`: queues a vertex with the next id, mask `w` 0 if fixed and
        1 otherwise, and no springs. After `bake` it reports an error and
        queues the vertex anyway; the baked buffers stay as they are. */
    method AddVertex(x: real, y: real, z: real, fixed: bool := false) returns (id: nat, logged: bool)
      requires Valid()
      modifies this`vertexQueue
      ensures Valid()
      ensures logged == isBaked
      ensures id == old(|vertexQueue|)
      ensures vertexQueue == old(vertexQueue) + [Vertex(id, x, y, z, MaskOf(fixed), [], fixed)]
    {
      logged := isBaked;
      id := |vertexQueue|;
      var vertex := Vertex(id, x, y, z, MaskOf(fixed), [], fixed);
      AddVertexOk(vertexQueue, springQueue, vertex);
      vertexQueue := vertexQueue + [vertex];
    }

    /** `addSpring`: queues a spring with the next id and pushes `{id, +1}`
        onto `vertex0`'s list, then `{id, -1}` onto `vertex1`'s. After `bake`
        it reports an error and queues the spring anyway. */
    method AddSpring(vertex0: nat, vertex1: nat, stiffness: real, restLengthFactor: real := 1.0) returns (id: nat, logged: bool)
      requires Valid() && vertex0 < |vertexQueue| && vertex1 < |vertexQueue|
      modifies this`vertexQueue, this`springQueue
      ensures Valid()
      ensures logged == isBaked
      ensures id == old(|springQueue|)
      ensures springQueue == old(springQueue) + [Spring(id, vertex0, vertex1, stiffness, restLengthFactor)]
      ensures |vertexQueue| == old(|vertexQueue|)
      ensures forall v :: 0 <= v < |vertexQueue| ==>
        vertexQueue[v] == old(vertexQueue[v]).(springs := old(vertexQueue[v]).springs
          + (if v == vertex0 then [SpringRef(id, 1)] else [])
          + (if v == vertex1 then [SpringRef(id, -1)] else []))
    {
      logged := isBaked;
      id := |springQueue|;
      var s := Spring(id, vertex0, vertex1, stiffness, restLengthFactor);
      LinkSpringOk(vertexQueue, springQueue, s);
      vertexQueue, springQueue := LinkSpring(vertexQueue, s), springQueue + [s];
    }

    /** `bake`: sizes the buffers from the queues, writes positions, ranges
        and entries (first loop), endpoints, stiffness and factors (second
        loop), then the rest lengths (`initSpringLengths`), and marks the
        system baked. Forces start at zero. */
    method Bake()
      requires TopologyOk(vertexQueue, springQueue)
      modifies this
      ensures Valid() && isBaked
      ensures vertexQueue == old(vertexQueue) && springQueue == old(springQueue)
      ensures vertexCount == |vertexQueue| && springCount == |springQueue|
      ensures fresh(positionData) && fresh(forceData) && fresh(influencerPtrData) && fresh(influencerData)
      ensures fresh(springVertexData) && fresh(springParamsData) && fresh(springLengthFactorData) && fresh(springForceData)
      ensures BakedBuffers(vertexQueue, springQueue, length, positionData[..], forceData[..], influencerPtrData[..],
                           influencerData[..], springVertexData[..], springParamsData[..], springLengthFactorData[..],
                           springForceData[..])
    {
      var position, force, ptr, influencer, total, sv, params, factors, springForce
        := BakeBuffers(vertexQueue, springQueue, length);
      InstallVertexBuffers(|vertexQueue|, total, position, force, ptr, influencer);
      InstallSpringBuffers(|springQueue|, sv, params, factors, springForce);
    }

    /** The per-vertex buffers `bake` creates become the system's. */
    method InstallVertexBuffers(n: nat, total: nat, position: array<real>, force: array<real>, ptr: array<int>,
                                influencer: array<int>)
      modifies this`vertexCount, this`influencerTotal
      modifies this`positionData, this`forceData, this`influencerPtrData, this`influencerData
      ensures vertexCount == n && influencerTotal == total
      ensures positionData == position && forceData == force && influencerPtrData == ptr && influencerData == influencer
    {
      vertexCount, influencerTotal := n, total;
      positionData, forceData, influencerPtrData, influencerData := position, force, ptr, influencer;
    }

    /** The per-spring buffers `bake` creates become the system's, and it is
        baked. */
    method InstallSpringBuffers(m: nat, sv: array<int>, params: array<real>, factors: array<real>,
                                springForce: array<real>)
      modifies this`springCount, this`isBaked
      modifies this`springVertexData, this`springParamsData, this`springLengthFactorData, this`springForceData
      ensures springCount == m && isBaked
      ensures springVertexData == sv && springParamsData == params && springLengthFactorData == factors
      ensures springForceData == springForce
    {
      springCount, isBaked := m, true;
      springVertexData, springParamsData, springLengthFactorData, springForceData := sv, params, factors, springForce;
    }

    /** The body of `computeSpringForces` for instance `j`: the force of
        spring `j` from its endpoints' current positions. */
    method SpringKernel(j: nat) returns (force: Vec3)
      requires Valid() && j < springCount
      ensures force == SpringForces(Vec4s(positionData[..]), springVertexData[..], springParamsData[..], springCount, length)[j]
    {
      ghost var pos := Vec4s(positionData[..]);
      var a, b := springVertexData[2 * j], springVertexData[2 * j + 1];
      assert a == Vertex0At(springVertexData[..], j) && b == Vertex1At(springVertexData[..], j);
      var v0 := Vec3(positionData[4 * a], positionData[4 * a + 1], positionData[4 * a + 2]);
      var v1 := Vec3(positionData[4 * b], positionData[4 * b + 1], positionData[4 * b + 2]);
      assert v0 == pos[a].Xyz() && v1 == pos[b].Xyz();
      var stiffness, restLength := springParamsData[2 * j], springParamsData[2 * j + 1];
      assert stiffness == StiffnessAt(springParamsData[..], j) && restLength == RestLengthAt(springParamsData[..], j);
      var delta := Sub(v1, v0);
      var dist := length(delta);
      if dist < MinDistance {
        dist := MinDistance;
      }
      assert dist == FlooredDistance(length(delta));
      force := Scale((dist - restLength) * stiffness / dist * 0.5, delta);
      assert force == SpringForce(v0, v1, stiffness, restLength, length);
    }

    /** `computeSpringForces`: runs the spring kernel for every spring and
        writes each result to the spring's `springForceData` element. */
    method ComputeSpringForces()
      requires Valid()
      modifies springForceData
      ensures Valid()
      ensures Vec3s(springForceData[..])
        == SpringForces(Vec4s(positionData[..]), springVertexData[..], springParamsData[..], springCount, length)
    {
      ghost var sf := SpringForces(Vec4s(positionData[..]), springVertexData[..], springParamsData[..], springCount, length);
      var j := 0;
      while j < springCount
        invariant 0 <= j <= springCount
        invariant Valid()
        invariant sf == SpringForces(Vec4s(positionData[..]), springVertexData[..], springParamsData[..], springCount, length)
        invariant Vec3s(springForceData[..])[..j] == sf[..j]
      {
        ghost var cur := Vec3s(springForceData[..]);
        var force := SpringKernel(j);
        StoreSpringForce(j, force);
        PassStep(cur, cur, sf, j, force);
        j := j + 1;
      }
    }

    /** Writes `force` to spring `j`'s element of `springForceData`. */
    method StoreSpringForce(j: nat, force: Vec3)
      requires Valid() && j < springCount
      modifies springForceData
      ensures Valid()
      ensures Vec3s(springForceData[..]) == old(Vec3s(springForceData[..]))[j := force]
    {
      Vec3sUpdate(springForceData[..], j, force);
      springForceData[3 * j], springForceData[3 * j + 1], springForceData[3 * j + 2] := force.x, force.y, force.z;
    }

    /** The body of `computeVertexForces` for instance `v`: vertex `v`'s
        damped force plus the signed forces of the springs in its range, plus
        gravity. */
    method VertexKernel(v: nat) returns (force: Vec3)
      requires Valid() && v < vertexCount
      ensures force == VertexForce(Vec3s(forceData[..])[v], RangeOf(influencerPtrData[..], influencerData[..], v),
                                   Vec3s(springForceData[..]))
    {
      ghost var sf := Vec3s(springForceData[..]);
      ghost var ptr, infl := influencerPtrData[..], influencerData[..];
      var start, count := influencerPtrData[2 * v], influencerPtrData[2 * v + 1];
      assert RangeFits(ptr, v, influencerTotal);
      assert start == StartAt(ptr, v) && count == CountAt(ptr, v);
      force := Vec3(forceData[3 * v], forceData[3 * v + 1], forceData[3 * v + 2]);
      ghost var f0 := force;
      assert f0 == Vec3s(forceData[..])[v];
      force := Scale(Damping, force);
      var i := start;
      while i < start + count
        invariant start <= i <= start + count
        invariant force == Gather(Scale(Damping, f0), infl[start..i], sf)
      {
        var e := influencerData[i];
        assert EntryNamesSpring(infl, i, springCount);
        var id := Abs(e) - 1;
        var spring := Vec3(springForceData[3 * id], springForceData[3 * id + 1], springForceData[3 * id + 2]);
        assert spring == sf[id];
        force := Add(force, Scale(if e > 0 then 1.0 else -1.0, spring));
        assert infl[start..i + 1][..i - start] == infl[start..i];
        i := i + 1;
      }
      assert RangeOf(ptr, infl, v) == infl[start..start + count];
      force := Vec3(force.x, force.y + GravityY, force.z);
    }

    /** `computeVertexForces`: runs the vertex kernel for every vertex and
        writes each result to the vertex's `forceData` element. Each instance
        reads only its own element, so running them in order is the same as
        running them side by side. */
    method ComputeVertexForces()
      requires Valid()
      modifies forceData
      ensures Valid()
      ensures Vec3s(forceData[..])
        == VertexForces(old(Vec3s(forceData[..])), influencerPtrData[..], influencerData[..], Vec3s(springForceData[..]))
    {
      ghost var f0 := Vec3s(forceData[..]);
      ghost var next := VertexForces(f0, influencerPtrData[..], influencerData[..], Vec3s(springForceData[..]));
      var v := 0;
      while v < vertexCount
        invariant 0 <= v <= vertexCount
        invariant Valid()
        invariant next == VertexForces(f0, influencerPtrData[..], influencerData[..], Vec3s(springForceData[..]))
        invariant Vec3s(forceData[..])[..v] == next[..v] && Vec3s(forceData[..])[v..] == f0[v..]
      {
        ghost var cur := Vec3s(forceData[..]);
        assert cur[v..][0] == f0[v..][0];
        var force := VertexKernel(v);
        assert next[v] == force;
        StoreForce(v, force);
        PassStep(cur, f0, next, v, force);
        v := v + 1;
      }
    }

    /** Writes `force` to vertex `v`'s element of `forceData`. */
    method StoreForce(v: nat, force: Vec3)
      requires Valid() && v < vertexCount
      modifies forceData
      ensures Valid()
      ensures Vec3s(forceData[..]) == old(Vec3s(forceData[..]))[v := force]
    {
      Vec3sUpdate(forceData[..], v, force);
      forceData[3 * v], forceData[3 * v + 1], forceData[3 * v + 2] := force.x, force.y, force.z;
    }

    /** `computeAddForces`: a vertex whose mask `w` exceeds 0.5 moves by its
        force; the others stay where they are. */
    method ComputeAddForces()
      requires Valid()
      modifies positionData
      ensures Valid()
      ensures Vec4s(positionData[..]) == Integrate(old(Vec4s(positionData[..])), Vec3s(forceData[..]))
    {
      ghost var p0, f := Vec4s(positionData[..]), Vec3s(forceData[..]);
      ghost var next := Integrate(p0, f);
      var v := 0;
      while v < vertexCount
        invariant 0 <= v <= vertexCount
        invariant Valid() && Vec3s(forceData[..]) == f
        invariant Vec4s(positionData[..])[..v] == next[..v] && Vec4s(positionData[..])[v..] == p0[v..]
      {
        ghost var cur := Vec4s(positionData[..]);
        assert cur[v..][0] == p0[v..][0];
        var w := positionData[4 * v + 3];
        if w > MaskThreshold {
          var p := Vec4(positionData[4 * v] + forceData[3 * v], positionData[4 * v + 1] + forceData[3 * v + 1],
                        positionData[4 * v + 2] + forceData[3 * v + 2], w);
          assert p == next[v];
          StorePosition(v, p);
          PassStep(cur, p0, next, v, p);
        } else {
          assert next[v] == cur[v];
          PassStep(cur, p0, next, v, cur[v]);
          assert cur[v := cur[v]] == cur;
        }
        v := v + 1;
      }
    }

    /** Writes the `xyz` of `p` to vertex `v`'s element of `positionData`,
        whose mask `p.w` already is. */
    method StorePosition(v: nat, p: Vec4)
      requires Valid() && v < vertexCount && positionData[4 * v + 3] == p.w
      modifies positionData
      ensures Valid()
      ensures Vec4s(positionData[..]) == old(Vec4s(positionData[..]))[v := p]
    {
      Vec4sUpdate(positionData[..], v, p.Xyz());
      positionData[4 * v], positionData[4 * v + 1], positionData[4 * v + 2] := p.x, p.y, p.z;
    }

    /** `update`: ten substeps, each the three kernels in order. Before `bake`
        it reports an error and then fails on the missing buffers; that run is
        `ok == false` with nothing changed. The interval and elapsed time are
        not used. */
    method Update(interval: real, elapsed: real) returns (ok: bool)
      requires Valid()
      modifies positionData, forceData, springForceData
      ensures Valid() && ok == isBaked
      ensures Tables() == old(Tables())
      ensures ok ==> State() == Run(Tables(), old(State()), length, Substeps)
      ensures ok ==> KeepsMasked(old(State()).position, State().position)
      ensures !ok ==> State() == old(State())
    {
      ok := isBaked;
      if !ok {
        return;
      }
      ValidState();
      var i := 0;
      while i < Substeps
        invariant 0 <= i <= Substeps
        invariant Valid() && Tables() == old(Tables())
        invariant StateOk(Tables(), State())
        invariant Run(Tables(), State(), length, Substeps - i) == Run(Tables(), old(State()), length, Substeps)
      {
        ghost var s := State();
        ComputeSpringForces();
        ComputeVertexForces();
        ComputeAddForces();
        assert State() == Substep(Tables(), s, length);
        i := i + 1;
      }
      ValidState();
      RunKeepsMasked(Tables(), old(State()), length, Substeps);
    }
  }
}
