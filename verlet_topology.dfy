/** The mass-spring topology that `VerletPhysics` builds before baking, and the
    influence lists `bake` flattens out of it: for every free vertex a range
    `(start, count)` over one array of signed spring references. */
module VerletTopology {

  /** A vertex's reference to a spring: `sign` is +1 at the spring's `vertex0`
      and -1 at its `vertex1`. */
  datatype SpringRef = SpringRef(id: nat, sign: int)

  /** A queued vertex: its dense id, the position value `(x, y, z, w)` with `w`
      the movable mask, its spring references in insertion order, and whether
      it is pinned. */
  datatype Vertex = Vertex(id: nat, x: real, y: real, z: real, w: real, springs: seq<SpringRef>, fixed: bool)

  /** A queued spring between the vertices with ids `vertex0` and `vertex1`. */
  datatype Spring = Spring(id: nat, vertex0: nat, vertex1: nat, stiffness: real, restLengthFactor: real)

  /** The movable mask `addVertex` stores in `w`. */
  function MaskOf(fixed: bool): real
  {
    if fixed then 0.0 else 1.0
  }

  function Abs(e: int): nat
  {
    if e < 0 then -e else e
  }

  predicate ValidSign(s: int)
  {
    s == 1 || s == -1
  }

  // ---------------------------------------------------------------------------
  // The signed encoding of a reference in the influencer array.

  /** `(id + 1) * sign`, the value `bake` writes for a reference. */
  function Encode(r: SpringRef): int
  {
    (r.id + 1) * r.sign
  }

  /** `abs(e) - 1`, the spring index the vertex kernel reads for an entry. */
  function DecodeId(e: int): int
  {
    Abs(e) - 1
  }

  /** `e > 0 ? 1 : -1`, the factor the vertex kernel applies to an entry. */
  function DecodeSign(e: int): int
  {
    if e > 0 then 1 else -1
  }

  lemma EncodeRoundTrip(r: SpringRef)
    requires ValidSign(r.sign)
    ensures Encode(r) != 0
    ensures DecodeId(Encode(r)) == r.id && DecodeSign(Encode(r)) == r.sign
  {
    if r.sign == 1 {
      assert Encode(r) == r.id + 1;
    } else {
      assert Encode(r) == -(r.id + 1);
    }
  }

  lemma DecodeRoundTrip(e: int)
    requires e != 0
    ensures DecodeId(e) >= 0 && ValidSign(DecodeSign(e))
    ensures Encode(SpringRef(DecodeId(e), DecodeSign(e))) == e
  {
  }

  /** Distinct references never share an entry value. */
  lemma EncodeInjective(r1: SpringRef, r2: SpringRef)
    requires ValidSign(r1.sign) && ValidSign(r2.sign)
    ensures Encode(r1) == Encode(r2) <==> r1 == r2
  {
    EncodeRoundTrip(r1);
    EncodeRoundTrip(r2);
  }

  function EncodeAll(refs: seq<SpringRef>): seq<int>
  {
    seq(|refs|, k requires 0 <= k < |refs| => Encode(refs[k]))
  }

  lemma EncodeAllAppend(a: seq<SpringRef>, b: seq<SpringRef>)
    ensures EncodeAll(a + b) == EncodeAll(a) + EncodeAll(b)
  {
  }

  // ---------------------------------------------------------------------------
  // The builder's state.

  /** The references `addSpring` has pushed onto vertex `v`'s list, in order:
      `{id, +1}` when `v` is the spring's vertex0, then `{id, -1}` when it is
      its vertex1 (both, for a spring from a vertex to itself). */
  function RefsOf(springs: seq<Spring>, v: nat): seq<SpringRef>
  {
    if |springs| == 0 then []
    else
      var s := springs[|springs| - 1];
      RefsOf(springs[..|springs| - 1], v)
        + (if s.vertex0 == v then [SpringRef(s.id, 1)] else [])
        + (if s.vertex1 == v then [SpringRef(s.id, -1)] else [])
  }

  predicate DenseSprings(springs: seq<Spring>)
  {
    forall j :: 0 <= j < |springs| ==> springs[j].id == j
  }

  /** What `addVertex` and `addSpring` maintain: ids are dense positions in
      the queues, `w` is the mask of `fixed`, every spring joins queued
      vertices, and each vertex lists exactly the references pushed onto it. */
  predicate TopologyOk(vertices: seq<Vertex>, springs: seq<Spring>)
  {
    DenseSprings(springs)
    && (forall j :: 0 <= j < |springs| ==>
          springs[j].vertex0 < |vertices| && springs[j].vertex1 < |vertices|)
    && (forall i :: 0 <= i < |vertices| ==>
          vertices[i].id == i && vertices[i].w == MaskOf(vertices[i].fixed)
          && vertices[i].springs == RefsOf(springs, i))
  }

  /** The vertex queue after `addSpring` queues `s`: `{id, +1}` pushed onto
      vertex0's list, then `{id, -1}` onto vertex1's. */
  function LinkSpring(vertices: seq<Vertex>, s: Spring): (r: seq<Vertex>)
    requires s.vertex0 < |vertices| && s.vertex1 < |vertices|
    ensures |r| == |vertices|
    ensures forall v :: 0 <= v < |vertices| ==>
      r[v] == vertices[v].(springs := vertices[v].springs
        + (if v == s.vertex0 then [SpringRef(s.id, 1)] else [])
        + (if v == s.vertex1 then [SpringRef(s.id, -1)] else []))
  {
    var vs := vertices[s.vertex0 := vertices[s.vertex0].(springs := vertices[s.vertex0].springs + [SpringRef(s.id, 1)])];
    vs[s.vertex1 := vs[s.vertex1].(springs := vs[s.vertex1].springs + [SpringRef(s.id, -1)])]
  }

  /** `addVertex` keeps the topology consistent: the new vertex has the next
      id, the mask of its flag and no references, and no spring names it. */
  lemma AddVertexOk(vertices: seq<Vertex>, springs: seq<Spring>, v: Vertex)
    requires TopologyOk(vertices, springs)
    requires v.id == |vertices| && v.w == MaskOf(v.fixed) && v.springs == []
    ensures TopologyOk(vertices + [v], springs)
  {
    RefsOfUnused(springs, v.id);
  }

  /** `addSpring` keeps the topology consistent: the new spring has the next
      id, and its two references are the last on its endpoints' lists. */
  lemma LinkSpringOk(vertices: seq<Vertex>, springs: seq<Spring>, s: Spring)
    requires TopologyOk(vertices, springs)
    requires s.id == |springs| && s.vertex0 < |vertices| && s.vertex1 < |vertices|
    ensures TopologyOk(LinkSpring(vertices, s), springs + [s])
  {
    var springs' := springs + [s];
    assert springs'[..|springs'| - 1] == springs;
  }

  lemma {:induction false} RefsOfUnused(springs: seq<Spring>, v: nat)
    requires forall j :: 0 <= j < |springs| ==> springs[j].vertex0 != v && springs[j].vertex1 != v
    ensures RefsOf(springs, v) == []
  {
    if |springs| > 0 {
      RefsOfUnused(springs[..|springs| - 1], v);
    }
  }

  /** Every reference on `v`'s list names an earlier spring that has `v` as
      the endpoint its sign says. */
  lemma {:induction false} RefsOfSound(springs: seq<Spring>, v: nat)
    requires DenseSprings(springs)
    ensures forall r | r in RefsOf(springs, v) ::
      r.id < |springs| && ValidSign(r.sign)
      && (r.sign == 1 ==> springs[r.id].vertex0 == v)
      && (r.sign == -1 ==> springs[r.id].vertex1 == v)
  {
    if |springs| > 0 {
      RefsOfSound(springs[..|springs| - 1], v);
    }
  }

  /** The encoded list of `v` never holds an entry for a spring not yet added. */
  lemma NoLaterEntries(springs: seq<Spring>, v: nat)
    requires DenseSprings(springs)
    ensures (|springs| + 1) !in EncodeAll(RefsOf(springs, v))
    ensures -(|springs| + 1) !in EncodeAll(RefsOf(springs, v))
  {
    var refs := RefsOf(springs, v);
    RefsOfSound(springs, v);
    forall k | 0 <= k < |refs|
      ensures EncodeAll(refs)[k] != |springs| + 1 && EncodeAll(refs)[k] != -(|springs| + 1)
    {
      assert refs[k] in refs;
      EncodeRoundTrip(refs[k]);
    }
  }

  /** The entries the last spring `s` adds to `v`'s encoded list. */
  function StepEntries(s: Spring, v: nat): seq<int>
  {
    (if s.vertex0 == v then [s.id + 1] else []) + (if s.vertex1 == v then [-(s.id + 1)] else [])
  }

  lemma RefsOfLast(springs: seq<Spring>, v: nat)
    requires |springs| > 0
    ensures EncodeAll(RefsOf(springs, v))
      == EncodeAll(RefsOf(springs[..|springs| - 1], v)) + StepEntries(springs[|springs| - 1], v)
  {
    var s := springs[|springs| - 1];
    var plus: seq<SpringRef> := if s.vertex0 == v then [SpringRef(s.id, 1)] else [];
    var minus: seq<SpringRef> := if s.vertex1 == v then [SpringRef(s.id, -1)] else [];
    EncodeAllAppend(RefsOf(springs[..|springs| - 1], v) + plus, minus);
    EncodeAllAppend(RefsOf(springs[..|springs| - 1], v), plus);
    EncodeAllAppend(plus, minus);
  }

  /** The number of occurrences of `x` in `s`. */
  function Count(s: seq<int>, x: int): nat
  {
    if |s| == 0 then 0
    else Count(s[..|s| - 1], x) + (if s[|s| - 1] == x then 1 else 0)
  }

  lemma {:induction false} CountAppend(p: seq<int>, t: seq<int>, x: int)
    ensures Count(p + t, x) == Count(p, x) + Count(t, x)
    decreases |t|
  {
    if |t| > 0 {
      assert (p + t)[..|p + t| - 1] == p + t[..|t| - 1];
      CountAppend(p, t[..|t| - 1], x);
    } else {
      assert p + t == p;
    }
  }

  lemma {:induction false} CountAbsent(s: seq<int>, x: int)
    requires x !in s
    ensures Count(s, x) == 0
  {
    if |s| > 0 {
      assert s[..|s| - 1] <= s;
      CountAbsent(s[..|s| - 1], x);
    }
  }

  lemma StepCount(s: Spring, v: nat)
    ensures Count(StepEntries(s, v), s.id + 1) == (if s.vertex0 == v then 1 else 0)
    ensures Count(StepEntries(s, v), -(s.id + 1)) == (if s.vertex1 == v then 1 else 0)
  {
    var a: seq<int> := if s.vertex0 == v then [s.id + 1] else [];
    var b: seq<int> := if s.vertex1 == v then [-(s.id + 1)] else [];
    CountAppend(a, b, s.id + 1);
    CountAppend(a, b, -(s.id + 1));
    assert Count([s.id + 1], s.id + 1) == 1 && Count([s.id + 1], -(s.id + 1)) == 0;
    assert Count([-(s.id + 1)], s.id + 1) == 0 && Count([-(s.id + 1)], -(s.id + 1)) == 1;
  }

  lemma StepCountOther(s: Spring, v: nat, x: int)
    requires x != s.id + 1 && x != -(s.id + 1)
    ensures Count(StepEntries(s, v), x) == 0
  {
    CountAbsent(StepEntries(s, v), x);
  }

  /** Spring `j` appears on `v`'s list once with sign +1 exactly when `v` is its
      vertex0, and once with sign -1 exactly when `v` is its vertex1. */
  lemma {:induction false} RefsOfCount(springs: seq<Spring>, v: nat, j: nat)
    requires DenseSprings(springs) && j < |springs|
    ensures Count(EncodeAll(RefsOf(springs, v)), j + 1) == (if springs[j].vertex0 == v then 1 else 0)
    ensures Count(EncodeAll(RefsOf(springs, v)), -(j + 1)) == (if springs[j].vertex1 == v then 1 else 0)
  {
    var n := |springs| - 1;
    if j < n {
      CountStep(springs, v, j + 1);
      CountStep(springs, v, -(j + 1));
      assert springs[..n][j] == springs[j] && springs[n].id == n;
      RefsOfCount(springs[..n], v, j);
      StepCountOther(springs[n], v, j + 1);
      StepCountOther(springs[n], v, -(j + 1));
    } else {
      RefsOfCountLast(springs, v);
    }
  }

  /** The case of `RefsOfCount` for the last spring: no earlier spring
      mentions it, so its entries are those of its own step. */
  lemma RefsOfCountLast(springs: seq<Spring>, v: nat)
    requires DenseSprings(springs) && |springs| > 0
    ensures Count(EncodeAll(RefsOf(springs, v)), |springs|) == (if springs[|springs| - 1].vertex0 == v then 1 else 0)
    ensures Count(EncodeAll(RefsOf(springs, v)), -|springs|) == (if springs[|springs| - 1].vertex1 == v then 1 else 0)
  {
    var n := |springs| - 1;
    var prefix := EncodeAll(RefsOf(springs[..n], v));
    CountStep(springs, v, n + 1);
    CountStep(springs, v, -(n + 1));
    NoLaterEntries(springs[..n], v);
    CountAbsent(prefix, n + 1);
    CountAbsent(prefix, -(n + 1));
    StepCount(springs[n], v);
  }

  lemma CountStep(springs: seq<Spring>, v: nat, x: int)
    requires |springs| > 0
    ensures Count(EncodeAll(RefsOf(springs, v)), x)
      == Count(EncodeAll(RefsOf(springs[..|springs| - 1], v)), x) + Count(StepEntries(springs[|springs| - 1], v), x)
  {
    RefsOfLast(springs, v);
    CountAppend(EncodeAll(RefsOf(springs[..|springs| - 1], v)), StepEntries(springs[|springs| - 1], v), x);
  }

  // ---------------------------------------------------------------------------
  // The influence lists `bake` writes.

  /** The entries `bake` writes for one vertex: none for a fixed vertex, the
      encoded references in list order for a free one. */
  function Entries(v: Vertex): seq<int>
  {
    if v.fixed then [] else EncodeAll(v.springs)
  }

  /** The count slot of a vertex's range: the list length for a free vertex;
      for a fixed one the slot keeps the buffer's zero initialisation. */
  function RangeCount(v: Vertex): nat
  {
    if v.fixed then 0 else |v.springs|
  }

  /** The influencer array as `bake` fills it, vertex by vertex. */
  function Flatten(vertices: seq<Vertex>): seq<int>
  {
    if |vertices| == 0 then []
    else Flatten(vertices[..|vertices| - 1]) + Entries(vertices[|vertices| - 1])
  }

  /** The start slot of vertex `i`'s range: the running pointer when `bake`
      reaches it. */
  function RangeStart(vertices: seq<Vertex>, i: nat): nat
    requires i <= |vertices|
  {
    |Flatten(vertices[..i])|
  }

  lemma {:induction false} FlattenPrefix(vertices: seq<Vertex>, i: nat, j: nat)
    requires i <= j <= |vertices|
    ensures |Flatten(vertices[..i])| <= |Flatten(vertices[..j])|
    ensures Flatten(vertices[..j])[..|Flatten(vertices[..i])|] == Flatten(vertices[..i])
    decreases j - i
  {
    if i < j {
      FlattenPrefix(vertices, i, j - 1);
      assert vertices[..j][..j - 1] == vertices[..j - 1];
    }
  }

  /** The ranges tile the written part of the influencer array: they start at
      0, each begins where the previous one ends, the last ends at the total,
      and the slice of vertex `i`'s range is exactly its entries. */
  lemma RangeTiling(vertices: seq<Vertex>, i: nat)
    requires i < |vertices|
    ensures RangeStart(vertices, 0) == 0
    ensures RangeStart(vertices, i + 1) == RangeStart(vertices, i) + RangeCount(vertices[i])
    ensures RangeStart(vertices, |vertices|) == |Flatten(vertices)|
    ensures RangeStart(vertices, i + 1) <= |Flatten(vertices)|
    ensures Flatten(vertices)[RangeStart(vertices, i)..RangeStart(vertices, i + 1)] == Entries(vertices[i])
  {
    assert vertices[..i + 1][..i] == vertices[..i];
    assert vertices[..|vertices|] == vertices;
    FlattenPrefix(vertices, i + 1, |vertices|);
  }

  /** Ranges of different vertices never overlap. */
  lemma RangesDisjoint(vertices: seq<Vertex>, i: nat, j: nat)
    requires i < j < |vertices|
    ensures RangeStart(vertices, i) + RangeCount(vertices[i]) <= RangeStart(vertices, j)
  {
    RangeTiling(vertices, i);
    FlattenPrefix(vertices, i + 1, j);
  }

  // Double counting: every spring contributes one reference to each endpoint.

  /** The number of references on the lists of vertices `0 .. n-1`. */
  function RefTotal(springs: seq<Spring>, n: nat): nat
  {
    if n == 0 then 0 else RefTotal(springs, n - 1) + |RefsOf(springs, n - 1)|
  }

  lemma {:induction false} RefTotalAppend(springs: seq<Spring>, s: Spring, n: nat)
    ensures RefTotal(springs + [s], n)
      == RefTotal(springs, n) + (if s.vertex0 < n then 1 else 0) + (if s.vertex1 < n then 1 else 0)
  {
    if n > 0 {
      RefTotalAppend(springs, s, n - 1);
      assert (springs + [s])[..|springs|] == springs;
    }
  }

  lemma {:induction false} RefTotalAll(springs: seq<Spring>, n: nat)
    requires forall j :: 0 <= j < |springs| ==> springs[j].vertex0 < n && springs[j].vertex1 < n
    ensures RefTotal(springs, n) == 2 * |springs|
  {
    if |springs| == 0 {
      RefTotalZero(n);
    } else {
      var prefix := springs[..|springs| - 1];
      RefTotalAll(prefix, n);
      assert prefix + [springs[|springs| - 1]] == springs;
      RefTotalAppend(prefix, springs[|springs| - 1], n);
    }
  }

  lemma {:induction false} RefTotalZero(n: nat)
    ensures RefTotal([], n) == 0
  {
    if n > 0 {
      RefTotalZero(n - 1);
    }
  }

  lemma {:induction false} FlattenWithinRefs(vertices: seq<Vertex>, springs: seq<Spring>, k: nat)
    requires TopologyOk(vertices, springs) && k <= |vertices|
    ensures |Flatten(vertices[..k])| <= RefTotal(springs, k)
  {
    if k > 0 {
      FlattenWithinRefs(vertices, springs, k - 1);
      assert vertices[..k][..k - 1] == vertices[..k - 1];
    }
  }

  /** `bake` writes at most `2 * springCount` entries, the influencer buffer's
      size, so every write of the running pointer stays inside it. */
  lemma FlattenBound(vertices: seq<Vertex>, springs: seq<Spring>)
    requires TopologyOk(vertices, springs)
    ensures |Flatten(vertices)| <= 2 * |springs|
  {
    FlattenWithinRefs(vertices, springs, |vertices|);
    RefTotalAll(springs, |vertices|);
    assert vertices[..|vertices|] == vertices;
  }

  /** A fixed vertex's range is empty. In a free vertex's range, spring `j`
      appears once as `+(j+1)` exactly when the vertex is its vertex0 and once
      as `-(j+1)` exactly when it is its vertex1; and every entry decodes to a
      spring that has the vertex as the endpoint its sign names. */
  lemma VertexEntries(vertices: seq<Vertex>, springs: seq<Spring>, v: nat)
    requires TopologyOk(vertices, springs) && v < |vertices|
    ensures vertices[v].fixed ==> Entries(vertices[v]) == []
    ensures !vertices[v].fixed ==> forall j :: 0 <= j < |springs| ==>
      Count(Entries(vertices[v]), j + 1) == (if springs[j].vertex0 == v then 1 else 0)
      && Count(Entries(vertices[v]), -(j + 1)) == (if springs[j].vertex1 == v then 1 else 0)
    ensures forall e | e in Entries(vertices[v]) ::
      e != 0 && 0 <= DecodeId(e) < |springs|
      && (DecodeSign(e) == 1 ==> springs[DecodeId(e)].vertex0 == v)
      && (DecodeSign(e) == -1 ==> springs[DecodeId(e)].vertex1 == v)
  {
    if !vertices[v].fixed {
      forall j | 0 <= j < |springs|
        ensures Count(Entries(vertices[v]), j + 1) == (if springs[j].vertex0 == v then 1 else 0)
        ensures Count(Entries(vertices[v]), -(j + 1)) == (if springs[j].vertex1 == v then 1 else 0)
      {
        RefsOfCount(springs, v, j);
      }
      RefsOfSound(springs, v);
      var refs := vertices[v].springs;
      forall e | e in Entries(vertices[v])
        ensures e != 0 && 0 <= DecodeId(e) < |springs|
        ensures DecodeSign(e) == 1 ==> springs[DecodeId(e)].vertex0 == v
        ensures DecodeSign(e) == -1 ==> springs[DecodeId(e)].vertex1 == v
      {
        var k :| 0 <= k < |refs| && Encode(refs[k]) == e;
        assert refs[k] in RefsOf(springs, v);
        EncodeRoundTrip(refs[k]);
      }
    }
  }

  /** Every entry of the written influencer array names a queued spring. */
  lemma FlattenEntries(vertices: seq<Vertex>, springs: seq<Spring>)
    requires TopologyOk(vertices, springs)
    ensures forall k :: 0 <= k < |Flatten(vertices)| ==>
      Flatten(vertices)[k] != 0 && Abs(Flatten(vertices)[k]) <= |springs|
  {
    forall k | 0 <= k < |Flatten(vertices)|
      ensures Flatten(vertices)[k] != 0 && Abs(Flatten(vertices)[k]) <= |springs|
    {
      FlattenEntry(vertices, springs, k);
    }
  }

  lemma FlattenEntry(vertices: seq<Vertex>, springs: seq<Spring>, k: nat)
    requires TopologyOk(vertices, springs) && k < |Flatten(vertices)|
    ensures Flatten(vertices)[k] != 0 && Abs(Flatten(vertices)[k]) <= |springs|
  {
    var i := FindRange(vertices, k);
    RangeTiling(vertices, i);
    var es := Entries(vertices[i]);
    var off := k - RangeStart(vertices, i);
    assert Flatten(vertices)[k] == es[off];
    assert es[off] in es;
    VertexEntries(vertices, springs, i);
  }

  /** The vertex whose range holds slot `k` of the written array. */
  lemma {:induction false} FindRange(vertices: seq<Vertex>, k: nat) returns (i: nat)
    requires k < |Flatten(vertices)|
    ensures i < |vertices| && RangeStart(vertices, i) <= k < RangeStart(vertices, i + 1)
  {
    var n := |vertices| - 1;
    assert vertices[..n + 1] == vertices;
    assert Flatten(vertices) == Flatten(vertices[..n]) + Entries(vertices[n]);
    if k < |Flatten(vertices[..n])| {
      i := FindRange(vertices[..n], k);
      assert vertices[..n][..i] == vertices[..i];
      assert vertices[..n][..i + 1] == vertices[..i + 1];
    } else {
      i := n;
    }
  }
}
