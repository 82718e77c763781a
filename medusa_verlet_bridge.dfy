/** `MedusaVerletBridge`: a queue of registered bell vertices which `bake`
    orders fixed-first and writes into three parallel instance buffers (vertex
    id, `(zenith, azimuth)` and offset). Its GPU pass is commented out in the
    source, so `update` does nothing. */
module MedusaBridge {
  import opened Vectors

  /** One registered vertex: the physics vertex id, its bell coordinates, its
      offset and whether it is pinned to the bell. */
  datatype Entry = Entry(id: nat, zenith: real, azimuth: real, offset: Vec3, fixed: bool)

  /** A vertex id as a `Uint32Array` stores it. */
  function Uint32(x: int): (r: int)
    ensures 0 <= r < 0x1_0000_0000
    ensures 0 <= x < 0x1_0000_0000 ==> r == x
  {
    x % 0x1_0000_0000
  }

  // ---------------------------------------------------------------------------
  // The fixed-first sort.

  /** The fixed entries of `q`, in their order in `q`. */
  function Fixed(q: seq<Entry>): (r: seq<Entry>)
    ensures |r| <= |q|
    ensures forall i :: 0 <= i < |r| ==> r[i].fixed
  {
    if q == [] then [] else (if q[0].fixed then [q[0]] else []) + Fixed(q[1..])
  }

  /** The entries of `q` that are not fixed, in their order in `q`. */
  function Free(q: seq<Entry>): (r: seq<Entry>)
    ensures |r| <= |q|
    ensures forall i :: 0 <= i < |r| ==> !r[i].fixed
  {
    if q == [] then [] else (if q[0].fixed then [] else [q[0]]) + Free(q[1..])
  }

  /** What `sort((x, y) => Number(y.fixed) - Number(x.fixed))` leaves: the
      comparator puts a fixed entry before a free one and ties every other
      pair, and the sort is stable. */
  function FixedFirst(q: seq<Entry>): seq<Entry>
  {
    Fixed(q) + Free(q)
  }

  /** Every fixed entry comes before every free one. */
  predicate Partitioned(r: seq<Entry>)
  {
    forall i, j :: 0 <= i < j < |r| && r[j].fixed ==> r[i].fixed
  }

  lemma {:induction false} FixedFreeCount(q: seq<Entry>)
    ensures multiset(Fixed(q)) + multiset(Free(q)) == multiset(q)
  {
    if q != [] {
      FixedFreeCount(q[1..]);
      var h := if q[0].fixed then [q[0]] else [];
      var t := if q[0].fixed then [] else [q[0]];
      assert Fixed(q) == h + Fixed(q[1..]) && Free(q) == t + Free(q[1..]);
      assert multiset(h) + multiset(t) == multiset([q[0]]);
      assert q == [q[0]] + q[1..];
    }
  }

  /** The sorted queue is a permutation of the registered one. */
  lemma FixedFirstPermutation(q: seq<Entry>)
    ensures multiset(FixedFirst(q)) == multiset(q)
  {
    FixedFreeCount(q);
  }

  /** The sorted queue has every fixed entry before every free one. */
  lemma FixedFirstPartitioned(q: seq<Entry>)
    ensures Partitioned(FixedFirst(q))
  {
    var r := FixedFirst(q);
    forall i, j | 0 <= i < j < |r| && r[j].fixed
      ensures r[i].fixed
    {
      if i < |Fixed(q)| {
        assert r[i] == Fixed(q)[i];
      }
    }
  }

  lemma {:induction false} FixedAppend(a: seq<Entry>, b: seq<Entry>)
    ensures Fixed(a + b) == Fixed(a) + Fixed(b)
  {
    if a == [] {
      assert a + b == b;
    } else {
      FixedAppend(a[1..], b);
      var h := if a[0].fixed then [a[0]] else [];
      calc {
        Fixed(a + b);
        { assert (a + b)[0] == a[0] && (a + b)[1..] == a[1..] + b; }
        h + Fixed(a[1..] + b);
        h + (Fixed(a[1..]) + Fixed(b));
        (h + Fixed(a[1..])) + Fixed(b);
        Fixed(a) + Fixed(b);
      }
    }
  }

  lemma {:induction false} FreeAppend(a: seq<Entry>, b: seq<Entry>)
    ensures Free(a + b) == Free(a) + Free(b)
  {
    if a == [] {
      assert a + b == b;
    } else {
      FreeAppend(a[1..], b);
      var h := if a[0].fixed then [] else [a[0]];
      calc {
        Free(a + b);
        { assert (a + b)[0] == a[0] && (a + b)[1..] == a[1..] + b; }
        h + Free(a[1..] + b);
        h + (Free(a[1..]) + Free(b));
        (h + Free(a[1..])) + Free(b);
        Free(a) + Free(b);
      }
    }
  }

  lemma {:induction false} FixedIdempotent(q: seq<Entry>)
    ensures Fixed(Fixed(q)) == Fixed(q) && Free(Fixed(q)) == []
    ensures Free(Free(q)) == Free(q) && Fixed(Free(q)) == []
  {
    if q != [] {
      FixedIdempotent(q[1..]);
      var head := if q[0].fixed then [q[0]] else [];
      var tail := if q[0].fixed then [] else [q[0]];
      FixedAppend(head, Fixed(q[1..]));
      FreeAppend(head, Fixed(q[1..]));
      FixedAppend(tail, Free(q[1..]));
      FreeAppend(tail, Free(q[1..]));
      assert Fixed(head) == head && Free(head) == [] by {
        if q[0].fixed {
          assert head[1..] == [];
        }
      }
      assert Free(tail) == tail && Fixed(tail) == [] by {
        if !q[0].fixed {
          assert tail[1..] == [];
        }
      }
    }
  }

  /** The sort is stable: the fixed entries keep their relative order, and so
      do the free ones. */
  lemma FixedFirstStable(q: seq<Entry>)
    ensures Fixed(FixedFirst(q)) == Fixed(q) && Free(FixedFirst(q)) == Free(q)
  {
    FixedAppend(Fixed(q), Free(q));
    FreeAppend(Fixed(q), Free(q));
    FixedIdempotent(q);
  }

  lemma {:induction false} PartitionedSplit(r: seq<Entry>)
    requires Partitioned(r)
    ensures r == Fixed(r) + Free(r)
  {
    if r != [] {
      assert Partitioned(r[1..]) by {
        forall i, j | 0 <= i < j < |r[1..]| && r[1..][j].fixed
          ensures r[1..][i].fixed
        {
          assert r[i + 1] == r[1..][i] && r[j + 1] == r[1..][j];
        }
      }
      PartitionedSplit(r[1..]);
    }
  }

  /** Any order with the fixed entries first that keeps both groups' order is
      the one `FixedFirst` gives: the sort's result does not depend on how
      the stable sort is carried out. */
  lemma FixedFirstUnique(q: seq<Entry>, r: seq<Entry>)
    requires Partitioned(r) && Fixed(r) == Fixed(q) && Free(r) == Free(q)
    ensures r == FixedFirst(q)
  {
    PartitionedSplit(r);
  }

  // ---------------------------------------------------------------------------
  // `findIndex(v => !v.fixed)`.

  /** The index of the first free entry, or -1 if there is none. */
  function FirstFree(q: seq<Entry>): (i: int)
    ensures -1 <= i < |q|
    ensures i == -1 <==> forall k :: 0 <= k < |q| ==> q[k].fixed
    ensures i >= 0 ==> !q[i].fixed && forall k :: 0 <= k < i ==> q[k].fixed
  {
    if q == [] then -1
    else if !q[0].fixed then 0
    else
      var k := FirstFree(q[1..]);
      if k == -1 then -1 else k + 1
  }

  /** `fixedNum` after the sort: the number of fixed entries when some entry
      is free, and -1 when none is (the empty queue included). */
  lemma FixedNum(q: seq<Entry>)
    ensures FirstFree(FixedFirst(q)) == if Free(q) == [] then -1 else |Fixed(q)|
  {
    var r := FixedFirst(q);
    if Free(q) == [] {
      assert r == Fixed(q);
    } else {
      var i := |Fixed(q)|;
      assert r[i] == Free(q)[0];
      assert forall k :: 0 <= k < i ==> r[k] == Fixed(q)[k];
    }
  }

  // ---------------------------------------------------------------------------
  // The class.

  /** Slot `i` of the three instance buffers holds entry `i` of `q`. */
  predicate SlotOk(ids: seq<int>, params: seq<real>, offsets: seq<real>, q: seq<Entry>, i: int)
    requires 0 <= i < |q| && |ids| == |q| && |params| == 2 * |q| && |offsets| == 3 * |q|
  {
    ids[i] == Uint32(q[i].id) && params[2 * i] == q[i].zenith && params[2 * i + 1] == q[i].azimuth
    && offsets[3 * i] == q[i].offset.x && offsets[3 * i + 1] == q[i].offset.y && offsets[3 * i + 2] == q[i].offset.z
  }

  /** Every slot of the three instance buffers holds its entry of `q`. */
  predicate SlotsOk(ids: seq<int>, params: seq<real>, offsets: seq<real>, q: seq<Entry>)
  {
    |ids| == |q| && |params| == 2 * |q| && |offsets| == 3 * |q|
    && forall i :: 0 <= i < |q| ==> SlotOk(ids, params, offsets, q, i)
  }

  /** The `forEach` of `bake`: zeroed buffers sized for `q`, with entry `i`
      written into slot `i` of each. */
  method FillSlots(q: seq<Entry>) returns (ids: array<int>, params: array<real>, offsets: array<real>)
    ensures fresh(ids) && fresh(params) && fresh(offsets)
    ensures SlotsOk(ids[..], params[..], offsets[..], q)
  {
    ids := new int[|q|](_ => 0);
    params := new real[2 * |q|](_ => 0.0);
    offsets := new real[3 * |q|](_ => 0.0);
    var index := 0;
    while index < |q|
      invariant 0 <= index <= |q|
      invariant forall i :: 0 <= i < index ==> SlotOk(ids[..], params[..], offsets[..], q, i)
      modifies ids, params, offsets
    {
      ghost var ids0, params0, offsets0 := ids[..], params[..], offsets[..];
      var e := q[index];
      ids[index] := Uint32(e.id);
      params[2 * index], params[2 * index + 1] := e.zenith, e.azimuth;
      offsets[3 * index], offsets[3 * index + 1], offsets[3 * index + 2] := e.offset.x, e.offset.y, e.offset.z;
      forall i | 0 <= i <= index
        ensures SlotOk(ids[..], params[..], offsets[..], q, i)
      {
        if i < index {
          assert SlotOk(ids0, params0, offsets0, q, i);
        }
      }
      index := index + 1;
    }
  }

  class MedusaVerletBridge {
    /** Never set by `bake`, so it stays false. */
    var isBaked: bool
    var vertexQueue: seq<Entry>
    var fixedNum: int
    var vertexCount: nat
    /** `uint` per instance. */
    var vertexIdData: array<int>
    /** `vec2` per instance: zenith and azimuth. */
    var paramsData: array<real>
    /** `vec3` per instance. */
    var offsetData: array<real>

    /** A bridge with an empty queue. The fields `bake` sets start as zero
        and empty buffers. */
    constructor()
      ensures !isBaked && vertexQueue == [] && vertexCount == 0
    {
      isBaked := false;
      vertexQueue := [];
      fixedNum := 0;
      vertexCount := 0;
      vertexIdData := new int[0];
      paramsData := new real[0];
      offsetData := new real[0];
    }

    /** `registerVertex`: queues the vertex's id, its coordinates, offset and
        fixed flag. Once baked it reports an error and queues it anyway. */
    method RegisterVertex(id: nat, zenith: real, azimuth: real, offset: Vec3, fixed: bool) returns (logged: bool)
      modifies this`vertexQueue
      ensures logged == isBaked
      ensures vertexQueue == old(vertexQueue) + [Entry(id, zenith, azimuth, offset, fixed)]
    {
      logged := isBaked;
      vertexQueue := vertexQueue + [Entry(id, zenith, azimuth, offset, fixed)];
    }

    /** `bake`: sorts the queue fixed-first, records the index of its first
        free entry and its length, and writes every entry into its slot of the
        three buffers. */
    method Bake()
      modifies this`vertexQueue, this`fixedNum, this`vertexCount, this`vertexIdData, this`paramsData, this`offsetData
      ensures vertexQueue == FixedFirst(old(vertexQueue))
      ensures multiset(vertexQueue) == multiset(old(vertexQueue)) && Partitioned(vertexQueue)
      ensures fixedNum == FirstFree(vertexQueue) && vertexCount == |vertexQueue|
      ensures fixedNum == if Free(old(vertexQueue)) == [] then -1 else |Fixed(old(vertexQueue))|
      ensures isBaked == old(isBaked)
      ensures fresh(vertexIdData) && fresh(paramsData) && fresh(offsetData)
      ensures SlotsOk(vertexIdData[..], paramsData[..], offsetData[..], vertexQueue)
    {
      FixedFirstPermutation(vertexQueue);
      FixedFirstPartitioned(vertexQueue);
      FixedNum(vertexQueue);
      var q := FixedFirst(vertexQueue);
      var ids, params, offsets := FillSlots(q);
      Install(q, ids, params, offsets);
    }

    /** The sorted queue, its first free index and length, and the filled
        buffers become the bridge's. */
    method Install(q: seq<Entry>, ids: array<int>, params: array<real>, offsets: array<real>)
      modifies this`vertexQueue, this`fixedNum, this`vertexCount, this`vertexIdData, this`paramsData, this`offsetData
      ensures vertexQueue == q && fixedNum == FirstFree(q) && vertexCount == |q|
      ensures vertexIdData == ids && paramsData == params && offsetData == offsets
    {
      vertexQueue, fixedNum, vertexCount := q, FirstFree(q), |q|;
      vertexIdData, paramsData, offsetData := ids, params, offsets;
    }

    /** `update`: its whole body is commented out; it changes nothing. */
    method Update(uTime: real)
      ensures unchanged(this)
    {
    }
  }
}
