/** The three per-substep compute kernels of `VerletPhysics`, as functions of
    whole buffers read element by element (a `vec4` position and a `vec3`
    force per vertex, a `vec3` spring force per spring). Each kernel
    invocation reads shared buffers and writes only its own element, so the
    parallel dispatch has the effect of one sequential pass. The read-only
    buffers stay flat: endpoints `uvec2` and `(stiffness, restLength)` `vec2`
    per spring, `(start, count)` `uvec2` per vertex, one `int` per entry. */
module VerletKernels {
  import opened Vectors
  import opened VerletTopology

  /** The floor on a spring's length in the force kernel. */
  const MinDistance: real := 0.000001
  /** The factor the vertex kernel multiplies the previous force by. */
  const Damping: real := 0.997
  /** The constant added to the y component of every vertex force. */
  const GravityY: real := -0.0002
  /** Integration moves a vertex only when its `w` exceeds this. */
  const MaskThreshold: real := 0.5
  /** The number of spring / vertex / integrate rounds of one `update`. */
  const Substeps: nat := 10

  // Readers of the flat read-only buffers.

  function Vertex0At(springVertex: seq<int>, j: nat): int
    requires 2 * j + 1 < |springVertex|
  {
    springVertex[2 * j]
  }

  function Vertex1At(springVertex: seq<int>, j: nat): int
    requires 2 * j + 1 < |springVertex|
  {
    springVertex[2 * j + 1]
  }

  function StiffnessAt(params: seq<real>, j: nat): real
    requires 2 * j + 1 < |params|
  {
    params[2 * j]
  }

  function RestLengthAt(params: seq<real>, j: nat): real
    requires 2 * j + 1 < |params|
  {
    params[2 * j + 1]
  }

  function StartAt(ptr: seq<int>, v: nat): int
    requires 2 * v + 1 < |ptr|
  {
    ptr[2 * v]
  }

  function CountAt(ptr: seq<int>, v: nat): int
    requires 2 * v + 1 < |ptr|
  {
    ptr[2 * v + 1]
  }

  // ---------------------------------------------------------------------------
  // The spring force kernel.

  /** `max(len, 0.000001)`: the length the force kernel divides by. */
  function FlooredDistance(len: real): (d: real)
    ensures d >= MinDistance && d >= len
    ensures d == len || d == MinDistance
  {
    if len < MinDistance then MinDistance else len
  }

  /** The scalar the delta `p1 - p0` is multiplied by:
      `(dist - restLength) * stiffness / dist * 0.5`. */
  function SpringCoefficient(len: real, stiffness: real, restLength: real): real
  {
    var dist := FlooredDistance(len);
    (dist - restLength) * stiffness / dist * 0.5
  }

  /** The force of one spring with endpoints at `p0` and `p1`, which the
      vertex kernel applies to `p0` with sign +1 and to `p1` with sign -1. */
  function SpringForce(p0: Vec3, p1: Vec3, stiffness: real, restLength: real, length: Vec3 -> real): Vec3
  {
    var delta := Sub(p1, p0);
    Scale(SpringCoefficient(length(delta), stiffness, restLength), delta)
  }

  /** What the model takes of the vector length the renderer evaluates: it is
      never negative, and a vector and its negation have the same length. */
  ghost predicate LengthOk(length: Vec3 -> real)
  {
    (forall d :: length(d) >= 0.0) && (forall d :: length(Scale(-1.0, d)) == length(d))
  }

  /** A spring whose floored length equals its rest length exerts no force. */
  lemma SpringForceAtRest(p0: Vec3, p1: Vec3, stiffness: real, restLength: real, length: Vec3 -> real)
    requires FlooredDistance(length(Sub(p1, p0))) == restLength
    ensures SpringForce(p0, p1, stiffness, restLength, length) == Zero
  {
  }

  /** With positive stiffness, a stretched spring pulls `p0` toward `p1` (a
      positive multiple of `p1 - p0`), a compressed one pushes it away, and a
      spring at its rest length does neither. */
  lemma SpringForceDirection(len: real, stiffness: real, restLength: real)
    requires stiffness > 0.0
    ensures SpringCoefficient(len, stiffness, restLength) > 0.0 <==> FlooredDistance(len) > restLength
    ensures SpringCoefficient(len, stiffness, restLength) < 0.0 <==> FlooredDistance(len) < restLength
  {
    var dist := FlooredDistance(len);
    var c := SpringCoefficient(len, stiffness, restLength);
    assert c == (dist - restLength) * (stiffness / dist * 0.5);
    assert stiffness / dist * 0.5 > 0.0;
  }

  predicate EndpointsOk(springVertex: seq<int>, n: nat)
  {
    forall j :: 0 <= j < |springVertex| ==> 0 <= springVertex[j] < n
  }

  /** The spring forces after `computeSpringForces`: spring `j` reads the
      `xyz` of its endpoints' positions and its `(stiffness, restLength)`. */
  function SpringForces(pos: seq<Vec4>, springVertex: seq<int>, params: seq<real>, m: nat, length: Vec3 -> real): (r: seq<Vec3>)
    requires |springVertex| == 2 * m && |params| == 2 * m
    requires EndpointsOk(springVertex, |pos|)
    ensures |r| == m
  {
    seq(m, j requires 0 <= j < m =>
      SpringForce(pos[Vertex0At(springVertex, j)].Xyz(), pos[Vertex1At(springVertex, j)].Xyz(),
                  StiffnessAt(params, j), RestLengthAt(params, j), length))
  }

  // ---------------------------------------------------------------------------
  // The vertex force kernel.

  /** An entry that names one of the springs of `springForce`. */
  predicate EntryOk(e: int, springForce: seq<Vec3>)
  {
    e != 0 && DecodeId(e) < |springForce|
  }

  /** `select(e > 0, 1.0, -1.0) * springForce[abs(e) - 1]`: what one entry of a
      vertex's range adds to its force. An entry naming no spring (`bake`
      never writes one into a range) adds nothing. */
  function Contribution(e: int, springForce: seq<Vec3>): Vec3
  {
    if EntryOk(e, springForce) then Scale(if e > 0 then 1.0 else -1.0, springForce[DecodeId(e)])
    else Zero
  }

  /** The force accumulated over `entries` in order, starting from `acc`. */
  function Gather(acc: Vec3, entries: seq<int>, springForce: seq<Vec3>): Vec3
  {
    if |entries| == 0 then acc
    else Add(Gather(acc, entries[..|entries| - 1], springForce), Contribution(entries[|entries| - 1], springForce))
  }

  /** A vertex's new force: the damped old force, plus the signed forces of the
      springs in its range, plus gravity on y. */
  function VertexForce(force: Vec3, entries: seq<int>, springForce: seq<Vec3>): Vec3
  {
    var f := Gather(Scale(Damping, force), entries, springForce);
    Vec3(f.x, f.y + GravityY, f.z)
  }

  /** Entry `k` of the influencer buffer names one of the `m` springs. */
  predicate EntryNamesSpring(influencer: seq<int>, k: int, m: nat)
    requires 0 <= k < |influencer|
  {
    influencer[k] != 0 && Abs(influencer[k]) <= m
  }

  /** Vertex `v`'s `(start, count)` range lies inside the first `total` entries. */
  predicate RangeFits(ptr: seq<int>, v: int, total: nat)
    requires 0 <= v && 2 * v + 1 < |ptr|
  {
    0 <= StartAt(ptr, v) && 0 <= CountAt(ptr, v) && StartAt(ptr, v) + CountAt(ptr, v) <= total
  }

  /** The `(start, count)` ranges lie inside the first `total` entries of the
      influencer buffer, and those entries are nonzero and name one of the `m`
      springs. */
  predicate InfluenceOk(ptr: seq<int>, influencer: seq<int>, n: nat, m: nat, total: nat)
  {
    |ptr| == 2 * n && total <= |influencer|
    && (forall k :: 0 <= k < total ==> EntryNamesSpring(influencer, k, m))
    && (forall v :: 0 <= v < n ==> RangeFits(ptr, v, total))
  }

  predicate RangeInBounds(ptr: seq<int>, influencer: seq<int>, v: nat)
  {
    2 * v + 1 < |ptr| && 0 <= StartAt(ptr, v) && 0 <= CountAt(ptr, v)
    && StartAt(ptr, v) + CountAt(ptr, v) <= |influencer|
  }

  /** The entries of vertex `v`'s range (none if the range is malformed, which
      `bake` never produces). */
  function RangeOf(ptr: seq<int>, influencer: seq<int>, v: nat): seq<int>
  {
    if RangeInBounds(ptr, influencer, v) then influencer[StartAt(ptr, v)..StartAt(ptr, v) + CountAt(ptr, v)]
    else []
  }

  /** Under `InfluenceOk` every range is in bounds and each of its entries
      names a spring. */
  lemma RangeEntriesOk(ptr: seq<int>, influencer: seq<int>, n: nat, m: nat, total: nat, springForce: seq<Vec3>, v: nat)
    requires InfluenceOk(ptr, influencer, n, m, total) && |springForce| == m && v < n
    ensures RangeInBounds(ptr, influencer, v)
    ensures forall e | e in RangeOf(ptr, influencer, v) :: EntryOk(e, springForce)
  {
    assert RangeFits(ptr, v, total);
    var r := RangeOf(ptr, influencer, v);
    forall e | e in r
      ensures EntryOk(e, springForce)
    {
      var i :| 0 <= i < |r| && r[i] == e;
      assert e == influencer[StartAt(ptr, v) + i] && EntryNamesSpring(influencer, StartAt(ptr, v) + i, m);
    }
  }

  /** The forces after `computeVertexForces`. */
  function VertexForces(force: seq<Vec3>, ptr: seq<int>, influencer: seq<int>, springForce: seq<Vec3>): (r: seq<Vec3>)
    ensures |r| == |force|
  {
    seq(|force|, v requires 0 <= v < |force| => VertexForce(force[v], RangeOf(ptr, influencer, v), springForce))
  }

  /** The two references of one spring contribute opposite forces: `+f` to
      its vertex0 and `-f` to its vertex1. */
  lemma ContributionsCancel(j: nat, springForce: seq<Vec3>)
    requires j < |springForce|
    ensures Encode(SpringRef(j, 1)) == j + 1 && Encode(SpringRef(j, -1)) == -(j + 1)
    ensures Contribution(j + 1, springForce) == springForce[j]
    ensures Add(Contribution(j + 1, springForce), Contribution(-(j + 1), springForce)) == Zero
  {
  }

  /** Gathering from any starting value adds the same sum: the damped force
      plus the sum over the range from zero. */
  lemma {:induction false} GatherShift(acc: Vec3, entries: seq<int>, springForce: seq<Vec3>)
    ensures Gather(acc, entries, springForce) == Add(acc, Gather(Zero, entries, springForce))
  {
    if |entries| > 0 {
      GatherShift(acc, entries[..|entries| - 1], springForce);
    }
  }

  /** The force of spring `r.id` signed by `r.sign`: what a vertex receives
      from one reference on its list (nothing for a reference to no spring,
      which a consistent topology never holds). */
  function RefForce(r: SpringRef, springForce: seq<Vec3>): Vec3
  {
    if r.id < |springForce| then Scale(r.sign as real, springForce[r.id]) else Zero
  }

  /** The signed forces of `refs` summed in order from `acc`. */
  function SumRefs(acc: Vec3, refs: seq<SpringRef>, springForce: seq<Vec3>): Vec3
  {
    if |refs| == 0 then acc
    else Add(SumRefs(acc, refs[..|refs| - 1], springForce), RefForce(refs[|refs| - 1], springForce))
  }

  /** Gathering the encoded entries of a reference list decodes each entry
      back to its reference: the kernel applies exactly the spring forces the
      builder recorded, with the recorded signs. */
  lemma {:induction false} GatherDecodes(acc: Vec3, refs: seq<SpringRef>, springForce: seq<Vec3>)
    requires forall r | r in refs :: ValidSign(r.sign) && r.id < |springForce|
    ensures forall e | e in EncodeAll(refs) :: EntryOk(e, springForce)
    ensures Gather(acc, EncodeAll(refs), springForce) == SumRefs(acc, refs, springForce)
  {
    var es := EncodeAll(refs);
    forall e | e in es
      ensures EntryOk(e, springForce)
    {
      var k :| 0 <= k < |es| && es[k] == e;
      assert refs[k] in refs;
      EncodeRoundTrip(refs[k]);
    }
    if |refs| > 0 {
      var n := |refs| - 1;
      assert EncodeAll(refs[..n]) == es[..n];
      assert refs[n] in refs;
      GatherDecodes(acc, refs[..n], springForce);
      EncodeRoundTrip(refs[n]);
    }
  }

  // ---------------------------------------------------------------------------
  // The integration kernel.

  /** `position.addAssign(force)` when `w > 0.5`: the force moves `xyz`, and
      `w` is kept. */
  function Advance(p: Vec4, f: Vec3): Vec4
  {
    if p.w > MaskThreshold then Vec4(p.x + f.x, p.y + f.y, p.z + f.z, p.w) else p
  }

  /** The positions after `computeAddForces`. */
  function Integrate(pos: seq<Vec4>, force: seq<Vec3>): (r: seq<Vec4>)
    requires |force| == |pos|
    ensures |r| == |pos|
  {
    seq(|pos|, v requires 0 <= v < |pos| => Advance(pos[v], force[v]))
  }

  // ---------------------------------------------------------------------------
  // One `update`: ten rounds of the three kernels.

  /** The buffers the kernels only read, as `bake` leaves them. */
  datatype Baked = Baked(n: nat, m: nat, springVertex: seq<int>, springParams: seq<real>,
                         influencerPtr: seq<int>, influencer: seq<int>, total: nat)

  predicate BakedOk(b: Baked)
  {
    |b.springVertex| == 2 * b.m && |b.springParams| == 2 * b.m
    && EndpointsOk(b.springVertex, b.n)
    && InfluenceOk(b.influencerPtr, b.influencer, b.n, b.m, b.total)
  }

  /** The buffers the kernels write. */
  datatype SimState = SimState(position: seq<Vec4>, force: seq<Vec3>, springForce: seq<Vec3>)

  predicate StateOk(b: Baked, s: SimState)
  {
    |s.position| == b.n && |s.force| == b.n && |s.springForce| == b.m
  }

  /** One round: spring forces from the current positions, then vertex forces
      from those, then integration with the new forces. */
  function Substep(b: Baked, s: SimState, length: Vec3 -> real): (r: SimState)
    requires BakedOk(b) && StateOk(b, s)
    ensures StateOk(b, r)
  {
    var sf := SpringForces(s.position, b.springVertex, b.springParams, b.m, length);
    var f := VertexForces(s.force, b.influencerPtr, b.influencer, sf);
    SimState(Integrate(s.position, f), f, sf)
  }

  /** `k` rounds from `s`. */
  function Run(b: Baked, s: SimState, length: Vec3 -> real, k: nat): (r: SimState)
    requires BakedOk(b) && StateOk(b, s)
    ensures StateOk(b, r)
    decreases k
  {
    if k == 0 then s else Run(b, Substep(b, s, length), length, k - 1)
  }

  /** `q[v]` is `p[v]` if the `w` of `p[v]` is at most 0.5. Nothing is said
      of the `w` of other vertices, so the property does not depend on how
      `vec4 += vec3` pads the force. */
  predicate KeptAt(p: seq<Vec4>, q: seq<Vec4>, v: int)
    requires 0 <= v < |p| && |q| == |p|
  {
    p[v].w <= MaskThreshold ==> q[v] == p[v]
  }

  /** `q` keeps the whole position of every vertex whose `w` in `p` is at
      most 0.5. */
  predicate KeepsMasked(p: seq<Vec4>, q: seq<Vec4>)
  {
    |q| == |p| && forall v :: 0 <= v < |p| ==> KeptAt(p, q, v)
  }

  /** Integration never moves a masked vertex, and (with `w` kept by
      `Advance`) never changes a `w`; every other vertex moves by exactly its
      force. */
  lemma IntegrateKeepsMasked(pos: seq<Vec4>, force: seq<Vec3>)
    requires |force| == |pos|
    ensures KeepsMasked(pos, Integrate(pos, force))
    ensures forall v :: 0 <= v < |pos| ==> Integrate(pos, force)[v].w == pos[v].w
    ensures forall v :: 0 <= v < |pos| && pos[v].w > MaskThreshold ==>
      Integrate(pos, force)[v].Xyz() == Add(pos[v].Xyz(), force[v])
  {
  }

  /** Keeping the masked vertices composes. */
  lemma KeepsMaskedTrans(p: seq<Vec4>, q: seq<Vec4>, r: seq<Vec4>)
    requires KeepsMasked(p, q) && KeepsMasked(q, r)
    ensures KeepsMasked(p, r)
  {
    forall v | 0 <= v < |p|
      ensures KeptAt(p, r, v)
    {
      assert KeptAt(p, q, v) && KeptAt(q, r, v);
    }
  }

  /** One round keeps every masked vertex. */
  lemma SubstepKeepsMasked(b: Baked, s: SimState, length: Vec3 -> real)
    requires BakedOk(b) && StateOk(b, s)
    ensures KeepsMasked(s.position, Substep(b, s, length).position)
  {
    var sf := SpringForces(s.position, b.springVertex, b.springParams, b.m, length);
    IntegrateKeepsMasked(s.position, VertexForces(s.force, b.influencerPtr, b.influencer, sf));
  }

  /** A vertex with `w <= 0.5` keeps its position through every round:
      pinned vertices never move. */
  lemma {:induction false} RunKeepsMasked(b: Baked, s: SimState, length: Vec3 -> real, k: nat)
    requires BakedOk(b) && StateOk(b, s)
    ensures KeepsMasked(s.position, Run(b, s, length, k).position)
    decreases k
  {
    if k > 0 {
      var next := Substep(b, s, length);
      SubstepKeepsMasked(b, s, length);
      RunKeepsMasked(b, next, length, k - 1);
      KeepsMaskedTrans(s.position, next.position, Run(b, next, length, k - 1).position);
    }
  }
}
