# Aurelia mass-spring core, modelled in Dafny

This project models the sequential core of the Aurelia jellyfish demo. It is
built on a GPU mass-spring ("Verlet") simulator:

- **`VerletPhysics`** (`verlet_topology.dfy`, `verlet_kernels.dfy`,
  `verlet_physics.dfy`).
  - `addVertex` and `addSpring` queue a topology with dense ids. Each vertex keeps signed spring references.
  - `bake` lays the topology out in flat typed buffers: positions with a movable mask `w`, and one `(start, count)` range per vertex over an array of entries encoded as `(springId + 1) * sign`. It also derives every rest length from the baked positions.
  - `update` runs ten rounds of three compute kernels: spring force, a damped gather of signed spring forces plus gravity, and integration gated by `w > 0.5`.
  - Buffers are Dafny arrays of reals and ints. Each kernel is a method that loops over the instances in order, and is proved equal to a whole-buffer function.
  - Properties about those functions and the baked layout are proved as lemmas: range tiling, the encoding round trip, exactly-once references, and pinned vertices never moving.
- **`MedusaVerletBridge`** (`medusa_verlet_bridge.dfy`).
  - A registration queue that `bake` sorts fixed-first, stably. It records the index of the first free entry and fills three parallel instance buffers.
  - `update` does nothing.
- **`MedusaBellGeometry`'s vertex builder** (`medusa_bell_geometry.dfy`).
  - Seven parallel attribute arrays grown in lockstep, plus an index list.
  - Four `-1` ids mark a procedural vertex.
  - Azimuth normalisation, and the zenith and azimuth averaging for vertices that follow four others.
- **`triple32`** (`plankton.dfy`): the 32-bit integer hash, as a `bv32` function.

`vectors.dfy` holds the `vec3`/`vec4` values and flat-buffer readers that the physics, the bridge and the bell geometry share; `plankton.dfy` does not use it.

These things become parameters of the model:

- `length()` and `distance()`, which take a square root. The physics constructor takes a `length: Vec3 -> real`, which it requires to be non-negative and to give a vector and its negation the same length (`VerletKernels.LengthOk`).
- `Math.sin` and `Math.cos`. The bell geometry's constructor takes them.

The model follows the code as written; in particular:

- `update` runs a fixed ten substeps per call. It ignores its interval, with no time accumulator (`src/testApp/physics/verletPhysics.js:219-231`).
- Mutating after `bake` only logs an error. The vertex or spring is still queued (`src/testApp/physics/verletPhysics.js:66-68`, `78-80`; `src/testApp/medusaVerletBridge.js:20-22`).
- The bridge sorts by the fixed flag alone. It has no live kernel, and its `update` body is commented out (`src/testApp/medusaVerletBridge.js:28`, `115-133`).
- The bridge's `bake` never sets `isBaked`, so its post-bake diagnostic never fires. The model keeps this.

## Model

| member | source | states |
|---|---|---|
| VerletTopology.MaskOf | src/testApp/physics/verletPhysics.js:70 | the `w` `addVertex` stores: 0 for a fixed vertex, 1 for a free one |
| VerletTopology.Encode | src/testApp/physics/verletPhysics.js:111 | the entry `(id + 1) * sign` written for a reference |
| VerletTopology.DecodeId | src/testApp/physics/verletPhysics.js:173 | the spring index `abs(e) - 1` the vertex kernel reads for an entry |
| VerletTopology.DecodeSign | src/testApp/physics/verletPhysics.js:174 | the factor `e > 0 ? 1 : -1` the vertex kernel applies to an entry |
| VerletTopology.RefsOf | src/testApp/physics/verletPhysics.js:81-84 | vertex `v`'s list: for each spring in queue order, `{id, +1}` if `v` is its vertex0, then `{id, -1}` if `v` is its vertex1 |
| VerletTopology.EncodeRoundTrip | src/testApp/physics/verletPhysics.js:111 | an entry `(id+1)*sign` with sign ±1 is never 0, and decoding it with `abs(e)-1` and `e > 0 ? 1 : -1` gives back the spring id and sign |
| VerletTopology.DecodeRoundTrip | src/testApp/physics/verletPhysics.js:173-174 | every nonzero entry decodes to a non-negative id and a sign ±1 that encode back to that entry |
| VerletTopology.EncodeInjective | src/testApp/physics/verletPhysics.js:111 | two references share an entry value exactly when they are equal |
| VerletTopology.EncodeAllAppend | src/testApp/physics/verletPhysics.js:110-115 | encoding a list of references is encoding its parts in order |
| VerletTopology.RefsOfUnused | src/testApp/physics/verletPhysics.js:82-83 | a vertex that is no spring's endpoint has an empty reference list |
| VerletTopology.RefsOfSound | src/testApp/physics/verletPhysics.js:81-84 | every reference on a vertex's list names a queued spring, has sign ±1, and +1 / -1 mean the vertex is that spring's vertex0 / vertex1 |
| VerletTopology.NoLaterEntries | src/testApp/physics/verletPhysics.js:81-83 | no vertex's encoded list names a spring that has not been added yet |
| VerletTopology.RefsOfCount | src/testApp/physics/verletPhysics.js:82-83 | spring j occurs on vertex v's list exactly once as +(j+1) iff v is its vertex0, and exactly once as -(j+1) iff v is its vertex1 (otherwise not at all) |
| VerletTopology.RefsOfCountLast | src/testApp/physics/verletPhysics.js:81-84 | the latest spring occurs on a vertex's encoded list once as +(id+1) exactly when the vertex is its vertex0 and once as -(id+1) exactly when it is its vertex1 |
| VerletTopology.LinkSpring | src/testApp/physics/verletPhysics.js:82-83 | after one `addSpring` every vertex keeps its list, except that vertex0's gains `{id, +1}` and then vertex1's gains `{id, -1}` (both, in that order, for a spring from a vertex to itself) |
| VerletTopology.AddVertexOk | src/testApp/physics/verletPhysics.js:65-76 | queuing a vertex with the next id, the mask of its fixed flag and no springs keeps the topology invariant |
| VerletTopology.LinkSpringOk | src/testApp/physics/verletPhysics.js:77-86 | queuing a spring with the next id between queued vertices and linking it into their lists keeps the topology invariant |
| VerletTopology.CountAppend | src/testApp/physics/verletPhysics.js:110-115 | occurrences in a concatenation add up |
| VerletTopology.Entries | src/testApp/physics/verletPhysics.js:108-116 | the entries written for one vertex: none if it is fixed, otherwise its encoded references in list order |
| VerletTopology.RangeCount | src/testApp/physics/verletPhysics.js:107-109 | a vertex's count slot: its list length if free, 0 (the buffer's initial value) if fixed |
| VerletTopology.Flatten | src/testApp/physics/verletPhysics.js:99-117 | the influencer entries bake writes: every vertex's entries, concatenated in queue order |
| VerletTopology.RangeStart | src/testApp/physics/verletPhysics.js:99-107 | vertex `i`'s start slot: the number of entries written for the vertices before it, the running `influencerPtr` |
| VerletTopology.RangeTiling | src/testApp/physics/verletPhysics.js:99-117 | the first range starts at 0; each range starts where the previous one ends; the last ends at the number of entries written; the slice of vertex i's range is exactly its entries |
| VerletTopology.RangesDisjoint | src/testApp/physics/verletPhysics.js:99-117 | the ranges of two different vertices never overlap |
| VerletTopology.FlattenPrefix | src/testApp/physics/verletPhysics.js:99-117 | the entries written for the first i vertices are a prefix of those written for the first j ≥ i |
| VerletTopology.RefTotalAll | src/testApp/physics/verletPhysics.js:82-83 | when every spring joins queued vertices, the lists hold 2·springCount references in all |
| VerletTopology.FlattenBound | src/testApp/physics/verletPhysics.js:97-117 | bake writes at most 2·springCount entries (the influencer buffer's size), so every write stays in bounds |
| VerletTopology.VertexEntries | src/testApp/physics/verletPhysics.js:108-116 | a fixed vertex's range is empty; in a free vertex's range spring j occurs once with the sign of the endpoint the vertex is, and not otherwise; every entry names a spring that has the vertex at the endpoint its sign says |
| VerletTopology.FlattenEntries | src/testApp/physics/verletPhysics.js:97-117 | every written entry is nonzero and names one of the queued springs |
| VerletTopology.FindRange | src/testApp/physics/verletPhysics.js:99-117 | every written slot lies in the range of exactly the vertex it was written for |
| VerletKernels.SpringCoefficient | src/testApp/physics/verletPhysics.js:159-160 | the scalar `(dist - restLength) * stiffness / dist * 0.5`, with `dist` the length floored at 0.000001 |
| VerletKernels.SpringForce | src/testApp/physics/verletPhysics.js:158-160 | one spring's force: that scalar times `delta = p1 - p0` |
| VerletKernels.SpringForces | src/testApp/physics/verletPhysics.js:151-162 | the whole spring-force buffer: spring `j`'s force from the `xyz` of its two endpoints and its `(stiffness, restLength)` slots, for each of the `springCount` springs |
| VerletKernels.FlooredDistance | src/testApp/physics/verletPhysics.js:159 | the distance the force kernel divides by is the length or 0.000001, whichever is larger, so it is never zero |
| VerletKernels.SpringForceAtRest | src/testApp/physics/verletPhysics.js:158-160 | a spring whose floored length equals its rest length exerts zero force |
| VerletKernels.SpringForceDirection | src/testApp/physics/verletPhysics.js:160 | with positive stiffness the force on vertex0 points toward vertex1 iff the spring is stretched, and away iff compressed |
| VerletKernels.EntryOk | src/testApp/physics/verletPhysics.js:173 | an entry is nonzero and `abs(e) - 1` indexes the spring-force buffer |
| VerletKernels.Contribution | src/testApp/physics/verletPhysics.js:173-175 | what one entry adds: `springForce[abs(e) - 1]` times 1 for a positive entry and -1 otherwise; nothing for an entry naming no spring, which bake never writes |
| VerletKernels.Gather | src/testApp/physics/verletPhysics.js:170-176 | the starting force plus every entry's contribution, added in loop order |
| VerletKernels.VertexForce | src/testApp/physics/verletPhysics.js:168-177 | `0.997 * force`, plus the gathered contributions, with -0.0002 then added to `y` |
| VerletKernels.RangeOf | src/testApp/physics/verletPhysics.js:165-167 | the influencer entries from `ptr.x` up to `ptr.x + ptr.y` (none for a range outside the buffer, which bake never writes) |
| VerletKernels.VertexForces | src/testApp/physics/verletPhysics.js:164-179 | the whole force buffer: each vertex's `VertexForce` over its own range, from its old force and the spring forces |
| VerletKernels.RangeEntriesOk | src/testApp/physics/verletPhysics.js:165-173 | for well-formed tables every vertex's range lies in the buffer and each of its entries names a spring |
| VerletKernels.ContributionsCancel | src/testApp/physics/verletPhysics.js:173-175 | a spring's two entries contribute +f to vertex0 and -f to vertex1, which sum to zero |
| VerletKernels.GatherShift | src/testApp/physics/verletPhysics.js:168-176 | the gather adds the same sum of signed spring forces to whatever damped force it starts from |
| VerletKernels.GatherDecodes | src/testApp/physics/verletPhysics.js:170-176 | gathering a vertex's encoded entries applies exactly the spring forces on its reference list, with their signs |
| VerletKernels.Advance | src/testApp/physics/verletPhysics.js:183-185 | a position with `w > 0.5` gets the force added to `xyz` and keeps `w`; any other position is unchanged |
| VerletKernels.Integrate | src/testApp/physics/verletPhysics.js:181-187 | the whole position buffer: `Advance` of each vertex by its own force |
| VerletKernels.IntegrateKeepsMasked | src/testApp/physics/verletPhysics.js:181-187 | integration leaves a vertex with `w <= 0.5` in place and moves every other vertex's `xyz` by exactly its force; with `w` kept by `Advance`, no `w` changes |
| VerletKernels.KeepsMaskedTrans | src/testApp/physics/verletPhysics.js:226-230 | keeping the masked vertices composes across rounds |
| VerletKernels.Substep | src/testApp/physics/verletPhysics.js:226-230 | one spring→vertex→integrate round keeps the buffer shapes the kernels need |
| VerletKernels.Run | src/testApp/physics/verletPhysics.js:226-230 | `k` rounds of `Substep`, in order, from the given state |
| VerletKernels.SubstepKeepsMasked | src/testApp/physics/verletPhysics.js:226-230 | one round never moves a vertex whose `w` is at most 0.5 |
| VerletKernels.RunKeepsMasked | src/testApp/physics/verletPhysics.js:183-186 | across any number of rounds no vertex with `w <= 0.5` moves, whatever the `w` of the other vertices becomes |
| Verlet.RestLength | src/testApp/physics/verletPhysics.js:136-143 | a spring's rest length: `length(p0 - p1)` of its endpoints' baked positions, times its rest length factor |
| Verlet.BakedSpringAtRest | src/testApp/physics/verletPhysics.js:136-160 | a spring baked with factor 1 whose endpoints are at least 0.000001 apart exerts zero force in the first round, because `distance(v0, v1)` and `length(v1 - v0)` agree |
| Verlet.PtrTable | src/testApp/physics/verletPhysics.js:107-109 | the pointer buffer bake writes: for each vertex the running pointer, then `RangeCount` |
| Verlet.PositionBuffer | src/testApp/physics/verletPhysics.js:100-105 | the position buffer bake writes: `(x, y, z, w)` of each vertex in queue order |
| Verlet.BakedRanges | src/testApp/physics/verletPhysics.js:99-117 | the baked pointer and influencer tables give every vertex exactly its entries as its range (none for a fixed vertex), and satisfy what the vertex kernel needs |
| Verlet.BakedRange | src/testApp/physics/verletPhysics.js:107-109 | vertex v's `(start, count)` slots fit the written entries and select exactly its entries |
| Verlet.BakedEntry | src/testApp/physics/verletPhysics.js:111 | every written influencer slot names one of the springs |
| Verlet.BakedVertexForce | src/testApp/physics/verletPhysics.js:164-179 | after bake, the vertex kernel gives a fixed vertex its damped force plus gravity, and a free vertex its damped force plus the signed force of every spring on its list plus gravity on y |
| Verlet.PtrTableSlots | src/testApp/physics/verletPhysics.js:107-109 | each vertex's pointer slots hold the running pointer and, if free, its list length; a fixed vertex's count keeps the buffer's zero |
| Verlet.PositionBufferElements | src/testApp/physics/verletPhysics.js:102-105 | element v of the baked position buffer is vertex v's `(x, y, z, w)` |
| Verlet.PositionBufferVec4s | src/testApp/physics/verletPhysics.js:100-105 | the baked position buffer, read as `vec4`s, is the queued vertices' values in order |
| Verlet.ZeroBuffer | src/testApp/physics/verletPhysics.js:20 | a freshly allocated `vec3` buffer reads as all-zero vectors |
| Verlet.WriteEntries | src/testApp/physics/verletPhysics.js:110-115 | the inner loop appends the encoded references from the running pointer on, advances it by the list length and leaves later slots alone |
| Verlet.WriteVertex | src/testApp/physics/verletPhysics.js:101-116 | one vertex writes its four position components, its start slot, its count slot only when free, and its entries, advancing the pointer by its range count |
| Verlet.FilledStep | src/testApp/physics/verletPhysics.js:100-116 | writing vertex i as the loop body does extends the filled prefix (positions, pointer slots, entries, zero tail) from i to i+1 vertices |
| Verlet.FillVertex | src/testApp/physics/verletPhysics.js:100-116 | one iteration of the first bake loop takes the buffers from filled for i vertices to filled for i+1, with the pointer advanced by vertex i's range count |
| Verlet.FillVertexBuffers | src/testApp/physics/verletPhysics.js:99-117 | the first bake loop leaves the position buffer, the pointer table and the flattened lists as specified, with the rest of the influencer buffer still zero |
| Verlet.FillSpringBuffers | src/testApp/physics/verletPhysics.js:127-134 | the second bake loop stores each spring's endpoint ids at [2i] and [2i+1], its stiffness at [2i], a zero rest length and its factor at [i] |
| Verlet.FilledEndpoints | src/testApp/physics/verletPhysics.js:127-130 | after the second bake loop every endpoint slot names a queued vertex |
| Verlet.FilledTable | src/testApp/physics/verletPhysics.js:127-145 | the filled spring tables with the rest lengths the init pass writes are the spring tables the kernels expect |
| Verlet.InitSpringLengths | src/testApp/physics/verletPhysics.js:136-145 | each rest length becomes the distance of its endpoints' positions times its factor; stiffness is kept |
| Verlet.BakeVertices | src/testApp/physics/verletPhysics.js:94-117 | the per-vertex buffers come out with the initial positions, zero forces and correct pointer and influencer tables |
| Verlet.BakeSprings | src/testApp/physics/verletPhysics.js:123-145 | the per-spring buffers come out with valid endpoints, stiffness, rest length = factor × initial distance, and zero spring forces |
| Verlet.BakeBuffers | src/testApp/physics/verletPhysics.js:94-145 | all eight buffers come out fresh and distinct, with the initial positions, zero forces, the influence tables in which every vertex's range is exactly its entries, and the spring tables with derived rest lengths |
| Verlet.VerletPhysics.constructor | src/testApp/physics/verletPhysics.js:53-63 | a new system is unbaked with empty queues, and evaluates the given length function |
| Verlet.VerletPhysics.AddVertex | src/testApp/physics/verletPhysics.js:65-76 | returns the previous vertex count as the id, queues the vertex with `w` 0 if fixed and 1 otherwise and no springs, logs exactly when baked, and changes no buffer |
| Verlet.VerletPhysics.AddSpring | src/testApp/physics/verletPhysics.js:77-86 | returns the previous spring count as the id, queues the spring, appends `{id, +1}` to vertex0's list and `{id, -1}` to vertex1's and changes nothing else, logging exactly when baked |
| Verlet.VerletPhysics.InstallVertexBuffers | src/testApp/physics/verletPhysics.js:88-97 | the system takes the vertex count and the four per-vertex buffers and records the number of entries written |
| Verlet.VerletPhysics.InstallSpringBuffers | src/testApp/physics/verletPhysics.js:89-126 | the system takes the spring count and the four per-spring buffers, and is marked baked |
| Verlet.VerletPhysics.Bake | src/testApp/physics/verletPhysics.js:87-218 | fresh buffers with the initial positions, zero forces, a tiled influence table in which every vertex's range is exactly its entries, the spring tables with derived rest lengths, and `isBaked` set |
| Verlet.VerletPhysics.SpringKernel | src/testApp/physics/verletPhysics.js:152-161 | one instance computes spring j's force from the current positions |
| Verlet.VerletPhysics.ComputeSpringForces | src/testApp/physics/verletPhysics.js:151-162 | the spring force buffer becomes the spring forces of the current positions |
| Verlet.VerletPhysics.StoreSpringForce | src/testApp/physics/verletPhysics.js:161 | writing spring j's force replaces exactly element j of the spring force buffer |
| Verlet.VerletPhysics.VertexKernel | src/testApp/physics/verletPhysics.js:165-178 | one instance computes vertex v's damped force plus its range's signed spring forces plus gravity |
| Verlet.VerletPhysics.ComputeVertexForces | src/testApp/physics/verletPhysics.js:164-179 | the force buffer becomes the vertex forces of the old forces and the spring forces |
| Verlet.VerletPhysics.StoreForce | src/testApp/physics/verletPhysics.js:178 | writing vertex v's force replaces exactly element v of the force buffer |
| Verlet.VerletPhysics.ComputeAddForces | src/testApp/physics/verletPhysics.js:181-187 | the position buffer becomes the integration of the old positions by the forces |
| Verlet.VerletPhysics.StorePosition | src/testApp/physics/verletPhysics.js:185 | moving vertex v replaces exactly element v of the position buffer, mask kept |
| Verlet.VerletPhysics.Update | src/testApp/physics/verletPhysics.js:219-231 | when baked: ten rounds from the old state, no change to the read-only tables, and no pinned vertex moves; before bake nothing changes |
| MedusaBridge.Uint32 | src/testApp/medusaVerletBridge.js:32-38 | an id stored in the `Uint32Array` lies in [0, 2^32) and is unchanged when it already does |
| MedusaBridge.FixedFirst | src/testApp/medusaVerletBridge.js:28 | the queue after the stable fixed-first sort: its fixed entries in queue order, then its free entries in queue order |
| MedusaBridge.Fixed | src/testApp/medusaVerletBridge.js:28 | the fixed entries of a queue are all fixed and no more than the queue |
| MedusaBridge.Free | src/testApp/medusaVerletBridge.js:28 | the free entries of a queue are all free and no more than the queue |
| MedusaBridge.FixedFreeCount | src/testApp/medusaVerletBridge.js:28 | the fixed and the free entries together are the queue, as a multiset |
| MedusaBridge.FixedFirstPermutation | src/testApp/medusaVerletBridge.js:28 | the sorted queue is a permutation of the registered one |
| MedusaBridge.FixedFirstPartitioned | src/testApp/medusaVerletBridge.js:28 | the sorted queue has every fixed entry before every free one |
| MedusaBridge.FixedAppend | src/testApp/medusaVerletBridge.js:28 | filtering out the fixed entries distributes over concatenation |
| MedusaBridge.FreeAppend | src/testApp/medusaVerletBridge.js:28 | filtering out the free entries distributes over concatenation |
| MedusaBridge.FixedIdempotent | src/testApp/medusaVerletBridge.js:28 | filtering twice is filtering once, and the two filters exclude each other |
| MedusaBridge.FixedFirstStable | src/testApp/medusaVerletBridge.js:28 | the sort is stable: fixed entries keep their relative order, and so do free ones |
| MedusaBridge.PartitionedSplit | src/testApp/medusaVerletBridge.js:28 | a partitioned queue is its fixed entries followed by its free ones |
| MedusaBridge.FixedFirstUnique | src/testApp/medusaVerletBridge.js:28 | any fixed-first order that keeps both groups' order is the sort's result |
| MedusaBridge.FirstFree | src/testApp/medusaVerletBridge.js:29 | `findIndex(v => !v.fixed)`: -1 iff every entry is fixed, otherwise the index of a free entry with only fixed ones before it |
| MedusaBridge.FixedNum | src/testApp/medusaVerletBridge.js:28-29 | after the sort, `fixedNum` is the number of fixed entries if some entry is free, and -1 otherwise (the empty queue included) |
| MedusaBridge.FillSlots | src/testApp/medusaVerletBridge.js:32-44 | buffers sized for the queue, with slot i holding entry i's id, `(zenith, azimuth)` at [2i] and [2i+1] and its offset at [3i..3i+2] |
| MedusaBridge.MedusaVerletBridge.constructor | src/testApp/medusaVerletBridge.js:10-17 | a new bridge is unbaked with an empty queue |
| MedusaBridge.MedusaVerletBridge.RegisterVertex | src/testApp/medusaVerletBridge.js:19-25 | appends the entry `{id, zenith, azimuth, offset, fixed}`, logging exactly when baked |
| MedusaBridge.MedusaVerletBridge.Bake | src/testApp/medusaVerletBridge.js:27-45 | the queue becomes its stable fixed-first permutation, `fixedNum` its first free index (the fixed count, or -1), `vertexCount` its length, and every slot of the three buffers holds its entry |
| MedusaBridge.MedusaVerletBridge.Install | src/testApp/medusaVerletBridge.js:28-34 | the bridge takes the sorted queue, its first free index and length, and the filled buffers |
| MedusaBridge.MedusaVerletBridge.Update | src/testApp/medusaVerletBridge.js:115-133 | changes no state |
| MedusaBellGeometry.NormalizeAzimuth | src/testApp/medusaBellGeometry.js:109-111 | the result is the azimuth or one turn more; it lies in [0, 2π) for azimuths in [-2π, 2π) and equals a non-negative azimuth |
| MedusaBellGeometry.NormalizeAzimuthIdempotent | src/testApp/medusaBellGeometry.js:109-111 | normalising twice is normalising once, for every azimuth ≥ -2π |
| MedusaBellGeometry.MeanAzimuth | src/testApp/medusaBellGeometry.js:146 | the mean azimuth lies between the smallest and largest normalised azimuth, and in [0, 2π) when all four lie within a turn of zero |
| MedusaBellGeometry.MeanZenith | src/testApp/medusaBellGeometry.js:147-149 | apart from the `side.y · width` shift, the zenith lies between the smallest and largest `zenith - offset.y` of the four |
| MedusaBellGeometry.MeanOfEqualAnchors | src/testApp/medusaBellGeometry.js:144-150 | four coincident anchors with no side shift give their own zenith less offset and their normalised azimuth |
| MedusaBellGeometry.Put | src/testApp/medusaBellGeometry.js:118-134 | a JavaScript array write at an index up to the length sets that slot, keeps the others and grows the array only at the end |
| MedusaBellGeometry.Append | src/testApp/medusaBellGeometry.js:118-134 | a write at the current length appends |
| MedusaBellGeometry.BellGeometry.constructor | src/testApp/medusaBellGeometry.js:24-36 | all arrays empty, the count 0, so the arrays are in lockstep |
| MedusaBellGeometry.BellGeometry.Store | src/testApp/medusaBellGeometry.js:118-136 | the arrays take their new contents and the count grows by one |
| MedusaBellGeometry.BellGeometry.AddVertex | src/testApp/medusaBellGeometry.js:113-138 | returns the old count and increments it by one; each array grows by one slot group (3 zero positions, the 4 ids, the uv, zenith, azimuth, bottom factor and side/width), lockstep is kept, indices are untouched |
| MedusaBellGeometry.BellGeometry.Procedural | src/testApp/medusaBellGeometry.js:59 | the shader's test for a procedural vertex: its first id slot holds -1 |
| MedusaBellGeometry.BellGeometry.AddVertexFromParams | src/testApp/medusaBellGeometry.js:140-142 | stores `-1` in all four id slots, so the vertex is procedural by the shader's test (`medusaBellGeometry.js:59`), with the given or default side, width and bottom factor |
| MedusaBellGeometry.BellGeometry.AddVertexFromVertices | src/testApp/medusaBellGeometry.js:144-151 | stores the four anchor ids in order (procedural iff the first is -1), the mean zenith less mean `offset.y` plus `side.y · width`, and the mean normalised azimuth |
| MedusaBellGeometry.BellGeometry.AddFace | src/testApp/medusaBellGeometry.js:153-155 | appends the three indices in order and touches nothing else |
| Plankton.XorShift17 | src/testApp/plankton.js:36 | `x ^ (x >> 17)` on a 32-bit word |
| Plankton.XorShift11 | src/testApp/plankton.js:38 | `x ^ (x >> 11)` on a 32-bit word |
| Plankton.XorShift15 | src/testApp/plankton.js:40 | `x ^ (x >> 15)` on a 32-bit word |
| Plankton.XorShift14 | src/testApp/plankton.js:42 | `x ^ (x >> 14)` on a 32-bit word |
| Plankton.Triple32 | src/testApp/plankton.js:34-43 | the hash: xor-shift by 17, multiply by `0xed5ad4bb`, xor-shift by 11, multiply by `0xac4c1b51`, xor-shift by 15, multiply by `0x31848bab`, xor-shift by 14, every product wrapping modulo 2^32 |
| Plankton.Triple32Values | src/testApp/plankton.js:34-43 | `triple32(0) == 0`, and seeds 1, 2 and 12345 hash to their known distinct values |
| Plankton.MultipliersInvertible | src/testApp/plankton.js:37-41 | the three multipliers are odd, and multiplying by each is undone by its inverse modulo 2^32 |
| Plankton.XorShift17Invertible | src/testApp/plankton.js:36 | `x ^ (x >> 17)` is undone by applying it again |
| Plankton.XorShift11Invertible | src/testApp/plankton.js:38 | `x ^ (x >> 11)` has a two-sided inverse on 32-bit words |
| Plankton.XorShift15Invertible | src/testApp/plankton.js:40 | `x ^ (x >> 15)` has a two-sided inverse on 32-bit words |
| Plankton.XorShift14Invertible | src/testApp/plankton.js:42 | `x ^ (x >> 14)` has a two-sided inverse on 32-bit words |

## Left out

- GPU dispatch and asynchrony are not modelled: `computeAsync`, `Fn(...).compute(n)`, the `toReadOnly`/`toReadWrite` access modes, `read()` read-back, `performance.now` and the benchmark log. Each kernel is a sequential loop. Every instance writes only its own element. Of the buffer it writes it reads only that same element (the vertex kernel its own force, the integrate kernel its own position), and every other buffer it reads is one that no instance of the kernel writes. So the loop has the dispatch's effect.
- Float32 storage and rounding are not modelled. All values are reals, and no accuracy is claimed.
- `length()`/`distance()` (a square root) and `Math.sin`/`Math.cos` are parameters, not definitions.
- `Math.PI` is the decimal literal of the double.
- Unsigned storage of the physics tables is not modelled. The pointer and endpoint values are non-negative and in range, so a `Uint32Array` stores them unchanged. The signed 32-bit storage of the influencer entries `(id + 1) * sign` is not modelled either; they stay in range only while there are fewer than 2^31 - 1 springs, and the model assumes that. The bridge's id conversion is modelled (`MedusaBridge.Uint32`).
- The `vec4 += vec3` of `position.addAssign(force)` is taken to add `xyz` and keep `w`. If `vec3` is instead padded with `w = 1`, a free vertex's `w` grows by 1 every round. Only `IntegrateKeepsMasked`'s statement that no `w` changes rests on this reading; that masked vertices never move does not.
- `console.error`/`console.log` become a `logged` result. It is true exactly when the diagnostic is printed.
- Verlet.VerletPhysics.Update: before `bake` the code logs an error and then fails on the missing buffers. The model returns `ok == false` and changes nothing.
- Verlet.VerletPhysics.Update: the `interval` and `elapsed` arguments are ignored, as in the code.
- Verlet.VerletPhysics.AddVertex: returns the id rather than the vertex object. The object's `THREE.Vector3` copy of the position is not used by the core and is not modelled.
- Verlet.VerletPhysics.AddSpring: takes the endpoint ids rather than vertex objects. It requires them to be queued vertices, which is the only way the code can obtain a vertex object.
- The renderer passed to the `VerletPhysics` constructor is not modelled.
- The bridge's `physics` and `medusa` references are not modelled.
- The commented-out WebGL pass in the bridge's `bake` and `update` is not modelled.
- `bakeGeometry`, `createMaterial` and all shader nodes of `MedusaBellGeometry` are not modelled. The one exception is the `-1` test that selects the procedural branch.
- Plankton.Triple32Values: checks `triple32` on test words, not as a whole. That the whole hash is a bijection (the composition of the seven invertible steps) is not proved. The solver runs out of resource when bit-level facts are combined across function calls. Each step's invertibility is proved on its own.
- `hash`'s float division and the `Plankton` class are not modelled.
