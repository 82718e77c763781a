/** The vertex builder of `MedusaBellGeometry`: seven parallel attribute
    arrays and an index list, grown one vertex (or one face) at a time. A
    vertex either follows four physics vertices, or has the id `-1` in all
    four slots and is placed procedurally by the shader. */
module MedusaBellGeometry {
  import opened Vectors

  /** `Math.PI`, written as the shortest decimal that reads back as that
      double; the double's exact value differs from it in later digits. */
  const Pi: real := 3.141592653589793

  /** `normalizeAzimuth`: a negative azimuth is turned once around the circle. */
  function NormalizeAzimuth(a: real): (r: real)
    ensures r == a || r == a + 2.0 * Pi
    ensures a >= -2.0 * Pi ==> r >= 0.0
    ensures a < 2.0 * Pi ==> r < 2.0 * Pi
    ensures a >= 0.0 ==> r == a
  {
    if a < 0.0 then a + Pi * 2.0 else a
  }

  /** Normalising twice is normalising once, for every azimuth of at least
      one turn below zero. */
  lemma NormalizeAzimuthIdempotent(a: real)
    requires a >= -2.0 * Pi
    ensures NormalizeAzimuth(NormalizeAzimuth(a)) == NormalizeAzimuth(a)
  {
  }

  /** What `addVertexFromVertices` reads of a vertex it follows. */
  datatype Anchor = Anchor(id: int, zenith: real, azimuth: real, offset: Vec3)

  /** The azimuth `addVertexFromVertices` gives: the mean of the four
      normalised azimuths. For azimuths within one turn of zero it lies in
      `[0, 2π)`, and between the smallest and largest normalised azimuth. */
  function MeanAzimuth(v0: Anchor, v1: Anchor, v2: Anchor, v3: Anchor): (r: real)
    ensures var a0, a1, a2, a3 := NormalizeAzimuth(v0.azimuth), NormalizeAzimuth(v1.azimuth),
                                  NormalizeAzimuth(v2.azimuth), NormalizeAzimuth(v3.azimuth);
            Min4(a0, a1, a2, a3) <= r <= Max4(a0, a1, a2, a3)
    ensures (forall v | v in [v0, v1, v2, v3] :: -2.0 * Pi <= v.azimuth < 2.0 * Pi) ==> 0.0 <= r < 2.0 * Pi
  {
    (NormalizeAzimuth(v0.azimuth) + NormalizeAzimuth(v1.azimuth) + NormalizeAzimuth(v2.azimuth)
      + NormalizeAzimuth(v3.azimuth)) * 0.25
  }

  /** The zenith `addVertexFromVertices` gives: the mean zenith less the mean
      `offset.y`, moved by `side.y * width`. Without that move it lies between
      the smallest and largest `zenith - offset.y` of the four. */
  function MeanZenith(v0: Anchor, v1: Anchor, v2: Anchor, v3: Anchor, side: Vec3, width: real): (r: real)
    ensures var z0, z1, z2, z3 := v0.zenith - v0.offset.y, v1.zenith - v1.offset.y,
                                  v2.zenith - v2.offset.y, v3.zenith - v3.offset.y;
            Min4(z0, z1, z2, z3) <= r - side.y * width <= Max4(z0, z1, z2, z3)
  {
    var zenith := (v0.zenith + v1.zenith + v2.zenith + v3.zenith) * 0.25;
    var zenith' := zenith - (v0.offset.y + v1.offset.y + v2.offset.y + v3.offset.y) * 0.25;
    zenith' + side.y * width
  }

  function Min4(a: real, b: real, c: real, d: real): real
  {
    var ab := if a <= b then a else b;
    var cd := if c <= d then c else d;
    if ab <= cd then ab else cd
  }

  function Max4(a: real, b: real, c: real, d: real): real
  {
    var ab := if a >= b then a else b;
    var cd := if c >= d then c else d;
    if ab >= cd then ab else cd
  }

  /** A vertex placed on four anchors that sit at one spot, with no side
      offset, is placed at that spot. */
  lemma MeanOfEqualAnchors(v0: Anchor, v1: Anchor, v2: Anchor, v3: Anchor, side: Vec3, width: real)
    requires v1.zenith == v0.zenith && v2.zenith == v0.zenith && v3.zenith == v0.zenith
    requires v1.azimuth == v0.azimuth && v2.azimuth == v0.azimuth && v3.azimuth == v0.azimuth
    requires v1.offset.y == v0.offset.y && v2.offset.y == v0.offset.y && v3.offset.y == v0.offset.y
    requires side.y * width == 0.0
    ensures MeanZenith(v0, v1, v2, v3, side, width) == v0.zenith - v0.offset.y
    ensures MeanAzimuth(v0, v1, v2, v3) == NormalizeAzimuth(v0.azimuth)
  {
  }

  /** `a[i] = x` on a JavaScript array that has no holes: it replaces an
      element, or appends one when `i` is the length. */
  function Put<T>(a: seq<T>, i: nat, x: T): (r: seq<T>)
    requires i <= |a|
    ensures |r| == if i == |a| then |a| + 1 else |a|
    ensures r[i] == x && forall k :: 0 <= k < |a| && k != i ==> r[k] == a[k]
  {
    if i == |a| then a + [x] else a[i := x]
  }

  /** `a[i] = x` where `i` is the length of `a`: the write appends. */
  method Append<T>(a: seq<T>, i: nat, x: T) returns (r: seq<T>)
    requires i == |a|
    ensures r == a + [x]
  {
    r := Put(a, i, x);
    assert r == a + [x];
  }

  class BellGeometry {
    var positionArray: seq<real>
    var vertexIdArray: seq<int>
    var zenithArray: seq<real>
    var azimuthArray: seq<real>
    var bottomFactorArray: seq<real>
    var sideArray: seq<real>
    var uvArray: seq<real>
    var indices: seq<int>
    var vertexCount: nat
    /** `Math.sin` and `Math.cos`. */
    const sin: real -> real
    const cos: real -> real

    /** The arrays are in lockstep with `vertexCount`. */
    ghost predicate Valid()
      reads this
    {
      |positionArray| == 3 * vertexCount && |vertexIdArray| == 4 * vertexCount && |uvArray| == 2 * vertexCount
      && |zenithArray| == vertexCount && |azimuthArray| == vertexCount && |bottomFactorArray| == vertexCount
      && |sideArray| == 4 * vertexCount
    }

    /** Vertex `v` has no anchors: the shader places it from its zenith and
        azimuth. */
    predicate Procedural(v: nat)
      requires Valid() && v < vertexCount
      reads this
    {
      vertexIdArray[4 * v] == -1
    }

    constructor(sin: real -> real, cos: real -> real)
      ensures Valid() && vertexCount == 0 && indices == []
      ensures this.sin == sin && this.cos == cos
    {
      this.sin, this.cos := sin, cos;
      positionArray, vertexIdArray, zenithArray, azimuthArray := [], [], [], [];
      bottomFactorArray, sideArray, uvArray, indices := [], [], [], [];
      vertexCount := 0;
    }

    /** The arrays become the given ones, one vertex longer. */
    method Store(position: seq<real>, ids: seq<int>, uv: seq<real>, zeniths: seq<real>, azimuths: seq<real>,
                 bottomFactors: seq<real>, sides: seq<real>)
      modifies this`positionArray, this`vertexIdArray, this`uvArray, this`zenithArray, this`azimuthArray
      modifies this`bottomFactorArray, this`sideArray, this`vertexCount
      ensures positionArray == position && vertexIdArray == ids && uvArray == uv && zenithArray == zeniths
      ensures azimuthArray == azimuths && bottomFactorArray == bottomFactors && sideArray == sides
      ensures vertexCount == old(vertexCount) + 1
    {
      positionArray, vertexIdArray, uvArray, zenithArray := position, ids, uv, zeniths;
      azimuthArray, bottomFactorArray, sideArray := azimuths, bottomFactors, sides;
      vertexCount := vertexCount + 1;
    }

    /** `_addVertex`: writes slot `ptr = vertexCount` of every array, bumps
        the count and returns `ptr`. The `uv` is `(sin(azimuth), cos(azimuth))`
        scaled by the zenith; the position is left at zero for the shader. */
    method AddVertex(zenith: real, azimuth: real, v0: int, v1: int, v2: int, v3: int,
                     side: Vec3, width: real, bottomFactor: real) returns (ptr: nat)
      requires Valid()
      modifies this
      ensures Valid() && ptr == old(vertexCount) && vertexCount == ptr + 1
      ensures positionArray == old(positionArray) + [0.0, 0.0, 0.0]
      ensures vertexIdArray == old(vertexIdArray) + [v0, v1, v2, v3]
      ensures uvArray == old(uvArray) + [sin(azimuth) * zenith, cos(azimuth) * zenith]
      ensures zenithArray == old(zenithArray) + [zenith] && azimuthArray == old(azimuthArray) + [azimuth]
      ensures bottomFactorArray == old(bottomFactorArray) + [bottomFactor]
      ensures sideArray == old(sideArray) + [side.x, side.y, side.z, width]
      ensures indices == old(indices)
    {
      ptr := vertexCount;
      var uvx := sin(azimuth) * zenith;
      var uvy := cos(azimuth) * zenith;
      var position, ids, uv, zeniths, azimuths, bottomFactors, sides :=
        positionArray, vertexIdArray, uvArray, zenithArray, azimuthArray, bottomFactorArray, sideArray;
      position := Append(position, ptr * 3 + 0, 0.0);
      position := Append(position, ptr * 3 + 1, 0.0);
      position := Append(position, ptr * 3 + 2, 0.0);
      ids := Append(ids, ptr * 4 + 0, v0);
      ids := Append(ids, ptr * 4 + 1, v1);
      ids := Append(ids, ptr * 4 + 2, v2);
      ids := Append(ids, ptr * 4 + 3, v3);
      uv := Append(uv, ptr * 2 + 0, uvx);
      uv := Append(uv, ptr * 2 + 1, uvy);
      zeniths := Append(zeniths, ptr, zenith);
      azimuths := Append(azimuths, ptr, azimuth);
      bottomFactors := Append(bottomFactors, ptr, bottomFactor);
      sides := Append(sides, ptr * 4 + 0, side.x);
      sides := Append(sides, ptr * 4 + 1, side.y);
      sides := Append(sides, ptr * 4 + 2, side.z);
      sides := Append(sides, ptr * 4 + 3, width);
      Store(position, ids, uv, zeniths, azimuths, bottomFactors, sides);
    }

    /** `addVertexFromParams`: a procedural vertex, with `-1` in all four id
        slots. */
    method AddVertexFromParams(zenith: real, azimuth: real, side: Vec3 := Vec3(0.0, 0.0, 1.0),
                               width: real := 0.0, bottomFactor: real := 0.0) returns (id: nat)
      requires Valid()
      modifies this
      ensures Valid() && id == old(vertexCount) && vertexCount == id + 1
      ensures Procedural(id)
      ensures positionArray == old(positionArray) + [0.0, 0.0, 0.0]
      ensures uvArray == old(uvArray) + [sin(azimuth) * zenith, cos(azimuth) * zenith]
      ensures vertexIdArray == old(vertexIdArray) + [-1, -1, -1, -1]
      ensures zenithArray == old(zenithArray) + [zenith] && azimuthArray == old(azimuthArray) + [azimuth]
      ensures bottomFactorArray == old(bottomFactorArray) + [bottomFactor]
      ensures sideArray == old(sideArray) + [side.x, side.y, side.z, width]
      ensures indices == old(indices)
    {
      id := AddVertex(zenith, azimuth, -1, -1, -1, -1, side, width, bottomFactor);
    }

    /** `addVertexFromVertices`: a vertex that follows four anchors, with
        their ids in order, the mean of their normalised azimuths and their
        mean zenith less their mean `offset.y`, moved by `side.y * width`. */
    method AddVertexFromVertices(v0: Anchor, v1: Anchor, v2: Anchor, v3: Anchor, side: Vec3, width: real,
                                 bottomFactor: real := 0.0) returns (id: nat)
      requires Valid()
      modifies this
      ensures Valid() && id == old(vertexCount) && vertexCount == id + 1
      ensures Procedural(id) <==> v0.id == -1
      ensures positionArray == old(positionArray) + [0.0, 0.0, 0.0]
      ensures uvArray[..2 * id] == old(uvArray)
      ensures uvArray[2 * id] == sin(MeanAzimuth(v0, v1, v2, v3)) * MeanZenith(v0, v1, v2, v3, side, width)
      ensures uvArray[2 * id + 1] == cos(MeanAzimuth(v0, v1, v2, v3)) * MeanZenith(v0, v1, v2, v3, side, width)
      ensures vertexIdArray == old(vertexIdArray) + [v0.id, v1.id, v2.id, v3.id]
      ensures zenithArray == old(zenithArray) + [MeanZenith(v0, v1, v2, v3, side, width)]
      ensures azimuthArray == old(azimuthArray) + [MeanAzimuth(v0, v1, v2, v3)]
      ensures bottomFactorArray == old(bottomFactorArray) + [bottomFactor]
      ensures sideArray == old(sideArray) + [side.x, side.y, side.z, width]
      ensures indices == old(indices)
    {
      var azimuth := (NormalizeAzimuth(v0.azimuth) + NormalizeAzimuth(v1.azimuth) + NormalizeAzimuth(v2.azimuth)
                      + NormalizeAzimuth(v3.azimuth)) * 0.25;
      var zenith := (v0.zenith + v1.zenith + v2.zenith + v3.zenith) * 0.25;
      zenith := zenith - (v0.offset.y + v1.offset.y + v2.offset.y + v3.offset.y) * 0.25;
      zenith := zenith + side.y * width;
      ghost var z, a := MeanZenith(v0, v1, v2, v3, side, width), MeanAzimuth(v0, v1, v2, v3);
      assert zenith == z && azimuth == a;
      id := AddVertex(zenith, azimuth, v0.id, v1.id, v2.id, v3.id, side, width, bottomFactor);
      assert uvArray[..2 * id] == old(uvArray);
    }

    /** `addFace`: appends the triangle's three indices in order. */
    method AddFace(v0: int, v1: int, v2: int)
      modifies this`indices
      ensures indices == old(indices) + [v0, v1, v2]
    {
      indices := indices + [v0, v1, v2];
    }
  }
}
