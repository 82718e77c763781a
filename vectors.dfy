/** Three-component real vectors, the `vec3` values of the simulation. Float32
    storage and rounding are not modelled: every component is a real. */
module Vectors {

  datatype Vec3 = Vec3(x: real, y: real, z: real)

  /** A `vec4` position: `xyz` and the movable mask `w`. */
  datatype Vec4 = Vec4(x: real, y: real, z: real, w: real)
  {
    function Xyz(): Vec3
    {
      Vec3(x, y, z)
    }
  }

  const Zero: Vec3 := Vec3(0.0, 0.0, 0.0)

  function Add(a: Vec3, b: Vec3): Vec3
  {
    Vec3(a.x + b.x, a.y + b.y, a.z + b.z)
  }

  function Sub(a: Vec3, b: Vec3): Vec3
  {
    Vec3(a.x - b.x, a.y - b.y, a.z - b.z)
  }

  function Scale(s: real, a: Vec3): Vec3
  {
    Vec3(s * a.x, s * a.y, s * a.z)
  }

  /** Element `v` of a flat `vec4` buffer. */
  function Vec4At(a: seq<real>, v: int): Vec4
    requires 0 <= v && 4 * v + 3 < |a|
  {
    Vec4(a[4 * v], a[4 * v + 1], a[4 * v + 2], a[4 * v + 3])
  }

  /** Element `i` of a flat `vec3` buffer. */
  function Vec3At(a: seq<real>, i: int): Vec3
    requires 0 <= i && 3 * i + 2 < |a|
  {
    Vec3(a[3 * i], a[3 * i + 1], a[3 * i + 2])
  }

  /** The `vec4` buffer `a` read element by element. */
  function Vec4s(a: seq<real>): seq<Vec4>
  {
    seq(|a| / 4, v requires 0 <= v < |a| / 4 => Vec4At(a, v))
  }

  /** The `vec3` buffer `a` read element by element. */
  function Vec3s(a: seq<real>): seq<Vec3>
  {
    seq(|a| / 3, i requires 0 <= i < |a| / 3 => Vec3At(a, i))
  }

  /** Writing the three components of element `i` replaces that element. */
  lemma Vec3sUpdate(a: seq<real>, i: nat, x: Vec3)
    requires 3 * i + 2 < |a|
    ensures Vec3s(a[3 * i := x.x][3 * i + 1 := x.y][3 * i + 2 := x.z]) == Vec3s(a)[i := x]
  {
  }

  /** Writing the `xyz` of element `v` replaces that element's `xyz`. */
  lemma Vec4sUpdate(a: seq<real>, v: nat, x: Vec3)
    requires 4 * v + 3 < |a|
    ensures Vec4s(a[4 * v := x.x][4 * v + 1 := x.y][4 * v + 2 := x.z]) == Vec4s(a)[v := Vec4(x.x, x.y, x.z, a[4 * v + 3])]
  {
  }

  /** One step of a pass that replaces the elements of `orig` by those of
      `next` in order: after element `v` is written, the prefix up to `v + 1`
      is `next`'s and the rest is still `orig`'s. */
  lemma PassStep<T>(cur: seq<T>, orig: seq<T>, next: seq<T>, v: nat, x: T)
    requires v < |cur| == |orig| == |next|
    requires cur[..v] == next[..v] && cur[v..] == orig[v..] && next[v] == x
    ensures cur[v := x][..v + 1] == next[..v + 1] && cur[v := x][v + 1..] == orig[v + 1..]
  {
    assert cur[v := x][..v + 1] == cur[..v] + [x];
    assert next[..v + 1] == next[..v] + [x];
    assert cur[v + 1..] == cur[v..][1..];
    assert orig[v + 1..] == orig[v..][1..];
  }
}
