/** The `SIMD4.xyz` extension: the first three components of a four-component vector. */
module Extensions {
  import opened Simd

  /** `v.xyz`, the swizzle `v[SIMD3(0, 1, 2)]`. */
  function Xyz(v: Vec4): (r: Vec3)
    ensures forall i :: 0 <= i < 3 ==> r.At(i) == v.At(i)
  {
    Vec3(v.At(0), v.At(1), v.At(2))
  }

  /** `simd_float4(p, w)`: `p` extended by a fourth component; `xyz` reads `p` back. */
  function Extend(p: Vec3, w: real): (v: Vec4)
    ensures Xyz(v) == p && v.At(3) == w
  {
    Vec4(p.x, p.y, p.z, w)
  }

  /** The fourth component plays no part in `xyz`. */
  lemma XyzIgnoresW(v: Vec4, w: real)
    ensures Xyz(v.(w := w)) == Xyz(v)
  {
  }
}
