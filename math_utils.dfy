/**
 * The scalar and vector helpers of backend/utils/math.go that the rest of
 * the backend relies on: Clamp and the zero-length branches of the two
 * Normalize methods. float64 is modelled as real; a square root cannot be
 * computed, so Normalize receives the length that math.Sqrt would return.
 */
module MathUtils {

  /**
   * utils.Clamp. The lower-bound test comes first, so a value below `lo`
   * yields `lo` even when `lo > hi`.
   */
  function Clamp(value: real, lo: real, hi: real): (r: real)
    ensures value < lo ==> r == lo
    ensures lo <= value && hi < value ==> r == hi
    ensures lo <= value <= hi ==> r == value
    ensures lo <= hi ==> lo <= r <= hi
  {
    if value < lo then lo else if value > hi then hi else value
  }

  /** Clamping twice with the same ordered bounds is clamping once. */
  lemma ClampIdempotent(value: real, lo: real, hi: real)
    requires lo <= hi
    ensures Clamp(Clamp(value, lo, hi), lo, hi) == Clamp(value, lo, hi)
  {
  }

  /** Clamp returns its argument exactly when the argument is already in range. */
  lemma ClampFixedPoints(value: real, lo: real, hi: real)
    requires lo <= hi
    ensures Clamp(value, lo, hi) == value <==> lo <= value <= hi
  {
  }

  datatype Vector3 = Vector3(x: real, y: real, z: real)

  const Zero3 := Vector3(0.0, 0.0, 0.0)

  function LengthSquared(v: Vector3): real
  {
    v.x * v.x + v.y * v.y + v.z * v.z
  }

  /**
   * Vector3.Normalize given `length`, the square root of LengthSquared(v):
   * the zero vector maps to the zero vector, anything else is divided
   * component-wise by its length.
   */
  function Normalize(v: Vector3, length: real): (r: Vector3)
    requires length >= 0.0 && length * length == LengthSquared(v)
    ensures length == 0.0 ==> r == Zero3
    ensures length != 0.0 ==> r.x * length == v.x && r.y * length == v.y && r.z * length == v.z
  {
    if length == 0.0 then Zero3 else Vector3(v.x / length, v.y / length, v.z / length)
  }

  datatype Quaternion = Quaternion(x: real, y: real, z: real, w: real)

  const Identity := Quaternion(0.0, 0.0, 0.0, 1.0)

  function NormSquared(q: Quaternion): real
  {
    q.x * q.x + q.y * q.y + q.z * q.z + q.w * q.w
  }

  /**
   * Quaternion.Normalize given the norm: a zero quaternion becomes the
   * identity rotation {W: 1}; any other is divided component-wise by its norm.
   */
  function NormalizeQuaternion(q: Quaternion, length: real): (r: Quaternion)
    requires length >= 0.0 && length * length == NormSquared(q)
    ensures length == 0.0 ==> r == Identity
    ensures length != 0.0 ==>
      r.x * length == q.x && r.y * length == q.y && r.z * length == q.z && r.w * length == q.w
  {
    if length == 0.0 then Identity
    else Quaternion(q.x / length, q.y / length, q.z / length, q.w / length)
  }
}
