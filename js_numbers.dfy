/** The ECMAScript number conversions that the street scene's buffers rely on,
    the Math functions it calls, kept abstract behind their ranges, and the
    small values every other module shares: `Option` and THREE.Vector3. */
module JsNumbers {

  /** One element of a Uint8Array or of an ImageData (Uint8ClampedArray) buffer. */
  newtype Byte = x: int | 0 <= x < 256

  datatype Option<T> = None | Some(value: T)

  /** A THREE.Vector3 value. */
  datatype Vec3 = Vec3(x: real, y: real, z: real)

  /** Math.PI, written out as the decimal of the double. */
  const Pi: real := 3.141592653589793

  const TwoTo32: int := 0x1_0000_0000

  /** Rounding toward zero: the "truncate" step shared by ToInt32 and ToUint8
      (ECMA-262, sections 7.1.6 and 7.1.11). */
  function Trunc(v: real): (n: int)
    ensures 0.0 <= v ==> n as real <= v < n as real + 1.0
    ensures v < 0.0 ==> n as real - 1.0 < v <= n as real
  {
    if v >= 0.0 then v.Floor else -((-v).Floor)
  }

  /** ToUint8 (ECMA-262, section 7.1.11): what a store into a Uint8Array keeps.
      The truncated value is reduced modulo 2^8; nothing is clipped. */
  function ToUint8(v: real): (b: Byte)
    ensures (b as int - Trunc(v)) % 256 == 0
  {
    (Trunc(v) % 256) as Byte
  }

  /** ToInt32 (ECMA-262, section 7.1.6): the operand conversion of `&`. */
  function ToInt32(v: real): (n: int)
    ensures -0x8000_0000 <= n < 0x8000_0000
    ensures (n - Trunc(v)) % TwoTo32 == 0
  {
    var k := Trunc(v) % TwoTo32;
    if k >= 0x8000_0000 then k - TwoTo32 else k
  }

  /** `n & 255` on an int32: the low eight bits of its two's complement. */
  function LowByte(n: int): (b: Byte)
    ensures (b as int - n) % 256 == 0
  {
    (n % 256) as Byte
  }

  /** ToUint8Clamp (ECMA-262, section 7.1.12): what a store into ImageData.data keeps.
      Out-of-range values are clipped, in-range ones rounded half to even. */
  function ToUint8Clamp(v: real): (b: Byte)
    ensures v <= 0.0 ==> b == 0
    ensures 255.0 <= v ==> b == 255
    ensures 0.0 <= v <= 255.0 ==> v - 0.5 <= b as int as real <= v + 0.5
  {
    if v <= 0.0 then 0
    else if 255.0 <= v then 255
    else
      var f := v.Floor;
      if f as real + 0.5 < v then (f + 1) as Byte
      else if v < f as real + 0.5 then f as Byte
      else if f % 2 == 1 then (f + 1) as Byte
      else f as Byte
  }

  /** Math.sin, Math.cos, Math.exp and Math.pow. Their exact values are not
      modelled; `Sound` states the ranges the scene relies on. */
  datatype JsMath = JsMath(
    sin: real -> real,
    cos: real -> real,
    exp: real -> real,
    pow: (real, real) -> real)

  ghost predicate Sound(m: JsMath)
  {
    && (forall x :: -1.0 <= m.sin(x) <= 1.0)
    && (forall x :: -1.0 <= m.cos(x) <= 1.0)
    && m.sin(0.0) == 0.0
    && (forall x :: x <= 0.0 ==> 0.0 < m.exp(x) <= 1.0)
    && (forall x, e :: 0.0 <= x <= 1.0 && 0.0 < e ==> 0.0 <= m.pow(x, e) <= 1.0)
  }
}
