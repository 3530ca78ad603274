/**
 * OpenCV's matrix type code, as the sizing constructors of MatDynMem read it:
 * a C `int` whose low three bits hold the depth (the numeric kind of one
 * channel) and whose next nine bits hold the channel count minus one.
 * CV_MAT_DEPTH masks with 7 and CV_MAT_CN masks bits 3..11 and shifts them
 * down; on the two's-complement pattern of `t` these are exactly the
 * remainder `t % 8` and the field `(t / 8) % 512`, since Dafny's `/` and `%`
 * are Euclidean (the remainder is never negative, also for negative codes).
 */
module CvType {

  /** The values of a 32-bit C `int`. */
  predicate IsInt32(x: int) {
    -0x8000_0000 <= x < 0x8000_0000
  }

  type Int32 = x: int | IsInt32(x)

  /** Bit position of the channel field, and the largest channel count. */
  const CV_CN_SHIFT := 3
  const CV_CN_MAX := 512

  /** Depth code of single-precision floating point. */
  const CV_32F := 5
  /** Depth code of 8-bit unsigned integers. */
  const CV_8U := 0
  /** One- and two-channel single-precision float types. */
  const CV_32FC1 := 5
  const CV_32FC2 := 13
  /** Three-channel 8-bit unsigned type. */
  const CV_8UC3 := 16

  /** CV_MAT_DEPTH: `type & CV_MAT_DEPTH_MASK`, the low three bits. */
  function Depth(t: Int32): (d: int)
    ensures 0 <= d < 8
  {
    t % 8
  }

  /** CV_MAT_CN: `((type & CV_MAT_CN_MASK) >> CV_CN_SHIFT) + 1`, bits 3..11 plus one. */
  function Channels(t: Int32): (cn: int)
    ensures 1 <= cn <= CV_CN_MAX
  {
    (t / 8) % CV_CN_MAX + 1
  }

  /** The assertion the float-only constructors make on their type argument. */
  predicate IsFloat32(t: Int32)
    ensures 0 <= t < 8 * CV_CN_MAX ==> (IsFloat32(t) <==> t == 5 + (Channels(t) - 1) * 8)
  {
    Depth(t) == CV_32F
  }

  /** CV_MAKETYPE: the type code of `cn` channels of depth `depth`. */
  function MakeType(depth: int, cn: int): (t: Int32)
    requires 0 <= depth < 8 && 1 <= cn <= CV_CN_MAX
    ensures 0 <= t < 8 * CV_CN_MAX
  {
    depth + (cn - 1) * 8
  }

  /** Decoding an encoded type gives back its depth and its channel count. */
  lemma DecodeMakeType(depth: int, cn: int)
    requires 0 <= depth < 8 && 1 <= cn <= CV_CN_MAX
    ensures Depth(MakeType(depth, cn)) == depth
    ensures Channels(MakeType(depth, cn)) == cn
  {
  }

  /** A code inside the encoded range is the encoding of its own fields. */
  lemma MakeTypeOfFields(t: Int32)
    requires 0 <= t < 8 * CV_CN_MAX
    ensures MakeType(Depth(t), Channels(t)) == t
  {
  }

  /** Codes that differ only above bit 11 have the same fields. */
  lemma FieldsIgnoreHighBits(t: Int32, k: int)
    requires IsInt32(t + k * 8 * CV_CN_MAX)
    ensures Depth(t + k * 8 * CV_CN_MAX) == Depth(t)
    ensures Channels(t + k * 8 * CV_CN_MAX) == Channels(t)
  {
  }

  /** The named constants decode as their names say. */
  lemma NamedTypes()
    ensures IsFloat32(CV_32FC1) && Channels(CV_32FC1) == 1
    ensures IsFloat32(CV_32FC2) && Channels(CV_32FC2) == 2
    ensures !IsFloat32(CV_8UC3) && Depth(CV_8UC3) == CV_8U && Channels(CV_8UC3) == 3
  {
    DecodeMakeType(CV_32F, 1);
    DecodeMakeType(CV_32F, 2);
    DecodeMakeType(CV_8U, 3);
  }
}
