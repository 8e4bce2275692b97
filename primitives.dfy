/**
 * The engine's value types as the ray tracer sees them.
 *
 * Coordinates and colour channels are 32-bit floats.  The ray-tracer side only
 * copies them, so an `F32` is kept as its IEEE 754 bit pattern, which makes
 * copying and comparing exact.  The float arithmetic of player movement is not
 * interpreted: it enters the model as function parameters.
 */
module Primitives {

  /** A single-precision float, identified by its IEEE 754 bit pattern. */
  datatype F32 = F32(bits: bv32)

  const ZERO: F32 := F32(0)                    // 0.0
  const ONE: F32 := F32(0x3F80_0000)           // 1.0

  /** A two-component float vector (glam's `Vec2`). */
  datatype Vec2 = Vec2(x: F32, y: F32)

  /** A four-component float vector (glam's `Vec4`). */
  datatype Vec4 = Vec4(x: F32, y: F32, z: F32, w: F32)

  /** `Vec4::ZERO`: every component is +0.0. */
  const VEC4_ZERO: Vec4 := Vec4(ZERO, ZERO, ZERO, ZERO)

  /** An sRGB colour with alpha, the only colour form this program builds. */
  datatype Color = Rgba(red: F32, green: F32, blue: F32, alpha: F32)

  /** `Color::RED`: opaque pure red. */
  const RED: Color := Rgba(ONE, ZERO, ZERO, ONE)

  /** The unsigned 32-bit integers of the shader's `u32`. */
  newtype U32 = x: int | 0 <= x < 0x1_0000_0000
}
