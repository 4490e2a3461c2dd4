/**
 * The surface of the bgfx graphics layer that a frame buffer touches, reduced
 * to the values that cross it: fixed-width integers, resource handles, the
 * command encoder and the swap-chain statistics. The calls themselves are
 * recorded as events by the frame buffer model (module FrameState).
 */
module Bgfx {
  newtype uint8 = x: int | 0 <= x < 0x100
  newtype uint16 = x: int | 0 <= x < 0x1_0000
  newtype uint32 = x: int | 0 <= x < 0x1_0000_0000

  /** Number of a bgfx view. The 16-bit width of bgfx::ViewId is not modelled. */
  type ViewId = nat

  /** bgfx marks an invalid handle by the all-ones index. */
  const InvalidIndex: uint16 := 0xFFFF

  datatype FrameBufferHandle = FrameBufferHandle(idx: uint16)
  {
    /** bgfx::isValid */
    predicate IsValid() { idx != InvalidIndex }
  }

  datatype TextureHandle = TextureHandle(idx: uint16)

  datatype ProgramHandle = ProgramHandle(idx: uint16)

  /** A `bgfx::Encoder*`: null, or one of the encoders handed out for a frame. */
  datatype Encoder = NullEncoder | EncoderAt(slot: nat)

  /** The part of `bgfx::getStats()` the frame buffer reads: the swap-chain size. */
  datatype Stats = Stats(width: uint16, height: uint16)

  /** The arguments of one `encoder->blit` call other than its view. */
  datatype BlitRegion = BlitRegion(
    dst: TextureHandle, dstX: uint16, dstY: uint16,
    src: TextureHandle, srcX: uint16, srcY: uint16,
    width: uint16, height: uint16)
}
