/**
 * The slice of the Vulkan API that the compositor drives, written as values:
 * image layouts, images, memory handles, the commands recorded into the draw
 * command buffer and the device calls made outside recording.
 */
module Gpu {
  /** The image layouts the compositor names. */
  datatype Layout = Undefined | TransferDst | TransferSrc | PresentSrc

  /**
   * A swapchain presentation image (one per swapchain slot) or an off-screen
   * cache image the compositor allocated itself.
   */
  datatype Image = PresentImage(slot: nat) | CacheImage(id: nat)

  /** Device memory backing a cache image. */
  datatype Memory = Memory(id: nat)

  /** One recorded command. */
  datatype Cmd =
    | Barrier(image: Image, from: Layout, to: Layout)  // BarrierBuilder::build: one image layout transition; stage and access masks left out
    | ClearColor(image: Image)                         // cmd_clear_color_image, the image in TRANSFER_DST
    | CopyWhole(src: Image, dst: Image)                // cmd_copy_image over the whole render resolution
    | RenderLayer(obj: nat, target: nat)               // Layer::render of object `obj`'s layer into output `target`

  /** Device calls made outside command recording. */
  datatype DeviceOp = WaitIdle | DestroyImage(image: Image) | FreeMemory(memory: Memory)
}
