/** The record of handles the setup steps fill in one by one (`AppData`). */
module Data {
  import opened Vk

  class AppData {
    var messenger: Handle
    var physicalDevice: Handle
    var graphicsQueue: Handle
    var presentQueue: Handle
    var surface: Handle
    var swapchain: Handle
    var swapchainImages: seq<Handle>
    var swapchainImageViews: seq<Handle>
    var swapchainFormat: Format
    var swapchainExtent: Extent2D
    var renderPass: Handle
    var pipelineLayout: Handle
    var pipeline: Handle
    var framebuffers: seq<Handle>
    var commandPool: Handle
    var commandBuffers: seq<Handle>
    var imageAvailableSemaphore: Handle
    var renderFinishedSemaphore: Handle

    /** `AppData::default()`: every handle null, every vector empty. */
    constructor ()
      ensures messenger == NULL && physicalDevice == NULL
      ensures graphicsQueue == NULL && presentQueue == NULL
      ensures surface == NULL && swapchain == NULL
      ensures swapchainImages == [] && swapchainImageViews == []
      ensures swapchainFormat == 0 && swapchainExtent == Extent2D(0, 0)
      ensures renderPass == NULL && pipelineLayout == NULL && pipeline == NULL
      ensures framebuffers == [] && commandPool == NULL && commandBuffers == []
      ensures imageAvailableSemaphore == NULL && renderFinishedSemaphore == NULL
    {
      messenger, physicalDevice := NULL, NULL;
      graphicsQueue, presentQueue := NULL, NULL;
      surface, swapchain := NULL, NULL;
      swapchainImages, swapchainImageViews := [], [];
      swapchainFormat, swapchainExtent := 0, Extent2D(0, 0);
      renderPass, pipelineLayout, pipeline := NULL, NULL, NULL;
      framebuffers, commandPool, commandBuffers := [], NULL, [];
      imageAvailableSemaphore, renderFinishedSemaphore := NULL, NULL;
    }
  }
}
