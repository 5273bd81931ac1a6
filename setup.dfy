/**
 * The setup steps whose bodies live outside the modelled core (instance, surface, logical
 * device, swapchain, render pass, pipeline and framebuffer creation). Each is modelled at its
 * boundary: the fallible calls it issues, the handles it creates and the `AppData` fields it
 * assigns.
 */
module Setup {
  import opened Wrappers
  import opened Vk
  import opened Data

  /** The build-time constants the setup reads: `VALIDATION_ENABLED` and `DEVICE_EXTENSIONS`. */
  datatype Config = Config(validationEnabled: bool, deviceExtensions: seq<ExtensionName>)

  /**
   * `LibloadingLoader::new` followed by `Entry::new`: no handle is created; either call can
   * fail, the loader first.
   */
  method LoadEntry(driver: Driver) returns (r: Outcome<Error>)
    ensures LoadLibrary in driver.faults ==> r == Fail(CallFailed(LoadLibrary))
    ensures LoadLibrary !in driver.faults && NewEntry in driver.faults ==> r == Fail(CallFailed(NewEntry))
    ensures r == Pass <==> LoadLibrary !in driver.faults && NewEntry !in driver.faults
  {
    if LoadLibrary in driver.faults {
      return Fail(CallFailed(LoadLibrary));
    }
    if NewEntry in driver.faults {
      return Fail(CallFailed(NewEntry));
    }
    r := Pass;
  }

  /**
   * `create_instance`: creates the instance and, with validation enabled, the debug
   * messenger stored in `data.messenger`. A failing messenger leaves the instance created.
   */
  method CreateInstance(driver: Driver, data: AppData, validation: bool) returns (r: Result<Handle, Error>)
    requires driver.Valid()
    modifies driver, data`messenger
    ensures driver.Valid()
    ensures driver.recorded == old(driver.recorded) && driver.poolFamily == old(driver.poolFamily)
    ensures Call.CreateInstance in driver.faults ==>
              r == Err(CallFailed(Call.CreateInstance)) && unchanged(driver) && unchanged(data)
    ensures Call.CreateInstance !in driver.faults && validation && CreateDebugMessenger in driver.faults ==>
              && r == Err(CallFailed(CreateDebugMessenger)) && unchanged(data)
              && driver.next == old(driver.next) + 1
              && driver.log == old(driver.log) + [Created(Instance, old(driver.next))]
    ensures Call.CreateInstance !in driver.faults && !(validation && CreateDebugMessenger in driver.faults) ==>
              && r == Ok(old(driver.next))
              && (if validation then data.messenger == old(driver.next) + 1 else unchanged(data))
              && driver.next == old(driver.next) + 1 + (if validation then 1 else 0)
              && driver.log == old(driver.log) + [Created(Instance, r.value)]
                   + (if validation then [Created(DebugMessenger, data.messenger)] else [])
  {
    var ok, instance := driver.Create(Instance, Call.CreateInstance);
    if !ok {
      return Err(CallFailed(Call.CreateInstance));
    }
    if validation {
      var messenger;
      ok, messenger := driver.Create(DebugMessenger, CreateDebugMessenger);
      if !ok {
        return Err(CallFailed(CreateDebugMessenger));
      }
      data.messenger := messenger;
    }
    r := Ok(instance);
  }

  /**
   * A step that creates one object of `kind` with `call` and hands back its handle; the
   * caller stores it in the `AppData` field the step assigns.
   */
  method CreateOne(driver: Driver, kind: Kind, call: Call) returns (r: Result<Handle, Error>)
    requires driver.Valid()
    modifies driver
    ensures driver.Valid()
    ensures call in driver.faults ==> r == Err(CallFailed(call)) && unchanged(driver)
    ensures call !in driver.faults ==>
              && r == Ok(old(driver.next))
              && driver.next == old(driver.next) + 1
              && driver.log == old(driver.log) + [Created(kind, r.value)]
              && driver.recorded == old(driver.recorded) && driver.poolFamily == old(driver.poolFamily)
  {
    var ok, h := driver.Create(kind, call);
    if !ok {
      return Err(CallFailed(call));
    }
    r := Ok(h);
  }

  /** `vk_window::create_surface`: the surface goes to `data.surface`. */
  method CreateSurface(driver: Driver, data: AppData) returns (r: Outcome<Error>)
    requires driver.Valid()
    modifies driver, data`surface
    ensures driver.Valid()
    ensures Call.CreateSurface in driver.faults ==>
              r == Fail(CallFailed(Call.CreateSurface)) && unchanged(driver) && unchanged(data)
    ensures Call.CreateSurface !in driver.faults ==>
              && r == Pass && data.surface == old(driver.next)
              && driver.next == old(driver.next) + 1
              && driver.log == old(driver.log) + [Created(Surface, data.surface)]
              && driver.recorded == old(driver.recorded) && driver.poolFamily == old(driver.poolFamily)
  {
    var h := CreateOne(driver, Surface, Call.CreateSurface);
    if h.Err? {
      return Fail(h.error);
    }
    data.surface := h.value;
    r := Pass;
  }

  /** `create_logical_device`: the device handle is returned, not stored in `AppData`. */
  method CreateLogicalDevice(driver: Driver) returns (r: Result<Handle, Error>)
    requires driver.Valid()
    modifies driver
    ensures driver.Valid()
    ensures CreateDevice in driver.faults ==> r == Err(CallFailed(CreateDevice)) && unchanged(driver)
    ensures CreateDevice !in driver.faults ==>
              && r == Ok(old(driver.next))
              && driver.next == old(driver.next) + 1
              && driver.log == old(driver.log) + [Created(Device, r.value)]
              && driver.recorded == old(driver.recorded) && driver.poolFamily == old(driver.poolFamily)
  {
    r := CreateOne(driver, Device, CreateDevice);
  }

  /**
   * `create_swapchain`: creates the swapchain and stores it with the images, format and
   * extent the implementation reports.
   */
  method CreateSwapchain(driver: Driver, data: AppData) returns (r: Outcome<Error>)
    requires driver.Valid()
    modifies driver, data`swapchain, data`swapchainImages, data`swapchainFormat, data`swapchainExtent
    ensures driver.Valid()
    ensures Call.CreateSwapchain in driver.faults ==>
              r == Fail(CallFailed(Call.CreateSwapchain)) && unchanged(driver) && unchanged(data)
    ensures Call.CreateSwapchain !in driver.faults ==>
              && r == Pass && data.swapchain == old(driver.next)
              && data.swapchainImages == driver.swapchainImages
              && data.swapchainFormat == driver.swapchainFormat
              && data.swapchainExtent == driver.swapchainExtent
              && driver.next == old(driver.next) + 1
              && driver.log == old(driver.log) + [Created(Swapchain, data.swapchain)]
              && driver.recorded == old(driver.recorded) && driver.poolFamily == old(driver.poolFamily)
  {
    var h := CreateOne(driver, Swapchain, Call.CreateSwapchain);
    if h.Err? {
      return Fail(h.error);
    }
    data.swapchain := h.value;
    data.swapchainImages := driver.swapchainImages;
    data.swapchainFormat := driver.swapchainFormat;
    data.swapchainExtent := driver.swapchainExtent;
    r := Pass;
  }

  /** `create_swapchain_image_views`: one image view per swapchain image, index-aligned. */
  method CreateSwapchainImageViews(driver: Driver, data: AppData) returns (r: Outcome<Error>)
    requires driver.Valid()
    modifies driver, data`swapchainImageViews
    ensures driver.Valid()
    ensures CreateImageViews in driver.faults ==>
              r == Fail(CallFailed(CreateImageViews)) && unchanged(driver) && unchanged(data)
    ensures CreateImageViews !in driver.faults ==>
              && r == Pass
              && data.swapchainImageViews == Range(old(driver.next), |data.swapchainImages|)
              && driver.next == old(driver.next) + |data.swapchainImages|
              && driver.log == old(driver.log) + CreatedEach(ImageView, data.swapchainImageViews)
              && driver.recorded == old(driver.recorded) && driver.poolFamily == old(driver.poolFamily)
  {
    var ok, views := driver.CreateEach(ImageView, CreateImageViews, |data.swapchainImages|);
    if !ok {
      return Fail(CallFailed(CreateImageViews));
    }
    data.swapchainImageViews := views;
    r := Pass;
  }

  /** `create_render_pass`: the render pass goes to `data.renderPass`. */
  method CreateRenderPass(driver: Driver, data: AppData) returns (r: Outcome<Error>)
    requires driver.Valid()
    modifies driver, data`renderPass
    ensures driver.Valid()
    ensures Call.CreateRenderPass in driver.faults ==>
              r == Fail(CallFailed(Call.CreateRenderPass)) && unchanged(driver) && unchanged(data)
    ensures Call.CreateRenderPass !in driver.faults ==>
              && r == Pass && data.renderPass == old(driver.next)
              && driver.next == old(driver.next) + 1
              && driver.log == old(driver.log) + [Created(RenderPass, data.renderPass)]
              && driver.recorded == old(driver.recorded) && driver.poolFamily == old(driver.poolFamily)
  {
    var h := CreateOne(driver, RenderPass, Call.CreateRenderPass);
    if h.Err? {
      return Fail(h.error);
    }
    data.renderPass := h.value;
    r := Pass;
  }

  /**
   * `create_pipeline`: of all the objects it describes it creates only the pipeline layout;
   * `data.pipeline` is never assigned and keeps its null handle.
   */
  method CreatePipeline(driver: Driver, data: AppData) returns (r: Outcome<Error>)
    requires driver.Valid()
    modifies driver, data`pipelineLayout
    ensures driver.Valid()
    ensures data.pipeline == old(data.pipeline)
    ensures CreatePipelineLayout in driver.faults ==>
              r == Fail(CallFailed(CreatePipelineLayout)) && unchanged(driver) && unchanged(data)
    ensures CreatePipelineLayout !in driver.faults ==>
              && r == Pass && data.pipelineLayout == old(driver.next)
              && driver.next == old(driver.next) + 1
              && driver.log == old(driver.log) + [Created(PipelineLayout, data.pipelineLayout)]
              && driver.recorded == old(driver.recorded) && driver.poolFamily == old(driver.poolFamily)
  {
    var h := CreateOne(driver, PipelineLayout, CreatePipelineLayout);
    if h.Err? {
      return Fail(h.error);
    }
    data.pipelineLayout := h.value;
    r := Pass;
  }

  /** `create_frame_buffers`: one framebuffer per image view, index-aligned. */
  method CreateFramebuffers(driver: Driver, data: AppData) returns (r: Outcome<Error>)
    requires driver.Valid()
    modifies driver, data`framebuffers
    ensures driver.Valid()
    ensures Call.CreateFramebuffers in driver.faults ==>
              r == Fail(CallFailed(Call.CreateFramebuffers)) && unchanged(driver) && unchanged(data)
    ensures Call.CreateFramebuffers !in driver.faults ==>
              && r == Pass
              && data.framebuffers == Range(old(driver.next), |data.swapchainImageViews|)
              && driver.next == old(driver.next) + |data.swapchainImageViews|
              && driver.log == old(driver.log) + CreatedEach(Framebuffer, data.framebuffers)
              && driver.recorded == old(driver.recorded) && driver.poolFamily == old(driver.poolFamily)
  {
    var ok, fbs := driver.CreateEach(Framebuffer, Call.CreateFramebuffers, |data.swapchainImageViews|);
    if !ok {
      return Fail(CallFailed(Call.CreateFramebuffers));
    }
    data.framebuffers := fbs;
    r := Pass;
  }
}
