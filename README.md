# Vulkan application bootstrap: device selection, setup order, command recording, teardown

This project models the core of a small Rust/Vulkan renderer that follows the Vulkan tutorial:

- **`App::create`** runs a fixed chain of twelve fallible setup steps and stops at the first that
  fails. The steps are entry points, instance (and debug messenger), surface, physical device,
  logical device, swapchain, image views, render pass, pipeline layout, framebuffers, command
  pool and command buffers.
- **`App::destroy`** releases what setup created, in a fixed order.
- **`App::render`** does nothing.
- **`pick_physical_device`** selects the first enumerated device that passes the three-part
  suitability check (queue families, device extensions, swapchain support).
- **`create_command_pool` / `create_command_buffers`** create a pool for the graphics queue
  family, allocate one primary buffer per framebuffer and record the same render-pass script
  into each buffer against its own framebuffer.

The Vulkan implementation is abstracted as the class `Vk.Driver`:

- Handles are natural numbers drawn from a counter; 0 is `VK_NULL_HANDLE`.
- Every create or destroy call appends an event to a lifetime log.
- Commands recorded into a command buffer are kept per buffer, and the queue family of each
  command pool is remembered.
- Whether a fallible call fails is decided by a fixed set of faulty calls given with the driver.
  The begin and end calls of a command buffer are keyed by the buffer's handle.

`AppData` is the class `Data.AppData` with the fields of `src/app/appdata.rs`. `App` is the class
`Lifecycle.App`.

The modules are:

- `Wrappers`: `Option`, `Outcome` and `Result`.
- `Vk`: handles, kinds, calls, events, commands and the driver.
- `Data`: `AppData`.
- `Setup`: the setup steps whose bodies are in files outside this model, described by what they
  do at their boundary.
- `Selection`: `src/app/device.rs`.
- `Commands`: `src/app/command.rs`.
- `Ownership`: what setup creates, what teardown releases, and the dependency order between
  object kinds.
- `Lifecycle`: `src/app.rs`.

What `App::create` guarantees is stated against its environment, the driver's fault set and
enumerated devices:

- **On success**, `CreatedFrom` holds:
  - the environment lets setup succeed (`SetupSucceeds`);
  - the log grew by exactly the creation events of the handles the application holds;
  - the selected device is the first suitable one;
  - the pool serves that device's graphics family;
  - buffer *i* holds the script for framebuffer *i*.
- **On failure**, `FailedIn` holds:
  - the error is the first obstacle in the order the steps run (`FirstObstacle`). An obstacle is a
    faulty call, or a missing suitable device or queue family. `ObstacleDecidesSetup` proves that
    there is an obstacle exactly when `SetupSucceeds` does not hold.
  - the log grew by everything the steps before the failing one create, then part of what the
    failing step creates, and nothing from any later step. This is compared kind by kind:
    `StoppedIn` looks at the kinds of the logged objects, not at their handles.

## Model

| member | source | states |
|---|---|---|
| Selection.All | src/app/device.rs:57 | true exactly when every required extension name is in the collected set |
| Selection.CheckPhysicalDeviceExtensions | src/app/device.rs:47-64 | passes iff the extension query succeeded and every required extension is offered; a failed query gives its own error, otherwise the failure is a missing extension |
| Selection.CheckPhysicalDevice | src/app/device.rs:31-45 | passes iff the device is suitable (queue families found, all required extensions, at least one format and one present mode); queue families are checked first, then extensions (whose error is passed on unchanged), then the swapchain-support query, then empty formats or present modes |
| Selection.FirstSuitable | src/app/device.rs:14-28 | the index it returns is a suitable device and every earlier device is unsuitable; it returns nothing iff no device is suitable |
| Selection.Diagnoses | src/app/device.rs:17-23 | one log line per examined device, in enumeration order, naming the device and either the check's error or its selection |
| Selection.PickPhysicalDevice | src/app/device.rs:13-29 | a failed enumeration fails and assigns nothing; otherwise the first suitable device's handle is assigned and the devices up to it are the only ones examined and logged; with none suitable it fails with no suitable device and leaves `physicalDevice` unchanged |
| Selection.ExtensionCheckIsSetBased | src/app/device.rs:51-57 | the extension check depends only on which names a device offers, not on their order or repetitions |
| Selection.NoRequiredExtensionsPass | src/app/device.rs:57-58 | with no required extensions the check passes whenever the query succeeds |
| Selection.FirstSuitableIgnoresLaterDevices | src/app/device.rs:22-25 | once a device is selected, appending more devices does not change the selection |
| Commands.CreateCommandPool | src/app/command.rs:5-19 | a device without queue families fails before any pool is created; a faulty create call fails with nothing changed; otherwise a pool with the counter's next handle, bound to the graphics family, is stored in `commandPool` and logged |
| Commands.RecordRenderPass | src/app/command.rs:38-62 | appends to the buffer exactly: begin render pass on framebuffer *i* over (0,0) and the swapchain extent with one clear value, bind the graphics pipeline, draw (3, 1, 0, 0), end render pass; no other buffer changes |
| Commands.RecordCommandBuffer | src/app/command.rs:30-63 | a failing begin records nothing; a failing end leaves the first five commands; otherwise the buffer gains the full six-command script for framebuffer *i*; no other buffer changes |
| Commands.RecordCommandBuffers | src/app/command.rs:29-66 | succeeds iff no buffer's begin or end fails; buffers before the first failing one hold the script for their own framebuffer, the failing one holds nothing or the script without its end, later buffers stay empty, and buffers outside the vector are untouched |
| Commands.CreateCommandBuffers | src/app/command.rs:21-67 | a failed allocation changes nothing; otherwise exactly one buffer per framebuffer, with consecutive handles from the counter, is allocated from the pool and logged, then recorded as above |
| Commands.FirstFaulty | src/app/command.rs:29-63 | the position of the first buffer whose begin or end fails: every earlier buffer is sound, and it is the vector's length when none fails |
| Commands.ScriptLeavesBufferExecutable | src/app/command.rs:36-63 | with a non-null pipeline, the recorded script is a complete, well-nested recording that leaves a buffer executable |
| Commands.ScriptWithoutEndIsNotExecutable | src/app/command.rs:55-63 | a buffer whose end call failed cannot be submitted: it is still recording, or invalid when it bound the null pipeline |
| Commands.NullPipelineInvalidatesScript | src/app/command.rs:56-60 | binding the null pipeline makes the script leave the buffer invalid |
| Vk.Driver.Create | src/app.rs:44-52 | a create call either fails and changes nothing, or returns the counter's next value, which is non-null, advances the counter and logs the creation |
| Vk.Driver.CreateEach | src/app.rs:49 | a call that creates one handle per element either fails and changes nothing, or returns that many consecutive handles starting at the counter's next value, and logs each one |
| Vk.Driver.Destroy | src/app.rs:68-94 | a destroy call never fails and logs exactly one destroy event |
| Vk.Driver.CreateCommandPool | src/app/command.rs:16 | the pool call either fails and changes nothing, or returns the counter's next value as a pool bound to the given queue family |
| Vk.Driver.AllocateCommandBuffers | src/app/command.rs:27 | the allocation either fails and changes nothing, or returns *n* consecutive handles from the counter with nothing recorded in them |
| Vk.Driver.Record | src/app/command.rs:55-62 | appends one command to one buffer and to no other |
| Vk.Driver.BeginCommandBuffer | src/app/command.rs:36 | begin either fails and records nothing, or records `Begin` into that buffer only |
| Vk.Driver.EndCommandBuffer | src/app/command.rs:63 | end either fails and records nothing, or records `End` into that buffer only |
| Data.AppData.constructor | src/app/appdata.rs:3-31 | `AppData::default()`: every handle null and every vector empty |
| Setup.LoadEntry | src/app.rs:41-42 | the loader failure takes precedence over the entry failure; it passes iff neither fails |
| Setup.CreateInstance | src/app.rs:44 | creates the instance and, with validation, the debug messenger stored in `messenger`; a failing messenger leaves the instance created |
| Setup.CreateSurface | src/app.rs:45 | the surface is created and stored in `surface`, or nothing changes |
| Setup.CreateLogicalDevice | src/app.rs:47 | the device is created and returned, or nothing changes |
| Setup.CreateSwapchain | src/app.rs:48 | the swapchain is created and stored with the images, format and extent the implementation reports, or nothing changes |
| Setup.CreateSwapchainImageViews | src/app.rs:49 | one image view per swapchain image, with consecutive handles from the counter and index-aligned, or nothing changes |
| Setup.CreateRenderPass | src/app.rs:50 | the render pass is created and stored, or nothing changes |
| Setup.CreatePipeline | src/app/pipeline.rs:84 | only the pipeline layout is created and stored; `pipeline` is never assigned |
| Setup.CreateFramebuffers | src/app.rs:52 | one framebuffer per image view, with consecutive handles from the counter and index-aligned, or nothing changes |
| Ownership.AcquiredByCreation | src/app.rs:44-54 | a successful setup acquires exactly the objects the application owns, in creation order; the command buffers come with their pool |
| Ownership.ReleasedByTeardown | src/app.rs:67-95 | teardown releases exactly the owned objects, in teardown order; destroying the null pipeline releases nothing |
| Ownership.TeardownReleasesWhatCreationAcquired | src/app.rs:67-95 | every object setup acquired is released exactly once, and nothing else is released |
| Ownership.TeardownReversesCreationKinds | src/app.rs:67-95 | the kinds teardown releases are the kinds setup acquired, in reverse order |
| Ownership.DisownedKinds | src/app.rs:68-94 | teardown's order by kind: pool, framebuffers, layout, render pass, image views, swapchain, device, surface, messenger when validation is enabled, instance |
| Ownership.RankRespectsDependencies | src/app.rs:41-54 | the setup order of kinds is a topological order of the dependency relation between kinds |
| Ownership.OwnedKindsAscending | src/app.rs:44-54 | the owned objects come in setup order of their kinds |
| Ownership.CreationRespectsDependencies | src/app.rs:44-54 | setup never creates an object before an object it depends on |
| Ownership.TeardownRespectsDependencies | src/app.rs:67-95 | teardown never destroys an object while an object depending on it is still alive; in particular the device outlives everything created from it |
| Ownership.InstanceReleasedLast | src/app.rs:90-94 | the instance is the last object released, and every other released object depends on it |
| Lifecycle.StepAt | src/app.rs:41-54 | the step run in position *k* is the step whose position is *k* |
| Lifecycle.ErrorPositions | src/app.rs:41-54 | each error comes from one step, at that step's position in the setup order |
| Lifecycle.CreationLogInPhases | src/app.rs:44-54 | the creation log is the log of steps 1-4, then steps 5-9, then steps 10-11 |
| Lifecycle.DeviceStepKinds | src/app.rs:44-47 | each partial log of steps 1-4 stops in the step that failed; a full log has the kinds these steps create |
| Lifecycle.SwapchainStepKinds | src/app.rs:48-49 | the same for steps 5-6 |
| Lifecycle.RenderStepKinds | src/app.rs:50-52 | the same for steps 7-9 |
| Lifecycle.PresentationStepKinds | src/app.rs:48-52 | the full log of steps 5-9 has the kinds these steps create |
| Lifecycle.CommandStepKinds | src/app.rs:53-54 | the same as DeviceStepKinds for steps 10-11 |
| Lifecycle.SetupKinds | src/app.rs:41-52 | the phases' kinds join into the kinds of steps 0 to 9 |
| Lifecycle.CreationLogFollowsSteps | src/app.rs:41-54 | a successful setup logs, kind by kind, what its twelve steps create in order |
| Lifecycle.PreparedKinds | src/app.rs:44-52 | after steps 1-9 all succeed, their log has the kinds steps 0 to 9 create |
| Lifecycle.ObstacleDecidesSetup | src/app.rs:41-60 | setup can succeed if and only if the environment holds no obstacle in any step |
| Lifecycle.SetupSucceedsWhen | src/app.rs:41-60 | setup can succeed when none of its calls is faulty, a suitable device exists with queue families, and none of the buffers' begin or end calls fails |
| Lifecycle.EntryFailure | src/app.rs:41-42 | a loader or entry failure is the first obstacle; it is a failure in step 0 with nothing logged |
| Lifecycle.DeviceFailure | src/app.rs:44-47 | after the entry step passed, the first obstacle of steps 1-4 is the first obstacle of `create`, which fails in that step |
| Lifecycle.PresentationFailure | src/app.rs:48-52 | after steps 0-4 passed, the first obstacle of steps 5-9 is the first obstacle of `create`, which fails in that step |
| Lifecycle.CommandFailure | src/app.rs:53-54 | after steps 0-9 passed, the first obstacle of steps 10-11 is the first obstacle of `create`, which fails in that step |
| Lifecycle.CreatedInPhases | src/app.rs:53-60 | the handles of the three phases, all successful, are what a successful `create` leaves |
| Lifecycle.CreatedBuffersAreInvalid | src/app/command.rs:56-60 | after a successful `create`, every recorded command buffer is invalid, because it binds the pipeline handle that setup leaves null |
| Lifecycle.CreateInstanceObjects | src/app.rs:44-45 | steps 1-2 either fail with their first obstacle (instance, then the messenger when validation is enabled, then surface) and a log stopped in that step, or create the instance, the messenger and the surface with consecutive handles |
| Lifecycle.CreateDeviceObjects | src/app.rs:44-47 | steps 1-4 either fail with their first obstacle (those of steps 1-2, then enumeration, then no suitable device, then the logical device) and a log stopped in that step, or create those handles and the device, with the first suitable device selected |
| Lifecycle.CreateSwapchainObjects | src/app.rs:48-49 | steps 5-6 either fail with their first obstacle (swapchain, then image views) and a log stopped in that step, or create the swapchain and one view per image |
| Lifecycle.CreateRenderObjects | src/app.rs:50-52 | steps 7-9 either fail with their first obstacle (render pass, then pipeline layout, then framebuffers) and a log stopped in that step, or create the render pass, the layout and one framebuffer per view, leaving the pipeline null |
| Lifecycle.CreatePresentation | src/app.rs:48-52 | steps 5-9 either fail with their first obstacle (those of steps 5-6 before those of steps 7-9) and a log stopped in that step, or create their handles consecutively |
| Lifecycle.CreateBufferObjects | src/app.rs:54 | step 11 either fails with its first obstacle (the allocation, then the begin, else the end, of the first buffer whose begin or end fails), or allocates one buffer per framebuffer, each holding the script for its framebuffer |
| Lifecycle.CreateCommandObjects | src/app.rs:53-54 | steps 10-11 either fail with their first obstacle (missing queue families, then the pool, then those of step 11) and a log stopped in that step, or create the pool for the graphics family and the recorded buffers, leaving every other field of `AppData` unchanged |
| Lifecycle.App.constructor | src/app.rs:55-60 | the application holds the driver, configuration, instance, device and data it was built from |
| Lifecycle.App.Create | src/app.rs:40-61 | succeeds if and only if the environment lets setup succeed; on success, a fresh valid application as in `CreatedFrom`; on failure, the first obstacle in step order, with the log stopped in that error's step and no later step run |
| Lifecycle.App.SetUpDevice | src/app.rs:44-61 | the same success and failure guarantees for steps 1-11 on a default `AppData` |
| Lifecycle.App.SetUpPresentation | src/app.rs:48-61 | the same guarantee for steps 5-11 |
| Lifecycle.App.SetUpCommands | src/app.rs:53-61 | the same guarantee for steps 10-11 and the construction of the application |
| Lifecycle.App.Render | src/app.rs:63-65 | always succeeds and changes nothing |
| Lifecycle.App.DestroyEach | src/app.rs:71-74 | one destroy call per vector element, in vector order |
| Lifecycle.App.DestroyRendering | src/app.rs:68-84 | logs the pool, each framebuffer, the pipeline, the layout, the render pass and each image view, in that order |
| Lifecycle.App.DestroyCore | src/app.rs:85-94 | logs the swapchain, the device, the surface, the messenger when validation is enabled, and the instance last |
| Lifecycle.App.Destroy | src/app.rs:67-95 | on a valid application, the log grows by exactly the teardown of the handles it holds, and the objects released are exactly the ones it owns |

## Left out

- `src/main.rs` (window creation and the event loop) is not part of this model. It is UI plumbing.
- `src/app/sync.rs` is not part of this model. The module is not declared in `src/app.rs`, so no
  semaphore is ever created or destroyed.
- The rest of `src/app/pipeline.rs` is not modelled: shader modules, fixed-function state and the
  render-pass description. It is constant configuration with floats and a foreign bytecode check.
  Only the assignment of the pipeline layout is kept.
- `instance.rs`, `swapchain.rs`, `framebuffers.rs`, `queue.rs` and `constants.rs` are not part of
  this model. Their functions appear only at their boundary (the `Setup` module):
  - one fallible call each;
  - one handle per object created;
  - the queue-family lookup and the swapchain-support query are answers stored with each
    enumerated device.
- `VALIDATION_ENABLED` and `DEVICE_EXTENSIONS` are the fields of the parameter `Config`, not
  constants.
- The `warn!`/`info!` lines of device selection become a returned sequence of diagnostics.
  Device names and the logging back end are not modelled further.
- Vulkan errors are reduced to "this call failed"; the `VkResult` codes are not modelled.
- The frame cycle (acquire, submit, present) is not modelled, because `render` is empty.
- Floating-point clear values are kept only as constants inside the recorded commands.
- Ownership.TeardownReversesCreationKinds: the reversal is proved only kind by kind. `destroy`
  walks the framebuffer and image-view vectors forward, so within each vector the handles are
  destroyed in creation order.
- After a failure of `App::create`, the objects already created are not destroyed, because the
  source has no cleanup path. This includes the instance after a failing debug messenger. The
  model states what was logged and does not claim anything was released.
- `App::create` is split into `SetUpDevice`, `SetUpPresentation` and `SetUpCommands`, and its
  steps into phase methods. This keeps each proof small. The calls and their order are those of
  `src/app.rs:41-60`.
- The entry handle is not modelled as an object, because `destroy` never releases it.
- `create_logical_device` is imported from `src/app/device.rs` (`src/app.rs:13`), but its body
  is not in that file. `Setup.CreateLogicalDevice` models it as one fallible call that creates
  the device.
- The graphics and present queues are not modelled. `Setup.CreateLogicalDevice` never assigns
  `graphicsQueue` or `presentQueue`, so they keep their default null value.
- The `as u32` cast of the framebuffer count (`src/app/command.rs:25`) is not modelled. The
  count is an unbounded natural number.
- Physical devices are identified by their handles. If two enumerated devices shared a handle,
  `QueueFamiliesOf` would answer for the first of them.

## Findings

| source | as written | input that shows it | evidently intended | confidence | as-written member | corrected member |
|---|---|---|---|---|---|---|
| src/app/command.rs:56-60 | every command buffer binds `data.pipeline`, but `create_pipeline` (`src/app/pipeline.rs:8`) creates only the layout and never assigns it, so the handle bound is VK_NULL_HANDLE | any successful `App::create`: buffer 0 replays Begin, BeginRenderPass, BindPipeline(NULL) and ends invalid | bind a graphics pipeline created in setup, so that each recorded buffer is executable | medium, not executed | Lifecycle.CreatedBuffersAreInvalid | Commands.ScriptLeavesBufferExecutable |
