/**
 * The application object: `App::create` runs the setup steps in a fixed order and stops at
 * the first that fails; `App::destroy` releases what setup created; `App::render` does nothing.
 */
module Lifecycle {
  import opened Wrappers
  import opened Vk
  import opened Data
  import opened Setup
  import opened Selection
  import opened Commands
  import opened Ownership

  /** The setup steps of `App::create`. */
  datatype Step =
    | EntryStep
    | InstanceStep
    | SurfaceStep
    | PhysicalDeviceStep
    | LogicalDeviceStep
    | SwapchainStep
    | ImageViewsStep
    | RenderPassStep
    | PipelineStep
    | FramebuffersStep
    | CommandPoolStep
    | CommandBuffersStep

  /** The number of setup steps. */
  const StepCount: nat := 12

  /** The position of each step in the order `App::create` runs them. */
  function Position(s: Step): (p: nat)
    ensures p < StepCount
  {
    match s
    case EntryStep => 0
    case InstanceStep => 1
    case SurfaceStep => 2
    case PhysicalDeviceStep => 3
    case LogicalDeviceStep => 4
    case SwapchainStep => 5
    case ImageViewsStep => 6
    case RenderPassStep => 7
    case PipelineStep => 8
    case FramebuffersStep => 9
    case CommandPoolStep => 10
    case CommandBuffersStep => 11
  }

  /** The step `App::create` runs in position `k`. */
  function StepAt(k: nat): (s: Step)
    requires k < StepCount
    ensures Position(s) == k
  {
    [EntryStep, InstanceStep, SurfaceStep, PhysicalDeviceStep, LogicalDeviceStep, SwapchainStep,
     ImageViewsStep, RenderPassStep, PipelineStep, FramebuffersStep, CommandPoolStep, CommandBuffersStep][k]
  }

  /** The only step that can raise each error. */
  function StepOf(e: Error): Step {
    match e
    case NoSuitableDevice => PhysicalDeviceStep
    case MissingQueueFamilies => CommandPoolStep
    case CallFailed(c) =>
      match c
      case LoadLibrary => EntryStep
      case NewEntry => EntryStep
      case CreateInstance => InstanceStep
      case CreateDebugMessenger => InstanceStep
      case CreateSurface => SurfaceStep
      case EnumeratePhysicalDevices => PhysicalDeviceStep
      case CreateDevice => LogicalDeviceStep
      case CreateSwapchain => SwapchainStep
      case CreateImageViews => ImageViewsStep
      case CreateRenderPass => RenderPassStep
      case CreatePipelineLayout => PipelineStep
      case CreateFramebuffers => FramebuffersStep
      case CreateCommandPool => CommandPoolStep
      case AllocateCommandBuffers => CommandBuffersStep
      case BeginCommandBuffer(_) => CommandBuffersStep
      case EndCommandBuffer(_) => CommandBuffersStep
  }

  /** The kinds of the objects a step creates when it succeeds (`images` swapchain images). */
  function StepKinds(s: Step, validation: bool, images: nat): seq<Kind> {
    match s
    case EntryStep => []
    case InstanceStep => [Instance] + (if validation then [DebugMessenger] else [])
    case SurfaceStep => [Surface]
    case PhysicalDeviceStep => []
    case LogicalDeviceStep => [Device]
    case SwapchainStep => [Swapchain]
    case ImageViewsStep => KindRun(ImageView, images)
    case RenderPassStep => [RenderPass]
    case PipelineStep => [PipelineLayout]
    case FramebuffersStep => KindRun(Framebuffer, images)
    case CommandPoolStep => [CommandPool]
    case CommandBuffersStep => [CommandBuffer]
  }

  /** The kinds steps `lo` up to, not including, `hi` create, in order. */
  function KindsBetween(lo: nat, hi: nat, validation: bool, images: nat): seq<Kind>
    requires lo <= hi <= StepCount
    decreases hi
  {
    if hi == lo then []
    else KindsBetween(lo, hi - 1, validation, images) + StepKinds(StepAt(hi - 1), validation, images)
  }

  /**
   * `events` is what steps `lo` onwards logged in a run of `App::create` that stopped in
   * step `k`: everything the steps before `k` create, then part of what step `k` creates, and
   * nothing of any later step.
   */
  ghost predicate StoppedIn(events: seq<Event>, lo: nat, k: nat, validation: bool, images: nat)
    requires lo <= k < StepCount
  {
    KindsBetween(lo, k, validation, images) <= Kinds(events) <= KindsBetween(lo, k + 1, validation, images)
  }

  lemma {:induction false} KindsBetweenSplit(a: nat, b: nat, c: nat, validation: bool, images: nat)
    requires a <= b <= c <= StepCount
    ensures KindsBetween(a, b, validation, images) + KindsBetween(b, c, validation, images)
         == KindsBetween(a, c, validation, images)
    decreases c
  {
    if c > b {
      KindsBetweenSplit(a, b, c - 1, validation, images);
      Assoc(KindsBetween(a, b, validation, images), KindsBetween(b, c - 1, validation, images),
            StepKinds(StepAt(c - 1), validation, images));
    }
  }

  lemma StoppedLater(earlier: seq<Event>, later: seq<Event>, lo: nat, mid: nat, k: nat, validation: bool, images: nat)
    requires lo <= mid <= k < StepCount
    requires Kinds(earlier) == KindsBetween(lo, mid, validation, images)
    requires StoppedIn(later, mid, k, validation, images)
    ensures StoppedIn(earlier + later, lo, k, validation, images)
  {
    KindsAppend(earlier, later);
    KindsBetweenSplit(lo, mid, k, validation, images);
    KindsBetweenSplit(lo, mid, k + 1, validation, images);
  }

  lemma KindsOfEach(kind: Kind, hs: seq<Handle>)
    ensures Kinds(CreatedEach(kind, hs)) == KindRun(kind, |hs|)
  {
  }

  lemma Assoc<T>(a: seq<T>, b: seq<T>, c: seq<T>)
    ensures a + b + c == a + (b + c)
  {
  }

  lemma Suffix(a: seq<Event>, b: seq<Event>)
    ensures (a + b)[|a|..] == b
  {
  }

  /** What steps 1 (`create_instance`) logs when it succeeds. */
  function InstanceEvents(instance: Handle, messenger: Handle, validation: bool): seq<Event> {
    [Created(Instance, instance)] + (if validation then [Created(DebugMessenger, messenger)] else [])
  }

  /** What steps 1 to 4 log when they succeed. */
  function DeviceEvents(instance: Handle, messenger: Handle, surface: Handle, device: Handle, validation: bool): seq<Event> {
    InstanceEvents(instance, messenger, validation) + [Created(Surface, surface)] + [Created(Device, device)]
  }

  /** What steps 5 and 6 log when they succeed. */
  function SwapchainEvents(swapchain: Handle, views: seq<Handle>): seq<Event> {
    [Created(Swapchain, swapchain)] + CreatedEach(ImageView, views)
  }

  /** What steps 7 to 9 log when they succeed. */
  function RenderEvents(renderPass: Handle, layout: Handle, framebuffers: seq<Handle>): seq<Event> {
    [Created(RenderPass, renderPass)] + [Created(PipelineLayout, layout)] + CreatedEach(Framebuffer, framebuffers)
  }

  /** What steps 5 to 9 log when they succeed. */
  function PresentationEvents(swapchain: Handle, views: seq<Handle>, renderPass: Handle, layout: Handle,
                              framebuffers: seq<Handle>): seq<Event> {
    SwapchainEvents(swapchain, views) + RenderEvents(renderPass, layout, framebuffers)
  }

  /** What steps 10 and 11 log when they succeed. */
  function CommandEvents(pool: Handle, buffers: seq<Handle>): seq<Event> {
    [Created(CommandPool, pool)] + [Allocated(pool, buffers)]
  }

  /** The creation log is the three phases' logs one after the other. */
  lemma CreationLogInPhases(res: Resources, validation: bool)
    ensures CreationLog(res, validation)
         == DeviceEvents(res.instance, res.messenger, res.surface, res.device, validation)
          + PresentationEvents(res.swapchain, res.imageViews, res.renderPass, res.pipelineLayout, res.framebuffers)
          + CommandEvents(res.commandPool, res.commandBuffers)
  {
  }

  /** Where steps 1 to 4 leave the kinds they log, stopping after each possible partial log. */
  lemma DeviceStepKinds(i: Handle, m: Handle, s: Handle, d: Handle, validation: bool, images: nat)
    ensures StoppedIn([], 1, 1, validation, images)
    ensures validation ==> StoppedIn([Created(Instance, i)], 1, 1, validation, images)
    ensures StoppedIn(InstanceEvents(i, m, validation), 1, 2, validation, images)
    ensures StoppedIn(InstanceEvents(i, m, validation) + [Created(Surface, s)], 1, 3, validation, images)
    ensures StoppedIn(InstanceEvents(i, m, validation) + [Created(Surface, s)], 1, 4, validation, images)
    ensures Kinds(DeviceEvents(i, m, s, d, validation)) == KindsBetween(1, 5, validation, images)
  {
    var e := InstanceEvents(i, m, validation);
    var ks := StepKinds(InstanceStep, validation, images);
    assert Kinds(e) == ks;
    assert KindsBetween(1, 2, validation, images) == [] + ks;
    KindsAppend(e, [Created(Surface, s)]);
    KindsAppend(e + [Created(Surface, s)], [Created(Device, d)]);
  }

  /** Where steps 5 and 6 leave the kinds they log, and what they log when they succeed. */
  lemma SwapchainStepKinds(sc: Handle, views: seq<Handle>, validation: bool, images: nat)
    ensures StoppedIn([], 5, 5, validation, images)
    ensures StoppedIn([Created(Swapchain, sc)], 5, 6, validation, images)
    ensures |views| == images ==> Kinds(SwapchainEvents(sc, views)) == KindsBetween(5, 7, validation, images)
  {
    KindsOfEach(ImageView, views);
    KindsAppend([Created(Swapchain, sc)], CreatedEach(ImageView, views));
    assert KindsBetween(5, 7, validation, images) == [] + [Swapchain] + KindRun(ImageView, images);
  }

  /** Where steps 7 to 9 leave the kinds they log, and what they log when they succeed. */
  lemma RenderStepKinds(rp: Handle, pl: Handle, fbs: seq<Handle>, validation: bool, images: nat)
    ensures StoppedIn([], 7, 7, validation, images)
    ensures StoppedIn([Created(RenderPass, rp)], 7, 8, validation, images)
    ensures StoppedIn([Created(RenderPass, rp)] + [Created(PipelineLayout, pl)], 7, 9, validation, images)
    ensures |fbs| == images ==> Kinds(RenderEvents(rp, pl, fbs)) == KindsBetween(7, 10, validation, images)
  {
    var a := [Created(RenderPass, rp)] + [Created(PipelineLayout, pl)];
    assert Kinds(a) == [RenderPass, PipelineLayout];
    KindsOfEach(Framebuffer, fbs);
    KindsAppend(a, CreatedEach(Framebuffer, fbs));
    assert KindsBetween(7, 9, validation, images) == [] + [RenderPass] + [PipelineLayout];
  }

  /** What steps 5 to 9 log when they succeed has the kinds those steps create. */
  lemma PresentationStepKinds(sc: Handle, views: seq<Handle>, rp: Handle, pl: Handle, fbs: seq<Handle>,
                              validation: bool, images: nat)
    requires |views| == images && |fbs| == images
    ensures Kinds(PresentationEvents(sc, views, rp, pl, fbs)) == KindsBetween(5, 10, validation, images)
  {
    SwapchainStepKinds(sc, views, validation, images);
    RenderStepKinds(rp, pl, fbs, validation, images);
    KindsAppend(SwapchainEvents(sc, views), RenderEvents(rp, pl, fbs));
    KindsBetweenSplit(5, 7, 10, validation, images);
  }

  /** Where steps 10 and 11 leave the kinds they log. */
  lemma CommandStepKinds(p: Handle, bs: seq<Handle>, validation: bool, images: nat)
    ensures StoppedIn([], 10, 10, validation, images)
    ensures StoppedIn([Created(CommandPool, p)], 10, 11, validation, images)
    ensures StoppedIn([Created(CommandPool, p)] + [Allocated(p, bs)], 10, 11, validation, images)
    ensures Kinds(CommandEvents(p, bs)) == KindsBetween(10, 12, validation, images)
  {
    assert Kinds([Created(CommandPool, p)] + [Allocated(p, bs)]) == [CommandPool, CommandBuffer];
  }

  /** The phases' kinds joined from the start of `App::create`. */
  lemma SetupKinds(first: seq<Event>, second: seq<Event>, validation: bool, images: nat)
    ensures StoppedIn([], 0, 0, validation, images)
    ensures Kinds([]) == KindsBetween(0, 1, validation, images)
    ensures Kinds(first) == KindsBetween(1, 5, validation, images) ==>
              Kinds(first) == KindsBetween(0, 5, validation, images)
    ensures Kinds(first) == KindsBetween(1, 5, validation, images)
            && Kinds(second) == KindsBetween(5, 10, validation, images) ==>
              Kinds(first + second) == KindsBetween(0, 10, validation, images)
  {
    KindsBetweenSplit(0, 1, 5, validation, images);
    KindsBetweenSplit(0, 5, 10, validation, images);
    KindsAppend(first, second);
  }

  /** What a successful setup logs has, kind for kind, what its twelve steps create. */
  lemma CreationLogFollowsSteps(res: Resources, validation: bool, images: nat)
    requires |res.imageViews| == images && |res.framebuffers| == images
    ensures Kinds(CreationLog(res, validation)) == KindsBetween(0, StepCount, validation, images)
  {
    var first := DeviceEvents(res.instance, res.messenger, res.surface, res.device, validation);
    var second := PresentationEvents(res.swapchain, res.imageViews, res.renderPass, res.pipelineLayout, res.framebuffers);
    var third := CommandEvents(res.commandPool, res.commandBuffers);
    CreationLogInPhases(res, validation);
    DeviceStepKinds(res.instance, res.messenger, res.surface, res.device, validation, images);
    PresentationStepKinds(res.swapchain, res.imageViews, res.renderPass, res.pipelineLayout, res.framebuffers,
                          validation, images);
    CommandStepKinds(res.commandPool, res.commandBuffers, validation, images);
    SetupKinds(first, second, validation, images);
    KindsAppend(first + second, third);
    KindsBetweenSplit(0, 10, StepCount, validation, images);
  }

  /** The set of fallible calls a successful setup issues, begin and end of each buffer aside. */
  function SetupCalls(validation: bool): set<Call> {
    {LoadLibrary, NewEntry, Call.CreateInstance, Call.CreateSurface, EnumeratePhysicalDevices,
     CreateDevice, Call.CreateSwapchain, CreateImageViews, Call.CreateRenderPass, CreatePipelineLayout,
     Call.CreateFramebuffers, Call.CreateCommandPool, Call.AllocateCommandBuffers}
    + (if validation then {CreateDebugMessenger} else {})
  }

  /** The first handle of the command buffers, when setup starts with the counter at `start`. */
  function BufferBase(start: Handle, validation: bool, images: nat): Handle {
    start + 7 + (if validation then 1 else 0) + 2 * images
  }

  /** The position of the step behind each error. */
  lemma ErrorPositions(e: Error)
    ensures e == CallFailed(LoadLibrary) || e == CallFailed(NewEntry) ==> Position(StepOf(e)) == 0
    ensures e == CallFailed(Call.CreateInstance) || e == CallFailed(CreateDebugMessenger) ==> Position(StepOf(e)) == 1
    ensures e == CallFailed(Call.CreateSurface) ==> Position(StepOf(e)) == 2
    ensures e == CallFailed(EnumeratePhysicalDevices) || e == NoSuitableDevice ==> Position(StepOf(e)) == 3
    ensures e == CallFailed(CreateDevice) ==> Position(StepOf(e)) == 4
    ensures e == CallFailed(Call.CreateSwapchain) ==> Position(StepOf(e)) == 5
    ensures e == CallFailed(CreateImageViews) ==> Position(StepOf(e)) == 6
    ensures e == CallFailed(Call.CreateRenderPass) ==> Position(StepOf(e)) == 7
    ensures e == CallFailed(CreatePipelineLayout) ==> Position(StepOf(e)) == 8
    ensures e == CallFailed(Call.CreateFramebuffers) ==> Position(StepOf(e)) == 9
    ensures e == CallFailed(Call.CreateCommandPool) || e == MissingQueueFamilies ==> Position(StepOf(e)) == 10
    ensures e == CallFailed(Call.AllocateCommandBuffers) ==> Position(StepOf(e)) == 11
    ensures e.CallFailed? && (e.call.BeginCommandBuffer? || e.call.EndCommandBuffer?) ==> Position(StepOf(e)) == 11
  {
  }

  /** The calls of each setup step are among the setup calls. */
  lemma SetupCallsMembers(v: bool)
    ensures LoadLibrary in SetupCalls(v) && NewEntry in SetupCalls(v)
    ensures Call.CreateInstance in SetupCalls(v) && (v ==> CreateDebugMessenger in SetupCalls(v))
    ensures Call.CreateSurface in SetupCalls(v) && EnumeratePhysicalDevices in SetupCalls(v)
    ensures CreateDevice in SetupCalls(v) && Call.CreateSwapchain in SetupCalls(v)
    ensures CreateImageViews in SetupCalls(v) && Call.CreateRenderPass in SetupCalls(v)
    ensures CreatePipelineLayout in SetupCalls(v) && Call.CreateFramebuffers in SetupCalls(v)
    ensures Call.CreateCommandPool in SetupCalls(v) && Call.AllocateCommandBuffers in SetupCalls(v)
  {
  }

  /** The environment lets setup succeed when the handle counter starts at `start`. */
  ghost predicate SetupSucceeds(driver: Driver, config: Config, start: Handle)
    reads driver
  {
    var v := config.validationEnabled;
    var n := |driver.swapchainImages|;
    var selected := FirstSuitable(driver.physicalDevices, config.deviceExtensions);
    && (forall c :: c in SetupCalls(v) ==> c !in driver.faults)
    && selected.Some?
    && QueueFamiliesOf(driver.physicalDevices, driver.physicalDevices[selected.value].handle).Some?
    && (forall h :: BufferBase(start, v, n) <= h < BufferBase(start, v, n) + n ==> !Faulty(driver.faults, h))
  }

  /** The first obstacle of the entry step: the loader, then the entry points. */
  function EntryObstacle(faults: set<Call>): Option<Error> {
    if LoadLibrary in faults then Some(CallFailed(LoadLibrary))
    else if NewEntry in faults then Some(CallFailed(NewEntry))
    else None
  }

  /** The first obstacle of steps 1 and 2: the instance, the debug messenger when validation is on, the surface. */
  function InstanceObstacle(faults: set<Call>, validation: bool): Option<Error> {
    if Call.CreateInstance in faults then Some(CallFailed(Call.CreateInstance))
    else if validation && CreateDebugMessenger in faults then Some(CallFailed(CreateDebugMessenger))
    else if Call.CreateSurface in faults then Some(CallFailed(Call.CreateSurface))
    else None
  }

  /**
   * The first obstacle of steps 1 to 4: those of steps 1 and 2, then the enumeration, the lack
   * of a suitable device, the logical device.
   */
  function DeviceObstacle(faults: set<Call>, devices: seq<PhysicalDevice>, config: Config): (r: Option<Error>)
    ensures r.None? ==> FirstSuitable(devices, config.deviceExtensions).Some?
  {
    var instance := InstanceObstacle(faults, config.validationEnabled);
    if instance.Some? then instance
    else if EnumeratePhysicalDevices in faults then Some(CallFailed(EnumeratePhysicalDevices))
    else if FirstSuitable(devices, config.deviceExtensions).None? then Some(NoSuitableDevice)
    else if CreateDevice in faults then Some(CallFailed(CreateDevice))
    else None
  }

  /** The first obstacle of steps 5 and 6: the swapchain, then its image views. */
  function SwapchainObstacle(faults: set<Call>): Option<Error> {
    if Call.CreateSwapchain in faults then Some(CallFailed(Call.CreateSwapchain))
    else if CreateImageViews in faults then Some(CallFailed(CreateImageViews))
    else None
  }

  /** The first obstacle of steps 7 to 9: the render pass, the pipeline layout, the framebuffers. */
  function RenderObstacle(faults: set<Call>): Option<Error> {
    if Call.CreateRenderPass in faults then Some(CallFailed(Call.CreateRenderPass))
    else if CreatePipelineLayout in faults then Some(CallFailed(CreatePipelineLayout))
    else if Call.CreateFramebuffers in faults then Some(CallFailed(Call.CreateFramebuffers))
    else None
  }

  /** The first obstacle of steps 5 to 9. */
  function PresentationObstacle(faults: set<Call>): Option<Error> {
    var swapchain := SwapchainObstacle(faults);
    if swapchain.Some? then swapchain else RenderObstacle(faults)
  }

  /**
   * The first obstacle of step 11 with the buffers `buffers`: the allocation, then the begin
   * or, failing that, the end of the first buffer whose begin or end fails.
   */
  function BufferObstacle(faults: set<Call>, buffers: seq<Handle>): Option<Error> {
    var k := FirstFaulty(faults, buffers);
    if Call.AllocateCommandBuffers in faults then Some(CallFailed(Call.AllocateCommandBuffers))
    else if k == |buffers| then None
    else if BeginCommandBuffer(buffers[k]) in faults then Some(CallFailed(BeginCommandBuffer(buffers[k])))
    else Some(CallFailed(EndCommandBuffer(buffers[k])))
  }

  /**
   * The first obstacle of steps 10 and 11 with the selected device `device`: its queue
   * families, the pool, then those of step 11.
   */
  function CommandObstacle(faults: set<Call>, devices: seq<PhysicalDevice>, device: Handle,
                           buffers: seq<Handle>): Option<Error> {
    if QueueFamiliesOf(devices, device).None? then Some(MissingQueueFamilies)
    else if Call.CreateCommandPool in faults then Some(CallFailed(Call.CreateCommandPool))
    else BufferObstacle(faults, buffers)
  }

  /**
   * The error `App::create` meets in an environment with the handle counter at `start`, or
   * None: the first obstacle in the order the steps run.
   */
  function FirstObstacle(faults: set<Call>, devices: seq<PhysicalDevice>, images: nat, config: Config,
                         start: Handle): Option<Error> {
    var entry := EntryObstacle(faults);
    var device := DeviceObstacle(faults, devices, config);
    var presentation := PresentationObstacle(faults);
    if entry.Some? then entry
    else if device.Some? then device
    else if presentation.Some? then presentation
    else CommandObstacle(faults, devices, devices[FirstSuitable(devices, config.deviceExtensions).value].handle,
                         Range(BufferBase(start, config.validationEnabled, images), images))
  }

  /** The environment lets setup succeed exactly when it holds no obstacle. */
  lemma ObstacleDecidesSetup(driver: Driver, config: Config, start: Handle)
    ensures SetupSucceeds(driver, config, start) <==>
            FirstObstacle(driver.faults, driver.physicalDevices, |driver.swapchainImages|, config, start).None?
  {
    var v := config.validationEnabled;
    var n := |driver.swapchainImages|;
    var base := BufferBase(start, v, n);
    var buffers := Range(base, n);
    var k := FirstFaulty(driver.faults, buffers);
    SetupCallsMembers(v);
    if k < n {
      assert buffers[k] == base + k;
    } else {
      forall h | base <= h < base + n
        ensures !Faulty(driver.faults, h)
      {
        assert buffers[h - base] == h;
      }
    }
  }

  /** What `App::create` promises when it fails with `e`, after the log grew from `log0`. */
  ghost predicate FailedIn(driver: Driver, config: Config, e: Error, start: Handle, log0: seq<Event>)
    reads driver
  {
    && log0 <= driver.log
    && FirstObstacle(driver.faults, driver.physicalDevices, |driver.swapchainImages|, config, start) == Some(e)
    && StoppedIn(driver.log[|log0|..], 0, Position(StepOf(e)), config.validationEnabled, |driver.swapchainImages|)
  }

  /** A failure of the entry step. */
  lemma EntryFailure(driver: Driver, config: Config, e: Error, start: Handle, log0: seq<Event>)
    requires driver.log == log0
    requires EntryObstacle(driver.faults) == Some(e)
    ensures FailedIn(driver, config, e, start, log0)
  {
    SetupKinds([], [], config.validationEnabled, |driver.swapchainImages|);
    assert driver.log[|log0|..] == [];
  }

  /** A failure in steps 1 to 4, after which `first` is what they logged. */
  lemma DeviceFailure(driver: Driver, config: Config, e: Error, start: Handle, log0: seq<Event>, first: seq<Event>)
    requires driver.log == log0 + first
    requires 1 <= Position(StepOf(e)) < 5
    requires StoppedIn(first, 1, Position(StepOf(e)), config.validationEnabled, |driver.swapchainImages|)
    requires EntryObstacle(driver.faults).None?
    requires DeviceObstacle(driver.faults, driver.physicalDevices, config) == Some(e)
    ensures FailedIn(driver, config, e, start, log0)
  {
    var v := config.validationEnabled;
    var n := |driver.swapchainImages|;
    SetupKinds([], [], v, n);
    StoppedLater([], first, 0, 1, Position(StepOf(e)), v, n);
    assert [] + first == first;
    Suffix(log0, first);
  }

  /** A failure in steps 5 to 9, after steps 1 to 4 logged `first` and these steps `second`. */
  lemma PresentationFailure(driver: Driver, config: Config, e: Error, start: Handle, log0: seq<Event>,
                            first: seq<Event>, second: seq<Event>)
    requires driver.log == log0 + (first + second)
    requires Kinds(first) == KindsBetween(1, 5, config.validationEnabled, |driver.swapchainImages|)
    requires 5 <= Position(StepOf(e)) < 10
    requires StoppedIn(second, 5, Position(StepOf(e)), config.validationEnabled, |driver.swapchainImages|)
    requires PassedDeviceSteps(driver.faults, config.validationEnabled)
    requires FirstSuitable(driver.physicalDevices, config.deviceExtensions).Some?
    requires PresentationObstacle(driver.faults) == Some(e)
    ensures FailedIn(driver, config, e, start, log0)
  {
    var v := config.validationEnabled;
    var n := |driver.swapchainImages|;
    SetupKinds(first, second, v, n);
    StoppedLater(first, second, 0, 5, Position(StepOf(e)), v, n);
    Suffix(log0, first + second);
  }

  /**
   * A failure in steps 10 and 11, which start with the handle counter at `base` and the
   * selected device `device`, after steps 1 to 9 created `res` and logged `earlier`, and
   * these steps logged `third`.
   */
  lemma CommandFailure(driver: Driver, config: Config, e: Error, start: Handle, log0: seq<Event>,
                       earlier: seq<Event>, third: seq<Event>, base: Handle, device: Handle, res: Resources)
    requires driver.log == log0 + (earlier + third)
    requires Prepared(config, driver.faults, driver.physicalDevices, |driver.swapchainImages|, device, res,
                      start, earlier)
    requires 10 <= Position(StepOf(e)) < 12
    requires StoppedIn(third, 10, Position(StepOf(e)), config.validationEnabled, |driver.swapchainImages|)
    requires base + 1 == BufferBase(start, config.validationEnabled, |driver.swapchainImages|)
    requires CommandObstacle(driver.faults, driver.physicalDevices, device, Range(base + 1, |driver.swapchainImages|))
             == Some(e)
    ensures FailedIn(driver, config, e, start, log0)
  {
    PreparedKinds(config, driver.faults, driver.physicalDevices, |driver.swapchainImages|, device, res, start,
                  earlier);
    StoppedLater(earlier, third, 0, 10, Position(StepOf(e)), config.validationEnabled, |driver.swapchainImages|);
    Suffix(log0, earlier + third);
  }

  /** Setup succeeds when none of its calls is faulty and the selected device has its queue families. */
  lemma SetupSucceedsWhen(driver: Driver, config: Config, start: Handle, device: Handle, buffers: seq<Handle>)
    requires LoadLibrary !in driver.faults && NewEntry !in driver.faults
    requires Call.CreateInstance !in driver.faults
    requires config.validationEnabled ==> CreateDebugMessenger !in driver.faults
    requires Call.CreateSurface !in driver.faults && EnumeratePhysicalDevices !in driver.faults
    requires CreateDevice !in driver.faults && Call.CreateSwapchain !in driver.faults
    requires CreateImageViews !in driver.faults && Call.CreateRenderPass !in driver.faults
    requires CreatePipelineLayout !in driver.faults && Call.CreateFramebuffers !in driver.faults
    requires Call.CreateCommandPool !in driver.faults && Call.AllocateCommandBuffers !in driver.faults
    requires FirstSuitable(driver.physicalDevices, config.deviceExtensions).Some?
    requires device == driver.physicalDevices[FirstSuitable(driver.physicalDevices, config.deviceExtensions).value].handle
    requires QueueFamiliesOf(driver.physicalDevices, device).Some?
    requires buffers == Range(BufferBase(start, config.validationEnabled, |driver.swapchainImages|), |driver.swapchainImages|)
    requires FirstFaulty(driver.faults, buffers) == |driver.swapchainImages|
    ensures SetupSucceeds(driver, config, start)
  {
    var n := |driver.swapchainImages|;
    var base := BufferBase(start, config.validationEnabled, n);
    forall h | base <= h < base + n
      ensures !Faulty(driver.faults, h)
    {
      assert buffers[h - base] == h;
    }
  }

  /** None of the calls of the entry step and steps 1 to 4 is faulty. */
  predicate PassedDeviceSteps(faults: set<Call>, validation: bool) {
    && LoadLibrary !in faults && NewEntry !in faults
    && Call.CreateInstance !in faults && (validation ==> CreateDebugMessenger !in faults)
    && Call.CreateSurface !in faults && EnumeratePhysicalDevices !in faults
    && CreateDevice !in faults
  }

  /** None of the calls of steps 5 to 9 is faulty. */
  predicate PassedPresentationSteps(faults: set<Call>) {
    && Call.CreateSwapchain !in faults && CreateImageViews !in faults
    && Call.CreateRenderPass !in faults && CreatePipelineLayout !in faults
    && Call.CreateFramebuffers !in faults
  }

  /**
   * Steps 1 and 2 of `App::create`: `create_instance` and `create_surface`; the instance is
   * returned, and `events` is what the steps logged.
   */
  method CreateInstanceObjects(driver: Driver, data: AppData, validation: bool)
    returns (r: Result<Handle, Error>, ghost events: seq<Event>)
    requires driver.Valid()
    modifies driver, data`messenger, data`surface
    ensures driver.Valid()
    ensures driver.recorded == old(driver.recorded) && driver.poolFamily == old(driver.poolFamily)
    ensures driver.log == old(driver.log) + events
    ensures r.Err? ==>
      && 1 <= Position(StepOf(r.error)) < 3
      && StoppedIn(events, 1, Position(StepOf(r.error)), validation, |driver.swapchainImages|)
      && InstanceObstacle(driver.faults, validation) == Some(r.error)
    ensures r.Ok? ==>
      var start := old(driver.next);
      && Call.CreateInstance !in driver.faults && (validation ==> CreateDebugMessenger !in driver.faults)
      && Call.CreateSurface !in driver.faults
      && r.value == start
      && (if validation then data.messenger == start + 1 else data.messenger == old(data.messenger))
      && data.surface == start + 1 + (if validation then 1 else 0)
      && driver.next == data.surface + 1
      && events == InstanceEvents(r.value, data.messenger, validation) + [Created(Surface, data.surface)]
  {
    ghost var n := |driver.swapchainImages|;
    ghost var log0 := driver.log;
    ghost var start := driver.next;

    var instance := Setup.CreateInstance(driver, data, validation);
    if instance.Err? {
      events := if Call.CreateInstance in driver.faults then [] else [Created(Instance, start)];
      assert Position(StepOf(instance.error)) == 1 by {
        ErrorPositions(instance.error);
      }
      assert StoppedIn(events, 1, 1, validation, n) by { DeviceStepKinds(start, 0, 0, 0, validation, n); }
      return Err(instance.error), events;
    }
    events := InstanceEvents(instance.value, data.messenger, validation);
    Assoc(log0, [Created(Instance, instance.value)],
          if validation then [Created(DebugMessenger, data.messenger)] else []);

    var surface := Setup.CreateSurface(driver, data);
    if surface.Fail? {
      assert Position(StepOf(surface.error)) == 2 by {
        ErrorPositions(surface.error);
      }
      assert StoppedIn(events, 1, 2, validation, n) by {
        DeviceStepKinds(instance.value, data.messenger, 0, 0, validation, n);
      }
      return Err(surface.error), events;
    }
    Assoc(log0, events, [Created(Surface, data.surface)]);
    events := events + [Created(Surface, data.surface)];
    r := instance;
  }

  /**
   * Steps 1 to 4 of `App::create`: `create_instance`, `create_surface`,
   * `pick_physical_device` and `create_logical_device`; the instance and the device are
   * returned, and `events` is what the steps logged.
   */
  method CreateDeviceObjects(driver: Driver, config: Config, data: AppData)
    returns (r: Result<(Handle, Handle), Error>, ghost events: seq<Event>)
    requires driver.Valid()
    modifies driver, data`messenger, data`surface, data`physicalDevice
    ensures driver.Valid()
    ensures driver.recorded == old(driver.recorded) && driver.poolFamily == old(driver.poolFamily)
    ensures driver.log == old(driver.log) + events
    ensures r.Err? ==>
      && 1 <= Position(StepOf(r.error)) < 5
      && StoppedIn(events, 1, Position(StepOf(r.error)), config.validationEnabled, |driver.swapchainImages|)
      && DeviceObstacle(driver.faults, driver.physicalDevices, config) == Some(r.error)
    ensures r.Ok? ==>
      var v := config.validationEnabled;
      var start := old(driver.next);
      var (instance, device) := r.value;
      var selected := FirstSuitable(driver.physicalDevices, config.deviceExtensions);
      && Call.CreateInstance !in driver.faults && (v ==> CreateDebugMessenger !in driver.faults)
      && Call.CreateSurface !in driver.faults && EnumeratePhysicalDevices !in driver.faults
      && CreateDevice !in driver.faults
      && selected.Some? && data.physicalDevice == driver.physicalDevices[selected.value].handle
      && instance == start
      && (if v then data.messenger == start + 1 else data.messenger == old(data.messenger))
      && data.surface == start + 1 + (if v then 1 else 0)
      && device == data.surface + 1
      && driver.next == device + 1
      && events == DeviceEvents(instance, data.messenger, data.surface, device, v)
  {
    var v := config.validationEnabled;
    ghost var n := |driver.swapchainImages|;
    ghost var log0 := driver.log;

    var instance;
    instance, events := CreateInstanceObjects(driver, data, v);
    if instance.Err? {
      return Err(instance.error), events;
    }

    var picked, _ := PickPhysicalDevice(driver, data, config.deviceExtensions);
    if picked.Fail? {
      assert Position(StepOf(picked.error)) == 3 by {
        ErrorPositions(picked.error);
      }
      assert StoppedIn(events, 1, 3, v, n) by {
        DeviceStepKinds(instance.value, data.messenger, data.surface, 0, v, n);
      }
      return Err(picked.error), events;
    }

    var device := CreateLogicalDevice(driver);
    if device.Err? {
      assert Position(StepOf(device.error)) == 4 by {
        ErrorPositions(device.error);
      }
      assert StoppedIn(events, 1, 4, v, n) by {
        DeviceStepKinds(instance.value, data.messenger, data.surface, 0, v, n);
      }
      return Err(device.error), events;
    }
    Assoc(log0, events, [Created(Device, device.value)]);
    events := events + [Created(Device, device.value)];
    r := Ok((instance.value, device.value));
  }

  /**
   * Steps 5 and 6 of `App::create`: `create_swapchain` and `create_swapchain_image_views`;
   * `events` is what the steps logged.
   */
  method CreateSwapchainObjects(driver: Driver, data: AppData, ghost validation: bool)
    returns (r: Outcome<Error>, ghost events: seq<Event>)
    requires driver.Valid()
    modifies driver, data`swapchain, data`swapchainImages, data`swapchainFormat, data`swapchainExtent
    modifies data`swapchainImageViews
    ensures driver.Valid()
    ensures driver.recorded == old(driver.recorded) && driver.poolFamily == old(driver.poolFamily)
    ensures driver.log == old(driver.log) + events
    ensures r.Fail? ==>
      && 5 <= Position(StepOf(r.error)) < 7
      && StoppedIn(events, 5, Position(StepOf(r.error)), validation, |driver.swapchainImages|)
      && SwapchainObstacle(driver.faults) == Some(r.error)
    ensures r.Pass? ==>
      var start := old(driver.next);
      && Call.CreateSwapchain !in driver.faults && CreateImageViews !in driver.faults
      && data.swapchain == start
      && data.swapchainImages == driver.swapchainImages
      && data.swapchainFormat == driver.swapchainFormat && data.swapchainExtent == driver.swapchainExtent
      && data.swapchainImageViews == Range(start + 1, |driver.swapchainImages|)
      && driver.next == start + 1 + |driver.swapchainImages|
      && events == SwapchainEvents(data.swapchain, data.swapchainImageViews)
  {
    ghost var n := |driver.swapchainImages|;
    var swapchain := Setup.CreateSwapchain(driver, data);
    if swapchain.Fail? {
      assert Position(StepOf(swapchain.error)) == 5 by {
        ErrorPositions(swapchain.error);
      }
      assert StoppedIn([], 5, 5, validation, n) by { SwapchainStepKinds(0, [], validation, n); }
      return swapchain, [];
    }

    var views := CreateSwapchainImageViews(driver, data);
    if views.Fail? {
      assert Position(StepOf(views.error)) == 6 by {
        ErrorPositions(views.error);
      }
      assert StoppedIn([Created(Swapchain, data.swapchain)], 5, 6, validation, n) by {
        SwapchainStepKinds(data.swapchain, [], validation, n);
      }
      return views, [Created(Swapchain, data.swapchain)];
    }
    events := SwapchainEvents(data.swapchain, data.swapchainImageViews);
    r := Pass;
  }

  /**
   * Steps 7 to 9 of `App::create`: `create_render_pass`, `create_pipeline` and
   * `create_frame_buffers`; `events` is what the steps logged.
   */
  method CreateRenderObjects(driver: Driver, data: AppData, ghost validation: bool)
    returns (r: Outcome<Error>, ghost events: seq<Event>)
    requires driver.Valid()
    modifies driver, data`renderPass, data`pipelineLayout, data`framebuffers
    ensures driver.Valid()
    ensures driver.recorded == old(driver.recorded) && driver.poolFamily == old(driver.poolFamily)
    ensures data.pipeline == old(data.pipeline)
    ensures driver.log == old(driver.log) + events
    ensures r.Fail? ==>
      && 7 <= Position(StepOf(r.error)) < 10
      && StoppedIn(events, 7, Position(StepOf(r.error)), validation, |driver.swapchainImages|)
      && RenderObstacle(driver.faults) == Some(r.error)
    ensures r.Pass? ==>
      var start := old(driver.next);
      && Call.CreateRenderPass !in driver.faults && CreatePipelineLayout !in driver.faults
      && Call.CreateFramebuffers !in driver.faults
      && data.renderPass == start
      && data.pipelineLayout == start + 1
      && data.framebuffers == Range(start + 2, |data.swapchainImageViews|)
      && driver.next == start + 2 + |data.swapchainImageViews|
      && events == RenderEvents(data.renderPass, data.pipelineLayout, data.framebuffers)
  {
    ghost var n := |driver.swapchainImages|;
    var renderPass := Setup.CreateRenderPass(driver, data);
    if renderPass.Fail? {
      assert Position(StepOf(renderPass.error)) == 7 by {
        ErrorPositions(renderPass.error);
      }
      assert StoppedIn([], 7, 7, validation, n) by { RenderStepKinds(0, 0, [], validation, n); }
      return renderPass, [];
    }

    var pipeline := CreatePipeline(driver, data);
    if pipeline.Fail? {
      events := [Created(RenderPass, data.renderPass)];
      assert Position(StepOf(pipeline.error)) == 8 by {
        ErrorPositions(pipeline.error);
      }
      assert StoppedIn(events, 7, 8, validation, n) by { RenderStepKinds(data.renderPass, 0, [], validation, n); }
      return pipeline, events;
    }

    var framebuffers := Setup.CreateFramebuffers(driver, data);
    if framebuffers.Fail? {
      events := [Created(RenderPass, data.renderPass)] + [Created(PipelineLayout, data.pipelineLayout)];
      assert Position(StepOf(framebuffers.error)) == 9 by {
        ErrorPositions(framebuffers.error);
      }
      assert StoppedIn(events, 7, 9, validation, n) by {
        RenderStepKinds(data.renderPass, data.pipelineLayout, [], validation, n);
      }
      return framebuffers, events;
    }
    events := RenderEvents(data.renderPass, data.pipelineLayout, data.framebuffers);
    r := Pass;
  }

  /**
   * Steps 5 to 9 of `App::create`: `create_swapchain`, `create_swapchain_image_views`,
   * `create_render_pass`, `create_pipeline` and `create_frame_buffers`; `events` is what
   * the steps logged.
   */
  method CreatePresentation(driver: Driver, data: AppData, ghost validation: bool)
    returns (r: Outcome<Error>, ghost events: seq<Event>)
    requires driver.Valid()
    modifies driver, data`swapchain, data`swapchainImages, data`swapchainFormat, data`swapchainExtent
    modifies data`swapchainImageViews, data`renderPass, data`pipelineLayout, data`framebuffers
    ensures driver.Valid()
    ensures driver.recorded == old(driver.recorded) && driver.poolFamily == old(driver.poolFamily)
    ensures data.messenger == old(data.messenger) && data.surface == old(data.surface)
    ensures data.physicalDevice == old(data.physicalDevice) && data.pipeline == old(data.pipeline)
    ensures driver.log == old(driver.log) + events
    ensures r.Fail? ==>
      && 5 <= Position(StepOf(r.error)) < 10
      && StoppedIn(events, 5, Position(StepOf(r.error)), validation, |driver.swapchainImages|)
      && PresentationObstacle(driver.faults) == Some(r.error)
    ensures r.Pass? ==>
      var start := old(driver.next);
      var n := |driver.swapchainImages|;
      && Call.CreateSwapchain !in driver.faults && CreateImageViews !in driver.faults
      && Call.CreateRenderPass !in driver.faults && CreatePipelineLayout !in driver.faults
      && Call.CreateFramebuffers !in driver.faults
      && data.swapchain == start
      && data.swapchainImages == driver.swapchainImages
      && data.swapchainFormat == driver.swapchainFormat && data.swapchainExtent == driver.swapchainExtent
      && data.swapchainImageViews == Range(start + 1, n)
      && data.renderPass == start + 1 + n
      && data.pipelineLayout == start + 2 + n
      && data.framebuffers == Range(start + 3 + n, n)
      && driver.next == start + 3 + 2 * n
      && events == PresentationEvents(data.swapchain, data.swapchainImageViews, data.renderPass,
                                      data.pipelineLayout, data.framebuffers)
  {
    ghost var log0 := driver.log;
    var swapchain, first := CreateSwapchainObjects(driver, data, validation);
    if swapchain.Fail? {
      return swapchain, first;
    }

    var render, second := CreateRenderObjects(driver, data, validation);
    Assoc(log0, first, second);
    events := first + second;
    if render.Fail? {
      SwapchainStepKinds(data.swapchain, data.swapchainImageViews, validation, |driver.swapchainImages|);
      StoppedLater(first, second, 5, 7, Position(StepOf(render.error)), validation, |driver.swapchainImages|);
    }
    r := render;
  }

  lemma PoolStep(e: Error)
    requires e == MissingQueueFamilies || e == CallFailed(Call.CreateCommandPool)
    ensures Position(StepOf(e)) == 10
  {
  }

  lemma BufferStep(e: Error)
    requires e == CallFailed(Call.AllocateCommandBuffers) || (e.CallFailed? && (e.call.BeginCommandBuffer? || e.call.EndCommandBuffer?))
    ensures Position(StepOf(e)) == 11
  {
  }

  /**
   * Step 11 of `App::create`: `create_command_buffers` on the pool created with the handle
   * `pool`; `events` is what the step logged.
   */
  method CreateBufferObjects(driver: Driver, data: AppData, ghost pool: Handle)
    returns (r: Outcome<Error>, ghost events: seq<Event>)
    requires driver.Valid()
    requires driver.next == pool + 1
    requires |data.framebuffers| == |driver.swapchainImages|
    modifies driver, data`commandBuffers
    ensures driver.Valid()
    ensures driver.log == old(driver.log) + events
    ensures r.Fail? ==>
      && Position(StepOf(r.error)) == 11
      && (events == [] || events == [Allocated(data.commandPool, data.commandBuffers)])
      && BufferObstacle(driver.faults, Range(pool + 1, |driver.swapchainImages|)) == Some(r.error)
    ensures r.Pass? ==>
      var n := |driver.swapchainImages|;
      && Call.AllocateCommandBuffers !in driver.faults
      && data.commandBuffers == Range(pool + 1, n)
      && driver.next == pool + 1 + n
      && driver.poolFamily == old(driver.poolFamily)
      && FirstFaulty(driver.faults, data.commandBuffers) == n
      && (forall j :: 0 <= j < n ==> Recorded(driver.recorded, data.commandBuffers[j]) == ScriptFor(data, j))
      && events == [Allocated(data.commandPool, data.commandBuffers)]
  {
    r := Commands.CreateCommandBuffers(driver, data);
    if Call.AllocateCommandBuffers in driver.faults {
      return r, [];
    }
    events := [Allocated(data.commandPool, data.commandBuffers)];
    if r.Fail? {
      var k := FirstFaulty(driver.faults, data.commandBuffers);
      assert data.commandBuffers[k] == pool + 1 + k;
      BufferStep(r.error);
    }
  }

  /**
   * Steps 10 and 11 of `App::create`: `create_command_pool` and `create_command_buffers`;
   * `events` is what the steps logged.
   */
  method CreateCommandObjects(driver: Driver, data: AppData, ghost validation: bool, ghost base: Handle,
                              ghost device: Handle)
    returns (r: Outcome<Error>, ghost events: seq<Event>)
    requires driver.Valid()
    requires driver.next == base && data.physicalDevice == device
    requires |data.framebuffers| == |driver.swapchainImages|
    modifies driver, data`commandPool, data`commandBuffers
    ensures driver.Valid()
    ensures data.messenger == old(data.messenger) && data.surface == old(data.surface)
    ensures data.physicalDevice == old(data.physicalDevice) && data.pipeline == old(data.pipeline)
    ensures data.swapchain == old(data.swapchain) && data.swapchainImages == old(data.swapchainImages)
    ensures data.swapchainImageViews == old(data.swapchainImageViews) && data.renderPass == old(data.renderPass)
    ensures data.pipelineLayout == old(data.pipelineLayout) && data.framebuffers == old(data.framebuffers)
    ensures driver.log == old(driver.log) + events
    ensures r.Fail? ==>
      var n := |driver.swapchainImages|;
      && 10 <= Position(StepOf(r.error)) < 12
      && StoppedIn(events, 10, Position(StepOf(r.error)), validation, n)
      && CommandObstacle(driver.faults, driver.physicalDevices, device, Range(base + 1, n)) == Some(r.error)
    ensures r.Pass? ==>
      var start := old(driver.next);
      var n := |driver.swapchainImages|;
      var families := QueueFamiliesOf(driver.physicalDevices, data.physicalDevice);
      && Call.CreateCommandPool !in driver.faults && Call.AllocateCommandBuffers !in driver.faults
      && families.Some?
      && data.commandPool == start
      && data.commandBuffers == Range(start + 1, n)
      && driver.next == start + 1 + n
      && driver.poolFamily == old(driver.poolFamily)[data.commandPool := families.value.graphics]
      && FirstFaulty(driver.faults, data.commandBuffers) == n
      && (forall j :: 0 <= j < n ==> Recorded(driver.recorded, data.commandBuffers[j]) == ScriptFor(data, j))
      && events == CommandEvents(data.commandPool, data.commandBuffers)
  {
    ghost var log0 := driver.log;
    var pool := Commands.CreateCommandPool(driver, data);
    if pool.Fail? {
      CommandStepKinds(data.commandPool, [], validation, |driver.swapchainImages|);
      PoolStep(pool.error);
      return Fail(pool.error), [];
    }

    var buffers, later := CreateBufferObjects(driver, data, data.commandPool);
    Assoc(log0, [Created(CommandPool, data.commandPool)], later);
    events := [Created(CommandPool, data.commandPool)] + later;
    if buffers.Fail? {
      CommandStepKinds(data.commandPool, data.commandBuffers, validation, |driver.swapchainImages|);
      assert [Created(CommandPool, data.commandPool)] + [] == [Created(CommandPool, data.commandPool)];
    }
    r := buffers;
  }

  /** The handles an application with `instance`, `device` and `data` owns. */
  function ResourcesOf(instance: Handle, device: Handle, data: AppData): Resources
    reads data
  {
    Resources(instance, data.messenger, data.surface, device, data.swapchain, data.swapchainImageViews,
              data.renderPass, data.pipelineLayout, data.pipeline, data.framebuffers, data.commandPool,
              data.commandBuffers)
  }

  /**
   * The state a successful `create` leaves: every created handle is real, the pipeline is
   * null, and the per-image vectors are index-aligned.
   */
  ghost predicate WellFormed(config: Config, instance: Handle, device: Handle, data: AppData)
    reads data
  {
    && AsCreated(ResourcesOf(instance, device, data), config.validationEnabled)
    && |data.swapchainImageViews| == |data.swapchainImages|
    && |data.framebuffers| == |data.swapchainImageViews|
    && |data.commandBuffers| == |data.framebuffers|
  }

  /**
   * What a successful `App::create` leaves, with the handle counter at `start` and the log at
   * `log0` before it: setup could succeed, the application is valid and holds the swapchain
   * images, the log gained exactly the creation events of its handles, the selected device is
   * the first suitable one and has queue families, the pool serves the graphics family, and
   * every command buffer holds the script for its framebuffer.
   */
  ghost predicate CreatedFrom(driver: Driver, config: Config, instance: Handle, device: Handle, data: AppData,
                              start: Handle, log0: seq<Event>)
    reads driver, data
  {
    var devices := driver.physicalDevices;
    var selected := FirstSuitable(devices, config.deviceExtensions);
    var families := QueueFamiliesOf(devices, data.physicalDevice);
    && SetupSucceeds(driver, config, start)
    && WellFormed(config, instance, device, data)
    && data.swapchainImages == driver.swapchainImages
    && driver.log == log0 + CreationLog(ResourcesOf(instance, device, data), config.validationEnabled)
    && selected.Some? && data.physicalDevice == devices[selected.value].handle
    && families.Some?
    && data.commandPool in driver.poolFamily
    && driver.poolFamily[data.commandPool] == families.value.graphics
    && (forall j :: 0 <= j < |data.commandBuffers| ==>
          Recorded(driver.recorded, data.commandBuffers[j]) == ScriptFor(data, j))
  }

  /**
   * The handles of steps 1 to 9 in `res` are numbered from `start` in the order the steps
   * create them (`images` swapchain images), and the pipeline handle is null.
   */
  ghost predicate PresentationLayout(res: Resources, start: Handle, validation: bool, images: nat) {
    && res.instance == start
    && (validation ==> res.messenger == start + 1)
    && res.surface == start + 1 + (if validation then 1 else 0)
    && res.device == res.surface + 1
    && res.swapchain == res.device + 1
    && res.imageViews == Range(res.swapchain + 1, images)
    && res.renderPass == res.swapchain + 1 + images
    && res.pipelineLayout == res.swapchain + 2 + images
    && res.pipeline == NULL
    && res.framebuffers == Range(res.swapchain + 3 + images, images)
  }

  /**
   * What steps 1 to 9 of `App::create` leave when all of them succeed, stated on values: the
   * driver's `faults`, `devices` and number of swapchain `images`, the selected device
   * `physical`, the handles `res` and the events `earlier` the steps logged.
   */
  ghost predicate Prepared(config: Config, faults: set<Call>, devices: seq<PhysicalDevice>, images: nat,
                           physical: Handle, res: Resources, start: Handle, earlier: seq<Event>) {
    && start != NULL
    && PassedDeviceSteps(faults, config.validationEnabled)
    && PassedPresentationSteps(faults)
    && FirstSuitable(devices, config.deviceExtensions).Some?
    && physical == devices[FirstSuitable(devices, config.deviceExtensions).value].handle
    && PresentationLayout(res, start, config.validationEnabled, images)
    && earlier == DeviceEvents(res.instance, res.messenger, res.surface, res.device, config.validationEnabled)
                  + PresentationEvents(res.swapchain, res.imageViews, res.renderPass,
                                       res.pipelineLayout, res.framebuffers)
  }

  /** The events of steps 1 to 9 that all succeeded are of the kinds those steps create. */
  lemma PreparedKinds(config: Config, faults: set<Call>, devices: seq<PhysicalDevice>, images: nat,
                      physical: Handle, res: Resources, start: Handle, earlier: seq<Event>)
    requires Prepared(config, faults, devices, images, physical, res, start, earlier)
    ensures Kinds(earlier) == KindsBetween(0, 10, config.validationEnabled, images)
  {
    var v := config.validationEnabled;
    DeviceStepKinds(res.instance, res.messenger, res.surface, res.device, v, images);
    PresentationStepKinds(res.swapchain, res.imageViews, res.renderPass, res.pipelineLayout,
                          res.framebuffers, v, images);
    SetupKinds(DeviceEvents(res.instance, res.messenger, res.surface, res.device, v),
               PresentationEvents(res.swapchain, res.imageViews, res.renderPass,
                                  res.pipelineLayout, res.framebuffers), v, images);
  }

  /**
   * The handles `res` of steps 1 to 9 with the pool `pool` and the buffers `buffers` of steps
   * 10 and 11, after the three phases of `App::create` logged `earlier` and `third`, are what
   * a successful `App::create` leaves.
   */
  lemma CreatedInPhases(driver: Driver, config: Config, data: AppData, res: Resources, physical: Handle,
                        pool: Handle, buffers: seq<Handle>, start: Handle, log0: seq<Event>,
                        earlier: seq<Event>, third: seq<Event>)
    requires driver.log == log0 + (earlier + third)
    requires Prepared(config, driver.faults, driver.physicalDevices, |driver.swapchainImages|, physical, res,
                      start, earlier)
    requires Call.CreateCommandPool !in driver.faults && Call.AllocateCommandBuffers !in driver.faults
    requires data.physicalDevice == physical
    requires QueueFamiliesOf(driver.physicalDevices, physical).Some?
    requires data.swapchainImages == driver.swapchainImages
    requires ResourcesOf(res.instance, res.device, data) == res.(commandPool := pool, commandBuffers := buffers)
    requires pool == res.swapchain + 3 + 2 * |driver.swapchainImages|
    requires buffers == Range(pool + 1, |driver.swapchainImages|)
    requires pool in driver.poolFamily
    requires driver.poolFamily[pool] == QueueFamiliesOf(driver.physicalDevices, physical).value.graphics
    requires FirstFaulty(driver.faults, buffers) == |driver.swapchainImages|
    requires forall j :: 0 <= j < |driver.swapchainImages| ==>
               Recorded(driver.recorded, buffers[j]) == ScriptFor(data, j)
    requires third == CommandEvents(pool, buffers)
    ensures CreatedFrom(driver, config, res.instance, res.device, data, start, log0)
  {
    SetupSucceedsWhen(driver, config, start, physical, buffers);
    CreationLogInPhases(res.(commandPool := pool, commandBuffers := buffers), config.validationEnabled);
    Assoc(log0, earlier, third);
  }

  /**
   * The command buffers a successful `App::create` records bind `data.pipeline`, which setup
   * leaves null, so every one of them ends up invalid rather than executable.
   */
  lemma CreatedBuffersAreInvalid(driver: Driver, config: Config, instance: Handle, device: Handle,
                                 data: AppData, start: Handle, log0: seq<Event>, j: nat)
    requires CreatedFrom(driver, config, instance, device, data, start, log0)
    requires j < |data.commandBuffers|
    ensures Replay(Initial, Recorded(driver.recorded, data.commandBuffers[j])) == Invalid
  {
    NullPipelineInvalidatesScript(data.renderPass, data.framebuffers[j], data.swapchainExtent);
  }

  class App {
    const driver: Driver
    const config: Config
    const instance: Handle
    const device: Handle
    const data: AppData

    constructor (driver: Driver, config: Config, instance: Handle, device: Handle, data: AppData)
      ensures this.driver == driver && this.config == config
      ensures this.instance == instance && this.device == device && this.data == data
    {
      this.driver := driver;
      this.config := config;
      this.instance := instance;
      this.device := device;
      this.data := data;
    }

    /** The handles the application owns. */
    function Snapshot(): Resources
      reads this, data
    {
      ResourcesOf(instance, device, data)
    }

    /** The application is in the state a successful `create` leaves. */
    ghost predicate Valid()
      reads this, data
    {
      WellFormed(config, instance, device, data)
    }

    /**
     * `App::create`: loads the entry points, then runs the setup steps in their fixed order;
     * the first failing step's error is returned and no later step runs.
     */
    static method Create(driver: Driver, config: Config) returns (r: Result<App, Error>)
      requires driver.Valid()
      modifies driver
      ensures driver.Valid()
      ensures old(driver.log) <= driver.log
      ensures r.Ok? <==> SetupSucceeds(driver, config, old(driver.next))
      ensures r.Ok? ==>
        && fresh(r.value) && fresh(r.value.data)
        && r.value.driver == driver && r.value.config == config
        && r.value.Valid()
        && CreatedFrom(driver, config, r.value.instance, r.value.device, r.value.data,
                       old(driver.next), old(driver.log))
      ensures r.Err? ==>
        FailedIn(driver, config, r.error, old(driver.next), old(driver.log))
    {
      ghost var start := driver.next;
      ghost var log0 := driver.log;

      var entry := LoadEntry(driver);
      if entry.Fail? {
        EntryFailure(driver, config, entry.error, start, log0);
        ObstacleDecidesSetup(driver, config, start);
        return Err(entry.error);
      }
      var data := new AppData();
      r := SetUpDevice(driver, config, data, start, log0);
      if r.Err? {
        ObstacleDecidesSetup(driver, config, start);
      }
    }

    /** Steps 1 to 11 of `App::create`, after the entry points loaded, on a default `data`. */
    static method SetUpDevice(driver: Driver, config: Config, data: AppData, ghost start: Handle,
                              ghost log0: seq<Event>)
      returns (r: Result<App, Error>)
      requires driver.Valid()
      requires driver.next == start && driver.log == log0
      requires LoadLibrary !in driver.faults && NewEntry !in driver.faults
      requires data.pipeline == NULL
      modifies driver, data
      ensures driver.Valid()
      ensures log0 <= driver.log
      ensures r.Ok? ==>
        && fresh(r.value) && r.value.data == data
        && r.value.driver == driver && r.value.config == config
        && CreatedFrom(driver, config, r.value.instance, r.value.device, data, start, log0)
      ensures r.Err? ==> FailedIn(driver, config, r.error, start, log0)
    {
      var devices, first := CreateDeviceObjects(driver, config, data);
      if devices.Err? {
        DeviceFailure(driver, config, devices.error, start, log0, first);
        return Err(devices.error);
      }
      r := SetUpPresentation(driver, config, data, start, log0, devices.value.0, devices.value.1, first);
    }

    /**
     * Steps 5 to 11 of `App::create`, after steps 1 to 4 created `instance` and `device` and
     * logged `first`.
     */
    static method SetUpPresentation(driver: Driver, config: Config, data: AppData, ghost start: Handle,
                                    ghost log0: seq<Event>, instance: Handle, device: Handle,
                                    ghost first: seq<Event>)
      returns (r: Result<App, Error>)
      requires driver.Valid()
      requires start != NULL
      requires driver.log == log0 + first
      requires PassedDeviceSteps(driver.faults, config.validationEnabled)
      requires FirstSuitable(driver.physicalDevices, config.deviceExtensions).Some?
      requires data.physicalDevice ==
               driver.physicalDevices[FirstSuitable(driver.physicalDevices, config.deviceExtensions).value].handle
      requires instance == start
      requires config.validationEnabled ==> data.messenger == start + 1
      requires data.surface == start + 1 + (if config.validationEnabled then 1 else 0)
      requires device == data.surface + 1 && driver.next == device + 1
      requires first == DeviceEvents(instance, data.messenger, data.surface, device, config.validationEnabled)
      requires data.pipeline == NULL
      modifies driver, data
      ensures driver.Valid()
      ensures log0 <= driver.log
      ensures r.Ok? ==>
        && fresh(r.value) && r.value.data == data
        && r.value.driver == driver && r.value.config == config
        && CreatedFrom(driver, config, r.value.instance, r.value.device, data, start, log0)
      ensures r.Err? ==> FailedIn(driver, config, r.error, start, log0)
    {
      var v := config.validationEnabled;
      var presentation, second := CreatePresentation(driver, data, v);
      Assoc(log0, first, second);
      if presentation.Fail? {
        DeviceStepKinds(instance, data.messenger, data.surface, device, v, |driver.swapchainImages|);
        PresentationFailure(driver, config, presentation.error, start, log0, first, second);
        return Err(presentation.error);
      }
      r := SetUpCommands(driver, config, data, start, log0, instance, device, first + second);
    }

    /**
     * Steps 10 and 11 of `App::create`, after steps 1 to 9 logged `earlier`, and the
     * construction of the application from their handles.
     */
    static method SetUpCommands(driver: Driver, config: Config, data: AppData, ghost start: Handle,
                                ghost log0: seq<Event>, instance: Handle, device: Handle,
                                ghost earlier: seq<Event>)
      returns (r: Result<App, Error>)
      requires driver.Valid()
      requires driver.log == log0 + earlier
      requires Prepared(config, driver.faults, driver.physicalDevices, |driver.swapchainImages|,
                        data.physicalDevice, ResourcesOf(instance, device, data), start, earlier)
      requires data.swapchainImages == driver.swapchainImages
      requires driver.next == data.swapchain + 3 + 2 * |driver.swapchainImages|
      modifies driver, data
      ensures driver.Valid()
      ensures log0 <= driver.log
      ensures r.Ok? ==>
        && fresh(r.value) && r.value.data == data
        && r.value.driver == driver && r.value.config == config
        && CreatedFrom(driver, config, r.value.instance, r.value.device, data, start, log0)
      ensures r.Err? ==> FailedIn(driver, config, r.error, start, log0)
    {
      ghost var base := driver.next;
      ghost var physical := data.physicalDevice;
      ghost var before := ResourcesOf(instance, device, data);
      var commands, third := CreateCommandObjects(driver, data, config.validationEnabled, base, physical);
      Assoc(log0, earlier, third);
      if commands.Fail? {
        CommandFailure(driver, config, commands.error, start, log0, earlier, third, base, physical, before);
        return Err(commands.error);
      }
      CreatedInPhases(driver, config, data, before, physical, data.commandPool, data.commandBuffers, start,
                      log0, earlier, third);
      var app := new App(driver, config, instance, device, data);
      r := Ok(app);
    }

    /** `App::render`: an empty frame; it changes nothing and always succeeds. */
    method Render() returns (r: Outcome<Error>)
      ensures r == Pass
    {
      r := Pass;
    }

    /** `hs.iter().for_each(...)` over a vector of handles: one destroy call per element, in order. */
    method DestroyEach(kind: Kind, hs: seq<Handle>)
      modifies driver`log
      ensures driver.log == old(driver.log) + DestroyedEach(kind, hs)
    {
      var i := 0;
      while i < |hs|
        invariant 0 <= i <= |hs|
        invariant driver.log == old(driver.log) + DestroyedEach(kind, hs[..i])
      {
        driver.Destroy(kind, hs[i]);
        assert DestroyedEach(kind, hs[..i + 1]) == DestroyedEach(kind, hs[..i]) + [Destroyed(kind, hs[i])];
        i := i + 1;
      }
      assert hs[..i] == hs;
    }

    /** The first half of `App::destroy`: the objects used to record and present frames. */
    method DestroyRendering(res: Resources)
      modifies driver`log
      ensures driver.log == old(driver.log) + RenderingTeardown(res)
    {
      ghost var log0 := driver.log;
      driver.Destroy(CommandPool, res.commandPool);
      ghost var done := [Destroyed(CommandPool, res.commandPool)];
      DestroyEach(Framebuffer, res.framebuffers);
      Assoc(log0, done, DestroyedEach(Framebuffer, res.framebuffers));
      done := done + DestroyedEach(Framebuffer, res.framebuffers);
      driver.Destroy(Pipeline, res.pipeline);
      Assoc(log0, done, [Destroyed(Pipeline, res.pipeline)]);
      done := done + [Destroyed(Pipeline, res.pipeline)];
      driver.Destroy(PipelineLayout, res.pipelineLayout);
      Assoc(log0, done, [Destroyed(PipelineLayout, res.pipelineLayout)]);
      done := done + [Destroyed(PipelineLayout, res.pipelineLayout)];
      driver.Destroy(RenderPass, res.renderPass);
      Assoc(log0, done, [Destroyed(RenderPass, res.renderPass)]);
      done := done + [Destroyed(RenderPass, res.renderPass)];
      DestroyEach(ImageView, res.imageViews);
      Assoc(log0, done, DestroyedEach(ImageView, res.imageViews));
    }

    /**
     * The second half of `App::destroy`, after the first half logged `done`: the swapchain,
     * the device, the surface, the debug messenger when validation is enabled, and the instance.
     */
    method DestroyCore(res: Resources, ghost log0: seq<Event>, ghost done: seq<Event>)
      requires driver.log == log0 + done
      modifies driver`log
      ensures driver.log == log0 + (done
        + [Destroyed(Swapchain, res.swapchain)]
        + [Destroyed(Device, res.device)]
        + [Destroyed(Surface, res.surface)]
        + (if config.validationEnabled then [Destroyed(DebugMessenger, res.messenger)] else [])
        + [Destroyed(Instance, res.instance)])
    {
      ghost var acc := done;
      driver.Destroy(Swapchain, res.swapchain);
      Assoc(log0, acc, [Destroyed(Swapchain, res.swapchain)]);
      acc := acc + [Destroyed(Swapchain, res.swapchain)];
      driver.Destroy(Device, res.device);
      Assoc(log0, acc, [Destroyed(Device, res.device)]);
      acc := acc + [Destroyed(Device, res.device)];
      driver.Destroy(Surface, res.surface);
      Assoc(log0, acc, [Destroyed(Surface, res.surface)]);
      acc := acc + [Destroyed(Surface, res.surface)];
      if config.validationEnabled {
        driver.Destroy(DebugMessenger, res.messenger);
        Assoc(log0, acc, [Destroyed(DebugMessenger, res.messenger)]);
      }
      acc := acc + (if config.validationEnabled then [Destroyed(DebugMessenger, res.messenger)] else []);
      driver.Destroy(Instance, res.instance);
      Assoc(log0, acc, [Destroyed(Instance, res.instance)]);
    }

    /**
     * `App::destroy`: the command pool, each framebuffer in vector order, the pipeline and
     * its layout, the render pass, each image view in vector order, the swapchain, the device,
     * the surface, the debug messenger when validation is enabled, and the instance.
     */
    method Destroy()
      requires Valid()
      modifies driver`log
      ensures driver.log == old(driver.log) + Teardown(old(Snapshot()), config.validationEnabled)
      ensures Released(driver.log[|old(driver.log)|..]) == Disowned(old(Snapshot()), config.validationEnabled)
    {
      ghost var log0 := driver.log;
      var res := Snapshot();
      DestroyRendering(res);
      DestroyCore(res, log0, RenderingTeardown(res));
      assert driver.log[|log0|..] == Teardown(res, config.validationEnabled);
      ReleasedByTeardown(res, config.validationEnabled);
    }
  }
}
