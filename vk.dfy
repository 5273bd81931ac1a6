/**
 * An abstract Vulkan implementation: handles are opaque tokens drawn from a counter, every
 * create and destroy call is recorded in an event log, and whether a fallible call fails is
 * decided by a fixed set of faulty calls given with the driver.
 */
module Vk {
  import opened Wrappers

  /** A dispatchable or non-dispatchable Vulkan handle; 0 is VK_NULL_HANDLE. */
  type Handle = nat
  const NULL: Handle := 0

  type ExtensionName = string

  /** The object types whose handles the application creates or destroys. */
  datatype Kind =
    | Instance
    | DebugMessenger
    | Surface
    | Device
    | Swapchain
    | ImageView
    | RenderPass
    | PipelineLayout
    | Pipeline
    | Framebuffer
    | CommandPool
    | CommandBuffer

  /** The fallible calls the application issues (each returns a `VkResult` or a loader error). */
  datatype Call =
    | LoadLibrary
    | NewEntry
    | CreateInstance
    | CreateDebugMessenger
    | CreateSurface
    | EnumeratePhysicalDevices
    | CreateDevice
    | CreateSwapchain
    | CreateImageViews
    | CreateRenderPass
    | CreatePipelineLayout
    | CreateFramebuffers
    | CreateCommandPool
    | AllocateCommandBuffers
    | BeginCommandBuffer(buffer: Handle)
    | EndCommandBuffer(buffer: Handle)

  /** The application's error values (the `anyhow` errors that `?` propagates). */
  datatype Error =
    | CallFailed(call: Call)
    | NoSuitableDevice
    | MissingQueueFamilies

  /** What the driver records about object lifetimes. */
  datatype Event =
    | Created(kind: Kind, handle: Handle)
    | Destroyed(kind: Kind, handle: Handle)
    | Allocated(pool: Handle, buffers: seq<Handle>)

  datatype Object = Object(kind: Kind, handle: Handle)

  datatype Extent2D = Extent2D(width: nat, height: nat)
  datatype Offset2D = Offset2D(x: int, y: int)
  datatype Rect2D = Rect2D(offset: Offset2D, extent: Extent2D)

  type Format = nat
  type PresentMode = nat

  datatype ClearValue = ClearColor(r: real, g: real, b: real, a: real)
  datatype PipelineBindPoint = Graphics | Compute
  datatype SubpassContents = Inline | SecondaryCommandBuffers

  /** The commands recorded into a command buffer, begin and end included. */
  datatype Command =
    | Begin
    | BeginRenderPass(renderPass: Handle, framebuffer: Handle, renderArea: Rect2D,
                      clearValues: seq<ClearValue>, contents: SubpassContents)
    | BindPipeline(bindPoint: PipelineBindPoint, pipeline: Handle)
    | Draw(vertexCount: nat, instanceCount: nat, firstVertex: nat, firstInstance: nat)
    | EndRenderPass
    | End

  /** The graphics and present queue-family indices found for a device and surface. */
  datatype QueueFamilyIndices = QueueFamilyIndices(graphics: nat, present: nat)

  /** The surface formats and present modes a device supports for the surface. */
  datatype SwapchainSupport = SwapchainSupport(formats: seq<Format>, presentModes: seq<PresentMode>)

  /**
   * One enumerated physical device, with the answers of the queries made about it:
   * the queue-family search (None when it finds no suitable families), the extension
   * enumeration and the swapchain-support query (None when the query itself fails).
   */
  datatype PhysicalDevice = PhysicalDevice(
    handle: Handle,
    name: string,
    queueFamilies: Option<QueueFamilyIndices>,
    extensions: Option<seq<ExtensionName>>,
    swapchainSupport: Option<SwapchainSupport>)

  function KindOf(e: Event): Kind {
    match e
    case Created(k, _) => k
    case Destroyed(k, _) => k
    case Allocated(_, _) => CommandBuffer
  }

  /** The kinds of a run of events, in order. */
  function Kinds(es: seq<Event>): (ks: seq<Kind>)
    ensures |ks| == |es|
  {
    seq(|es|, i requires 0 <= i < |es| => KindOf(es[i]))
  }

  /** `Kinds` event by event; kept out of its contract so that it is unfolded only on demand. */
  lemma KindsAt(es: seq<Event>)
    ensures forall i :: 0 <= i < |es| ==> Kinds(es)[i] == KindOf(es[i])
  {
  }

  lemma KindsAppend(a: seq<Event>, b: seq<Event>)
    ensures Kinds(a + b) == Kinds(a) + Kinds(b)
  {
    KindsAt(a + b);
    KindsAt(a);
    KindsAt(b);
    assert forall i :: 0 <= i < |a + b| ==> Kinds(a + b)[i] == (Kinds(a) + Kinds(b))[i];
  }

  /** `n` consecutive fresh handles starting at `start`. */
  function Range(start: Handle, n: nat): (hs: seq<Handle>)
    ensures |hs| == n
    ensures forall i :: 0 <= i < n ==> hs[i] == start + i
    decreases n
  {
    if n == 0 then [] else [start] + Range(start + 1, n - 1)
  }

  function CreatedEach(kind: Kind, hs: seq<Handle>): (es: seq<Event>)
    ensures |es| == |hs|
    ensures forall i :: 0 <= i < |hs| ==> es[i] == Created(kind, hs[i])
  {
    seq(|hs|, i requires 0 <= i < |hs| => Created(kind, hs[i]))
  }

  function DestroyedEach(kind: Kind, hs: seq<Handle>): (es: seq<Event>)
    ensures |es| == |hs|
    ensures forall i :: 0 <= i < |hs| ==> es[i] == Destroyed(kind, hs[i])
  {
    seq(|hs|, i requires 0 <= i < |hs| => Destroyed(kind, hs[i]))
  }

  /**
   * The driver behind the `Instance` and `Device` dispatch tables. Its constant part is the
   * environment (which calls fail, the enumerated physical devices, what the swapchain
   * reports); its mutable part is the handle counter, the lifetime log, the commands recorded
   * into each command buffer and the queue family each command pool was created for.
   */
  class Driver {
    const faults: set<Call>
    const physicalDevices: seq<PhysicalDevice>
    const swapchainImages: seq<Handle>
    const swapchainFormat: Format
    const swapchainExtent: Extent2D

    var next: Handle
    var log: seq<Event>
    var recorded: map<Handle, seq<Command>>
    var poolFamily: map<Handle, nat>

    ghost predicate Valid()
      reads this
    {
      next != NULL
    }

    constructor (faults: set<Call>, physicalDevices: seq<PhysicalDevice>,
                 swapchainImages: seq<Handle>, swapchainFormat: Format, swapchainExtent: Extent2D)
      ensures Valid()
      ensures this.faults == faults && this.physicalDevices == physicalDevices
      ensures this.swapchainImages == swapchainImages
      ensures this.swapchainFormat == swapchainFormat && this.swapchainExtent == swapchainExtent
      ensures log == [] && recorded == map[] && poolFamily == map[]
    {
      this.faults := faults;
      this.physicalDevices := physicalDevices;
      this.swapchainImages := swapchainImages;
      this.swapchainFormat := swapchainFormat;
      this.swapchainExtent := swapchainExtent;
      next := 1;
      log := [];
      recorded := map[];
      poolFamily := map[];
    }

    /** A `vkCreate*` call that yields one handle of `kind`, or fails when `call` is faulty. */
    method Create(kind: Kind, call: Call) returns (ok: bool, h: Handle)
      requires Valid()
      modifies this
      ensures Valid()
      ensures ok == (call !in faults)
      ensures ok ==> h == old(next) && h != NULL && next == old(next) + 1
      ensures ok ==> log == old(log) + [Created(kind, h)]
      ensures ok ==> recorded == old(recorded) && poolFamily == old(poolFamily)
      ensures !ok ==> h == NULL && unchanged(this)
    {
      ok := call !in faults;
      if ok {
        h := next;
        next := next + 1;
        log := log + [Created(kind, h)];
      } else {
        h := NULL;
      }
    }

    /** A fallible step that yields `n` handles of `kind` at once, or none when `call` is faulty. */
    method CreateEach(kind: Kind, call: Call, n: nat) returns (ok: bool, hs: seq<Handle>)
      requires Valid()
      modifies this
      ensures Valid()
      ensures ok == (call !in faults)
      ensures ok ==> hs == Range(old(next), n) && next == old(next) + n
      ensures ok ==> log == old(log) + CreatedEach(kind, hs)
      ensures ok ==> recorded == old(recorded) && poolFamily == old(poolFamily)
      ensures !ok ==> hs == [] && unchanged(this)
    {
      ok := call !in faults;
      if ok {
        hs := Range(next, n);
        log := log + CreatedEach(kind, hs);
        next := next + n;
      } else {
        hs := [];
      }
    }

    /** `vkDestroy*`: never fails; destroying VK_NULL_HANDLE is allowed and does nothing. */
    method Destroy(kind: Kind, h: Handle)
      modifies this`log
      ensures log == old(log) + [Destroyed(kind, h)]
    {
      log := log + [Destroyed(kind, h)];
    }

    /** `vkCreateCommandPool` for the given queue family. */
    method CreateCommandPool(family: nat) returns (ok: bool, h: Handle)
      requires Valid()
      modifies this
      ensures Valid()
      ensures ok == (Call.CreateCommandPool !in faults)
      ensures ok ==> h == old(next) && h != NULL && next == old(next) + 1
      ensures ok ==> log == old(log) + [Created(CommandPool, h)]
      ensures ok ==> poolFamily == old(poolFamily)[h := family] && recorded == old(recorded)
      ensures !ok ==> h == NULL && unchanged(this)
    {
      ok := Call.CreateCommandPool !in faults;
      if ok {
        h := next;
        next := next + 1;
        log := log + [Created(CommandPool, h)];
        poolFamily := poolFamily[h := family];
      } else {
        h := NULL;
      }
    }

    /** `vkAllocateCommandBuffers`: `n` primary buffers from `pool`, each in the initial state. */
    method AllocateCommandBuffers(pool: Handle, n: nat) returns (ok: bool, hs: seq<Handle>)
      requires Valid()
      modifies this
      ensures Valid()
      ensures ok == (Call.AllocateCommandBuffers !in faults)
      ensures ok ==> hs == Range(old(next), n) && next == old(next) + n
      ensures ok ==> log == old(log) + [Allocated(pool, hs)]
      ensures ok ==> forall h :: h in hs ==> Recorded(recorded, h) == []
      ensures ok ==> forall h :: h !in hs ==> Recorded(recorded, h) == Recorded(old(recorded), h)
      ensures ok ==> poolFamily == old(poolFamily)
      ensures !ok ==> hs == [] && unchanged(this)
    {
      ok := Call.AllocateCommandBuffers !in faults;
      if ok {
        hs := Range(next, n);
        next := next + n;
        log := log + [Allocated(pool, hs)];
        recorded := recorded + map h | h in hs :: [];
      } else {
        hs := [];
      }
    }

    /** Appends `c` to what has been recorded into `buffer`. */
    method Record(buffer: Handle, c: Command)
      modifies this`recorded
      ensures Recorded(recorded, buffer) == Recorded(old(recorded), buffer) + [c]
      ensures forall h :: h != buffer ==> Recorded(recorded, h) == Recorded(old(recorded), h)
    {
      recorded := recorded[buffer := Recorded(recorded, buffer) + [c]];
    }

    /** `vkBeginCommandBuffer`: records `Begin`, or fails without recording anything. */
    method BeginCommandBuffer(buffer: Handle) returns (ok: bool)
      modifies this`recorded
      ensures ok == (Call.BeginCommandBuffer(buffer) !in faults)
      ensures ok ==> Recorded(recorded, buffer) == Recorded(old(recorded), buffer) + [Begin]
      ensures ok ==> forall h :: h != buffer ==> Recorded(recorded, h) == Recorded(old(recorded), h)
      ensures !ok ==> recorded == old(recorded)
    {
      ok := Call.BeginCommandBuffer(buffer) !in faults;
      if ok {
        Record(buffer, Begin);
      }
    }

    /** `vkEndCommandBuffer`: records `End`, or fails without recording anything. */
    method EndCommandBuffer(buffer: Handle) returns (ok: bool)
      modifies this`recorded
      ensures ok == (Call.EndCommandBuffer(buffer) !in faults)
      ensures ok ==> Recorded(recorded, buffer) == Recorded(old(recorded), buffer) + [End]
      ensures ok ==> forall h :: h != buffer ==> Recorded(recorded, h) == Recorded(old(recorded), h)
      ensures !ok ==> recorded == old(recorded)
    {
      ok := Call.EndCommandBuffer(buffer) !in faults;
      if ok {
        Record(buffer, End);
      }
    }
  }

  /** The commands recorded so far into `buffer` (nothing for a buffer never seen). */
  function Recorded(recorded: map<Handle, seq<Command>>, buffer: Handle): seq<Command> {
    if buffer in recorded then recorded[buffer] else []
  }
}
