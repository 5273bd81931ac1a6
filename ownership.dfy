/**
 * Object lifetimes: the objects a successful setup creates, the order teardown releases
 * them in, and the dependency relation between object kinds that both orders must respect.
 */
module Ownership {
  import opened Vk

  /** The handles an application owns once setup has succeeded (the abstract value of `App`). */
  datatype Resources = Resources(
    instance: Handle,
    messenger: Handle,
    surface: Handle,
    device: Handle,
    swapchain: Handle,
    imageViews: seq<Handle>,
    renderPass: Handle,
    pipelineLayout: Handle,
    pipeline: Handle,
    framebuffers: seq<Handle>,
    commandPool: Handle,
    commandBuffers: seq<Handle>)

  /**
   * The state setup leaves: every handle it creates is a real one, and the pipeline, which
   * it never creates, is still null.
   */
  ghost predicate AsCreated(res: Resources, validation: bool) {
    && res.instance != NULL
    && (validation ==> res.messenger != NULL)
    && res.surface != NULL
    && res.device != NULL
    && res.swapchain != NULL
    && (forall i :: 0 <= i < |res.imageViews| ==> res.imageViews[i] != NULL)
    && res.renderPass != NULL
    && res.pipelineLayout != NULL
    && res.pipeline == NULL
    && (forall i :: 0 <= i < |res.framebuffers| ==> res.framebuffers[i] != NULL)
    && res.commandPool != NULL
  }

  /** The lifetime events of a successful setup, in the order setup issues them. */
  function CreationLog(res: Resources, validation: bool): seq<Event> {
    [Created(Instance, res.instance)]
    + (if validation then [Created(DebugMessenger, res.messenger)] else [])
    + [Created(Surface, res.surface)]
    + [Created(Device, res.device)]
    + [Created(Swapchain, res.swapchain)]
    + CreatedEach(ImageView, res.imageViews)
    + [Created(RenderPass, res.renderPass)]
    + [Created(PipelineLayout, res.pipelineLayout)]
    + CreatedEach(Framebuffer, res.framebuffers)
    + [Created(CommandPool, res.commandPool)]
    + [Allocated(res.commandPool, res.commandBuffers)]
  }

  /** The destroy calls of teardown, in the order it issues them. */
  function Teardown(res: Resources, validation: bool): seq<Event> {
    RenderingTeardown(res)
    + [Destroyed(Swapchain, res.swapchain)]
    + [Destroyed(Device, res.device)]
    + [Destroyed(Surface, res.surface)]
    + (if validation then [Destroyed(DebugMessenger, res.messenger)] else [])
    + [Destroyed(Instance, res.instance)]
  }

  /** The first destroy calls of teardown: the objects used to record and present frames. */
  function RenderingTeardown(res: Resources): seq<Event> {
    [Destroyed(CommandPool, res.commandPool)]
    + DestroyedEach(Framebuffer, res.framebuffers)
    + [Destroyed(Pipeline, res.pipeline)]
    + [Destroyed(PipelineLayout, res.pipelineLayout)]
    + [Destroyed(RenderPass, res.renderPass)]
    + DestroyedEach(ImageView, res.imageViews)
  }

  /** The objects a run of events creates, in order (command buffers belong to their pool). */
  function Acquired(log: seq<Event>): seq<Object> {
    if log == [] then []
    else (if log[0].Created? then [Object(log[0].kind, log[0].handle)] else []) + Acquired(log[1..])
  }

  /** The objects a run of events destroys, in order; destroying a null handle releases nothing. */
  function Released(log: seq<Event>): seq<Object> {
    if log == [] then []
    else (if log[0].Destroyed? && log[0].handle != NULL then [Object(log[0].kind, log[0].handle)] else [])
         + Released(log[1..])
  }

  function ObjectKinds(objects: seq<Object>): (ks: seq<Kind>)
    ensures |ks| == |objects|
    ensures forall i :: 0 <= i < |objects| ==> ks[i] == objects[i].kind
  {
    seq(|objects|, i requires 0 <= i < |objects| => objects[i].kind)
  }

  function Objects(kind: Kind, hs: seq<Handle>): (os: seq<Object>)
    ensures |os| == |hs|
    ensures forall i :: 0 <= i < |hs| ==> os[i] == Object(kind, hs[i])
  {
    seq(|hs|, i requires 0 <= i < |hs| => Object(kind, hs[i]))
  }

  function Reverse<T>(s: seq<T>): (r: seq<T>)
    ensures |r| == |s|
    ensures forall i :: 0 <= i < |s| ==> r[i] == s[|s| - 1 - i]
  {
    seq(|s|, i requires 0 <= i < |s| => s[|s| - 1 - i])
  }

  /**
   * `DependsOn(child, parent)`: an object of kind `child` is created from, or refers to, an
   * object of kind `parent` (directly or through other objects), so the parent must exist
   * before the child is created and must outlive it.
   */
  predicate DependsOn(child: Kind, parent: Kind) {
    match child
    case Instance => false
    case DebugMessenger => parent == Instance
    case Surface => parent == Instance
    case Device => parent == Instance
    case Swapchain => parent in {Device, Surface, Instance}
    case ImageView => parent in {Swapchain, Device, Surface, Instance}
    case RenderPass => parent in {Device, Instance}
    case PipelineLayout => parent in {Device, Instance}
    case Pipeline => parent in {PipelineLayout, RenderPass, Device, Instance}
    case Framebuffer => parent in {RenderPass, ImageView, Swapchain, Surface, Device, Instance}
    case CommandPool => parent in {Device, Instance}
    case CommandBuffer => parent in {CommandPool, Device, Instance}
  }

  /** The position of each kind in the setup order. */
  function Rank(k: Kind): nat {
    match k
    case Instance => 0
    case DebugMessenger => 1
    case Surface => 2
    case Device => 3
    case Swapchain => 4
    case ImageView => 5
    case RenderPass => 6
    case PipelineLayout => 7
    case Pipeline => 8
    case Framebuffer => 9
    case CommandPool => 10
    case CommandBuffer => 11
  }

  /** The setup order is a topological order of the dependency relation. */
  lemma RankRespectsDependencies(child: Kind, parent: Kind)
    requires DependsOn(child, parent)
    ensures Rank(parent) < Rank(child)
  {
  }

  ghost predicate Ascending(ks: seq<Kind>) {
    forall i, j :: 0 <= i < j < |ks| ==> Rank(ks[i]) <= Rank(ks[j])
  }

  lemma AscendingAppend(a: seq<Kind>, b: seq<Kind>, bound: nat)
    requires Ascending(a) && Ascending(b)
    requires forall i :: 0 <= i < |a| ==> Rank(a[i]) <= bound
    requires forall j :: 0 <= j < |b| ==> bound <= Rank(b[j])
    ensures Ascending(a + b)
  {
  }

  // ---------------------------------------------------------------------------------------
  // Acquired and Released over concatenations and per-element runs

  lemma {:induction false} AcquiredAppend(a: seq<Event>, b: seq<Event>)
    ensures Acquired(a + b) == Acquired(a) + Acquired(b)
  {
    if a != [] {
      assert (a + b)[1..] == a[1..] + b;
      AcquiredAppend(a[1..], b);
    } else {
      assert a + b == b;
    }
  }

  lemma {:induction false} ReleasedAppend(a: seq<Event>, b: seq<Event>)
    ensures Released(a + b) == Released(a) + Released(b)
  {
    if a != [] {
      assert (a + b)[1..] == a[1..] + b;
      ReleasedAppend(a[1..], b);
    } else {
      assert a + b == b;
    }
  }

  lemma {:induction false} AcquiredEach(kind: Kind, hs: seq<Handle>)
    ensures Acquired(CreatedEach(kind, hs)) == Objects(kind, hs)
  {
    if hs != [] {
      assert CreatedEach(kind, hs)[1..] == CreatedEach(kind, hs[1..]);
      AcquiredEach(kind, hs[1..]);
    }
  }

  lemma {:induction false} ReleasedEach(kind: Kind, hs: seq<Handle>)
    requires forall i :: 0 <= i < |hs| ==> hs[i] != NULL
    ensures Released(DestroyedEach(kind, hs)) == Objects(kind, hs)
  {
    if hs != [] {
      assert DestroyedEach(kind, hs)[1..] == DestroyedEach(kind, hs[1..]);
      ReleasedEach(kind, hs[1..]);
    }
  }

  /** One event acquires the object it creates, if it creates one. */
  lemma AcquiredSingle(e: Event)
    ensures Acquired([e]) == if e.Created? then [Object(e.kind, e.handle)] else []
  {
    assert [e][1..] == [];
  }

  /** One event releases the object it destroys, if it destroys a real one. */
  lemma ReleasedSingle(e: Event)
    ensures Released([e]) == if e.Destroyed? && e.handle != NULL then [Object(e.kind, e.handle)] else []
  {
    assert [e][1..] == [];
  }

  /** `a + [e]` acquires what `a` does, then what `e` does. */
  lemma AcquiredSnoc(a: seq<Event>, e: Event)
    ensures Acquired(a + [e]) == Acquired(a) + if e.Created? then [Object(e.kind, e.handle)] else []
  {
    AcquiredAppend(a, [e]);
    AcquiredSingle(e);
  }

  /** `a + [e]` releases what `a` does, then what `e` does. */
  lemma ReleasedSnoc(a: seq<Event>, e: Event)
    ensures Released(a + [e]) == Released(a) + if e.Destroyed? && e.handle != NULL then [Object(e.kind, e.handle)] else []
  {
    ReleasedAppend(a, [e]);
    ReleasedSingle(e);
  }

  /** The objects setup owns once it has succeeded, in the order it creates them. */
  function Owned(res: Resources, validation: bool): seq<Object> {
    [Object(Instance, res.instance)]
    + (if validation then [Object(DebugMessenger, res.messenger)] else [])
    + [Object(Surface, res.surface)]
    + [Object(Device, res.device)]
    + [Object(Swapchain, res.swapchain)]
    + Objects(ImageView, res.imageViews)
    + [Object(RenderPass, res.renderPass)]
    + [Object(PipelineLayout, res.pipelineLayout)]
    + Objects(Framebuffer, res.framebuffers)
    + [Object(CommandPool, res.commandPool)]
  }

  /** The objects teardown destroys, in the order it destroys them. */
  function Disowned(res: Resources, validation: bool): seq<Object> {
    [Object(CommandPool, res.commandPool)]
    + Objects(Framebuffer, res.framebuffers)
    + [Object(PipelineLayout, res.pipelineLayout)]
    + [Object(RenderPass, res.renderPass)]
    + Objects(ImageView, res.imageViews)
    + [Object(Swapchain, res.swapchain)]
    + [Object(Device, res.device)]
    + [Object(Surface, res.surface)]
    + (if validation then [Object(DebugMessenger, res.messenger)] else [])
    + [Object(Instance, res.instance)]
  }

  /** Setup acquires exactly the objects it owns, in order; the command buffers come with their pool. */
  lemma AcquiredByCreation(res: Resources, validation: bool)
    ensures Acquired(CreationLog(res, validation)) == Owned(res, validation)
  {
    var messenger := if validation then [Created(DebugMessenger, res.messenger)] else [];
    var p1 := [Created(Instance, res.instance)];
    var p2 := p1 + messenger;
    var p3 := p2 + [Created(Surface, res.surface)];
    var p4 := p3 + [Created(Device, res.device)];
    var p5 := p4 + [Created(Swapchain, res.swapchain)];
    var p6 := p5 + CreatedEach(ImageView, res.imageViews);
    var p7 := p6 + [Created(RenderPass, res.renderPass)];
    var p8 := p7 + [Created(PipelineLayout, res.pipelineLayout)];
    var p9 := p8 + CreatedEach(Framebuffer, res.framebuffers);
    var p10 := p9 + [Created(CommandPool, res.commandPool)];
    AcquiredSingle(Created(Instance, res.instance));
    AcquiredAppend(p1, messenger);
    if validation {
      AcquiredSingle(Created(DebugMessenger, res.messenger));
    }
    AcquiredSnoc(p2, Created(Surface, res.surface));
    AcquiredSnoc(p3, Created(Device, res.device));
    AcquiredSnoc(p4, Created(Swapchain, res.swapchain));
    AcquiredAppend(p5, CreatedEach(ImageView, res.imageViews));
    AcquiredEach(ImageView, res.imageViews);
    AcquiredSnoc(p6, Created(RenderPass, res.renderPass));
    AcquiredSnoc(p7, Created(PipelineLayout, res.pipelineLayout));
    AcquiredAppend(p8, CreatedEach(Framebuffer, res.framebuffers));
    AcquiredEach(Framebuffer, res.framebuffers);
    AcquiredSnoc(p9, Created(CommandPool, res.commandPool));
    AcquiredSnoc(p10, Allocated(res.commandPool, res.commandBuffers));
  }

  /** Teardown releases the objects setup owns, and nothing else: the pipeline it destroys is null. */
  lemma ReleasedByTeardown(res: Resources, validation: bool)
    requires AsCreated(res, validation)
    ensures Released(Teardown(res, validation)) == Disowned(res, validation)
  {
    var messenger := if validation then [Destroyed(DebugMessenger, res.messenger)] else [];
    var p1 := [Destroyed(CommandPool, res.commandPool)];
    var p2 := p1 + DestroyedEach(Framebuffer, res.framebuffers);
    var p3 := p2 + [Destroyed(Pipeline, res.pipeline)];
    var p4 := p3 + [Destroyed(PipelineLayout, res.pipelineLayout)];
    var p5 := p4 + [Destroyed(RenderPass, res.renderPass)];
    var p6 := p5 + DestroyedEach(ImageView, res.imageViews);
    var p7 := p6 + [Destroyed(Swapchain, res.swapchain)];
    var p8 := p7 + [Destroyed(Device, res.device)];
    var p9 := p8 + [Destroyed(Surface, res.surface)];
    var p10 := p9 + messenger;
    var d2 := [Object(CommandPool, res.commandPool)] + Objects(Framebuffer, res.framebuffers);
    var d4 := d2 + [Object(PipelineLayout, res.pipelineLayout)];
    var d5 := d4 + [Object(RenderPass, res.renderPass)];
    var d6 := d5 + Objects(ImageView, res.imageViews);
    var d9 := d6 + [Object(Swapchain, res.swapchain)] + [Object(Device, res.device)] + [Object(Surface, res.surface)];
    var d10 := d9 + (if validation then [Object(DebugMessenger, res.messenger)] else []);
    assert Released(p2) == d2 by {
      ReleasedSingle(Destroyed(CommandPool, res.commandPool));
      ReleasedAppend(p1, DestroyedEach(Framebuffer, res.framebuffers));
      ReleasedEach(Framebuffer, res.framebuffers);
    }
    assert Released(p3) == d2 by {
      ReleasedSnoc(p2, Destroyed(Pipeline, res.pipeline));
    }
    assert Released(p5) == d5 by {
      ReleasedSnoc(p3, Destroyed(PipelineLayout, res.pipelineLayout));
      ReleasedSnoc(p4, Destroyed(RenderPass, res.renderPass));
    }
    assert Released(p6) == d6 by {
      ReleasedAppend(p5, DestroyedEach(ImageView, res.imageViews));
      ReleasedEach(ImageView, res.imageViews);
    }
    assert Released(p9) == d9 by {
      ReleasedSnoc(p6, Destroyed(Swapchain, res.swapchain));
      ReleasedSnoc(p7, Destroyed(Device, res.device));
      ReleasedSnoc(p8, Destroyed(Surface, res.surface));
    }
    assert Released(p10) == d10 by {
      ReleasedAppend(p9, messenger);
      if validation {
        ReleasedSingle(Destroyed(DebugMessenger, res.messenger));
      }
    }
    ReleasedSnoc(p10, Destroyed(Instance, res.instance));
  }

  // ---------------------------------------------------------------------------------------
  // Teardown against setup

  /** Teardown releases every object setup acquired, each exactly once, and nothing more. */
  lemma TeardownReleasesWhatCreationAcquired(res: Resources, validation: bool)
    requires AsCreated(res, validation)
    ensures multiset(Released(Teardown(res, validation))) == multiset(Acquired(CreationLog(res, validation)))
  {
    AcquiredByCreation(res, validation);
    ReleasedByTeardown(res, validation);
  }

  function KindRun(kind: Kind, n: nat): (ks: seq<Kind>)
    ensures |ks| == n
    ensures forall i :: 0 <= i < n ==> ks[i] == kind
  {
    seq(n, _ => kind)
  }

  lemma ReverseAppend<T>(a: seq<T>, b: seq<T>)
    ensures Reverse(a + b) == Reverse(b) + Reverse(a)
  {
  }

  lemma ObjectKindsAppend(a: seq<Object>, b: seq<Object>)
    ensures ObjectKinds(a + b) == ObjectKinds(a) + ObjectKinds(b)
  {
  }

  lemma ObjectKindsSingle(o: Object)
    ensures ObjectKinds([o]) == [o.kind]
  {
  }

  lemma ObjectKindsEach(kind: Kind, hs: seq<Handle>)
    ensures ObjectKinds(Objects(kind, hs)) == KindRun(kind, |hs|)
  {
  }

  /** The kinds of `Owned`, piece by piece. */
  function OwnedKinds(res: Resources, validation: bool): seq<Kind> {
    [Instance]
    + (if validation then [DebugMessenger] else [])
    + [Surface]
    + [Device]
    + [Swapchain]
    + KindRun(ImageView, |res.imageViews|)
    + [RenderPass]
    + [PipelineLayout]
    + KindRun(Framebuffer, |res.framebuffers|)
    + [CommandPool]
  }

  lemma OwnedHasOwnedKinds(res: Resources, validation: bool)
    ensures ObjectKinds(Owned(res, validation)) == OwnedKinds(res, validation)
  {
    var messenger := if validation then [Object(DebugMessenger, res.messenger)] else [];
    var p1 := [Object(Instance, res.instance)];
    var p2 := p1 + messenger;
    var p3 := p2 + [Object(Surface, res.surface)];
    var p4 := p3 + [Object(Device, res.device)];
    var p5 := p4 + [Object(Swapchain, res.swapchain)];
    var p6 := p5 + Objects(ImageView, res.imageViews);
    var p7 := p6 + [Object(RenderPass, res.renderPass)];
    var p8 := p7 + [Object(PipelineLayout, res.pipelineLayout)];
    var p9 := p8 + Objects(Framebuffer, res.framebuffers);
    var k2 := [Instance] + (if validation then [DebugMessenger] else []);
    var k5 := k2 + [Surface] + [Device] + [Swapchain];
    var k8 := k5 + KindRun(ImageView, |res.imageViews|) + [RenderPass] + [PipelineLayout];
    assert ObjectKinds(p2) == k2 by {
      ObjectKindsSingle(Object(Instance, res.instance));
      ObjectKindsAppend(p1, messenger);
      if validation {
        ObjectKindsSingle(Object(DebugMessenger, res.messenger));
      }
    }
    assert ObjectKinds(p5) == k5 by {
      ObjectKindsAppend(p2, [Object(Surface, res.surface)]);
      ObjectKindsAppend(p3, [Object(Device, res.device)]);
      ObjectKindsAppend(p4, [Object(Swapchain, res.swapchain)]);
      ObjectKindsSingle(Object(Surface, res.surface));
      ObjectKindsSingle(Object(Device, res.device));
      ObjectKindsSingle(Object(Swapchain, res.swapchain));
    }
    assert ObjectKinds(p8) == k8 by {
      ObjectKindsAppend(p5, Objects(ImageView, res.imageViews));
      ObjectKindsEach(ImageView, res.imageViews);
      ObjectKindsAppend(p6, [Object(RenderPass, res.renderPass)]);
      ObjectKindsAppend(p7, [Object(PipelineLayout, res.pipelineLayout)]);
      ObjectKindsSingle(Object(RenderPass, res.renderPass));
      ObjectKindsSingle(Object(PipelineLayout, res.pipelineLayout));
    }
    ObjectKindsAppend(p8, Objects(Framebuffer, res.framebuffers));
    ObjectKindsEach(Framebuffer, res.framebuffers);
    ObjectKindsAppend(p9, [Object(CommandPool, res.commandPool)]);
    ObjectKindsSingle(Object(CommandPool, res.commandPool));
  }

  lemma DisownedKinds(res: Resources, validation: bool)
    ensures ObjectKinds(Disowned(res, validation)) ==
      [CommandPool]
      + KindRun(Framebuffer, |res.framebuffers|)
      + [PipelineLayout, RenderPass]
      + KindRun(ImageView, |res.imageViews|)
      + ([Swapchain, Device, Surface] + (if validation then [DebugMessenger] else []) + [Instance])
  {
    var messenger := if validation then [Object(DebugMessenger, res.messenger)] else [];
    var p1 := [Object(CommandPool, res.commandPool)];
    var p2 := p1 + Objects(Framebuffer, res.framebuffers);
    var p3 := p2 + [Object(PipelineLayout, res.pipelineLayout)];
    var p4 := p3 + [Object(RenderPass, res.renderPass)];
    var p5 := p4 + Objects(ImageView, res.imageViews);
    var p6 := p5 + [Object(Swapchain, res.swapchain)];
    var p7 := p6 + [Object(Device, res.device)];
    var p8 := p7 + [Object(Surface, res.surface)];
    var p9 := p8 + messenger;
    var k5 := [CommandPool] + KindRun(Framebuffer, |res.framebuffers|) + [PipelineLayout, RenderPass]
      + KindRun(ImageView, |res.imageViews|);
    var tail := [Swapchain, Device, Surface] + (if validation then [DebugMessenger] else []) + [Instance];
    assert ObjectKinds(p5) == k5 by {
      ObjectKindsSingle(Object(CommandPool, res.commandPool));
      ObjectKindsAppend(p1, Objects(Framebuffer, res.framebuffers));
      ObjectKindsEach(Framebuffer, res.framebuffers);
      ObjectKindsAppend(p2, [Object(PipelineLayout, res.pipelineLayout)]);
      ObjectKindsAppend(p3, [Object(RenderPass, res.renderPass)]);
      ObjectKindsSingle(Object(PipelineLayout, res.pipelineLayout));
      ObjectKindsSingle(Object(RenderPass, res.renderPass));
      ObjectKindsAppend(p4, Objects(ImageView, res.imageViews));
      ObjectKindsEach(ImageView, res.imageViews);
    }
    assert ObjectKinds(Disowned(res, validation)) == k5 + tail by {
      ObjectKindsAppend(p5, [Object(Swapchain, res.swapchain)]);
      ObjectKindsAppend(p6, [Object(Device, res.device)]);
      ObjectKindsAppend(p7, [Object(Surface, res.surface)]);
      ObjectKindsAppend(p8, messenger);
      ObjectKindsAppend(p9, [Object(Instance, res.instance)]);
    }
  }

  lemma ReverseOwnedKinds(res: Resources, validation: bool)
    ensures Reverse(OwnedKinds(res, validation)) ==
      [CommandPool]
      + KindRun(Framebuffer, |res.framebuffers|)
      + [PipelineLayout, RenderPass]
      + KindRun(ImageView, |res.imageViews|)
      + ([Swapchain, Device, Surface] + (if validation then [DebugMessenger] else []) + [Instance])
  {
    var a := [Instance] + (if validation then [DebugMessenger] else []) + [Surface] + [Device] + [Swapchain];
    var views := KindRun(ImageView, |res.imageViews|);
    var b := [RenderPass, PipelineLayout];
    var fbs := KindRun(Framebuffer, |res.framebuffers|);
    var c := [CommandPool];
    assert OwnedKinds(res, validation) == a + views + b + fbs + c;
    ReverseAppend(a + views + b + fbs, c);
    ReverseAppend(a + views + b, fbs);
    ReverseAppend(a + views, b);
    ReverseAppend(a, views);
    assert Reverse(a) == [Swapchain, Device, Surface] + (if validation then [DebugMessenger] else []) + [Instance];
  }

  /**
   * Teardown destroys kinds in exactly the reverse of the order setup creates them. Within
   * the framebuffers and within the image views it keeps creation order, which the kinds
   * cannot tell apart.
   */
  lemma TeardownReversesCreationKinds(res: Resources, validation: bool)
    requires AsCreated(res, validation)
    ensures ObjectKinds(Released(Teardown(res, validation))) ==
            Reverse(ObjectKinds(Acquired(CreationLog(res, validation))))
  {
    AcquiredByCreation(res, validation);
    ReleasedByTeardown(res, validation);
    OwnedHasOwnedKinds(res, validation);
    DisownedKinds(res, validation);
    ReverseOwnedKinds(res, validation);
  }

  lemma OwnedKindsAscending(res: Resources, validation: bool)
    ensures Ascending(OwnedKinds(res, validation))
  {
    var a := [Instance] + (if validation then [DebugMessenger] else []) + [Surface] + [Device] + [Swapchain];
    var views := KindRun(ImageView, |res.imageViews|);
    var b := [RenderPass, PipelineLayout];
    var fbs := KindRun(Framebuffer, |res.framebuffers|);
    var c := [CommandPool];
    assert OwnedKinds(res, validation) == a + views + b + fbs + c;
    AscendingAppend(a, views, Rank(Swapchain));
    AscendingAppend(a + views, b, Rank(ImageView));
    AscendingAppend(a + views + b, fbs, Rank(PipelineLayout));
    AscendingAppend(a + views + b + fbs, c, Rank(Framebuffer));
  }

  /** Setup never creates an object before an object it depends on. */
  lemma CreationRespectsDependencies(res: Resources, validation: bool, i: nat, j: nat)
    requires i < j < |Acquired(CreationLog(res, validation))|
    ensures !DependsOn(Acquired(CreationLog(res, validation))[i].kind, Acquired(CreationLog(res, validation))[j].kind)
  {
    AcquiredByCreation(res, validation);
    OwnedHasOwnedKinds(res, validation);
    OwnedKindsAscending(res, validation);
    var ks := OwnedKinds(res, validation);
    assert Rank(ks[i]) <= Rank(ks[j]);
    if DependsOn(ks[i], ks[j]) {
      RankRespectsDependencies(ks[i], ks[j]);
    }
  }

  /** Teardown never destroys an object while an object that depends on it is still alive. */
  lemma TeardownRespectsDependencies(res: Resources, validation: bool, i: nat, j: nat)
    requires AsCreated(res, validation)
    requires i < j < |Released(Teardown(res, validation))|
    ensures !DependsOn(Released(Teardown(res, validation))[j].kind, Released(Teardown(res, validation))[i].kind)
  {
    var released := Released(Teardown(res, validation));
    var acquired := Acquired(CreationLog(res, validation));
    TeardownReversesCreationKinds(res, validation);
    var n := |released|;
    assert |acquired| == n;
    assert released[j].kind == acquired[n - 1 - j].kind;
    assert released[i].kind == acquired[n - 1 - i].kind;
    CreationRespectsDependencies(res, validation, n - 1 - j, n - 1 - i);
  }

  /**
   * The instance is released last, and every other object teardown releases depends on it,
   * so nothing outlives the instance.
   */
  lemma InstanceReleasedLast(res: Resources, validation: bool)
    requires AsCreated(res, validation)
    ensures var released := Released(Teardown(res, validation));
      && |released| > 0
      && released[|released| - 1] == Object(Instance, res.instance)
      && forall i :: 0 <= i < |released| - 1 ==> DependsOn(released[i].kind, Instance)
  {
    ReleasedByTeardown(res, validation);
    var released := Disowned(res, validation);
    var body := released[..|released| - 1];
    assert released == body + [Object(Instance, res.instance)];
    ObjectKindsAppend(body, [Object(Instance, res.instance)]);
    DisownedKinds(res, validation);
    forall i | 0 <= i < |released| - 1
      ensures DependsOn(released[i].kind, Instance)
    {
      assert ObjectKinds(released)[i] == released[i].kind;
    }
  }
}
