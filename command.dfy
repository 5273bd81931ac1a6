/**
 * The command pool and the per-framebuffer command buffers, each pre-recorded with the same
 * render-pass sequence against its own framebuffer.
 */
module Commands {
  import opened Wrappers
  import opened Vk
  import opened Data

  /** The commands recorded into the command buffer for `framebuffer`. */
  function Script(renderPass: Handle, framebuffer: Handle, extent: Extent2D, pipeline: Handle): seq<Command> {
    [ Begin,
      BeginRenderPass(renderPass, framebuffer, Rect2D(Offset2D(0, 0), extent),
                      [ClearColor(0.0, 0.0, 0.0, 1.0)], Inline),
      BindPipeline(Graphics, pipeline),
      Draw(3, 1, 0, 0),
      EndRenderPass,
      End ]
  }

  /** The lifecycle state of a command buffer, as the commands recorded into it drive it. */
  datatype BufferState = Initial | Recording(inRenderPass: bool, pipelineBound: bool) | Executable | Invalid

  /**
   * One recorded command: begin leaves the initial state, render passes do not nest, only a
   * real (non-null) pipeline can be bound, a draw needs an open render pass and a bound
   * pipeline, and end needs the render pass closed. A misuse invalidates the buffer.
   */
  function Next(s: BufferState, c: Command): BufferState {
    match c
    case Begin => if s == Initial then Recording(false, false) else Invalid
    case BeginRenderPass(_, _, _, _, _) =>
      if s.Recording? && !s.inRenderPass then Recording(true, s.pipelineBound) else Invalid
    case BindPipeline(_, pipeline) =>
      if s.Recording? && pipeline != NULL then Recording(s.inRenderPass, true) else Invalid
    case Draw(_, _, _, _) => if s.Recording? && s.inRenderPass && s.pipelineBound then s else Invalid
    case EndRenderPass => if s.Recording? && s.inRenderPass then Recording(false, s.pipelineBound) else Invalid
    case End => if s.Recording? && !s.inRenderPass then Executable else Invalid
  }

  function Replay(s: BufferState, commands: seq<Command>): BufferState
    decreases |commands|
  {
    if commands == [] then s else Replay(Next(s, commands[0]), commands[1..])
  }

  /** An invalid buffer stays invalid, whatever is recorded into it. */
  lemma {:induction false} InvalidIsFinal(commands: seq<Command>)
    ensures Replay(Invalid, commands) == Invalid
    decreases |commands|
  {
    if commands != [] {
      InvalidIsFinal(commands[1..]);
    }
  }

  /**
   * A fully recorded buffer is executable when it binds a real pipeline: the script is then a
   * well-nested, complete recording.
   */
  lemma ScriptLeavesBufferExecutable(renderPass: Handle, framebuffer: Handle, extent: Extent2D, pipeline: Handle)
    requires pipeline != NULL
    ensures Replay(Initial, Script(renderPass, framebuffer, extent, pipeline)) == Executable
  {
    var script := Script(renderPass, framebuffer, extent, pipeline);
    assert Replay(Executable, script[6..]) == Executable;
    assert Replay(Recording(false, true), script[5..]) == Executable;
    assert Replay(Recording(true, true), script[4..]) == Executable;
    assert Replay(Recording(true, true), script[3..]) == Executable;
    assert Replay(Recording(true, false), script[2..]) == Executable;
    assert Replay(Recording(false, false), script[1..]) == Executable;
  }

  /** The script binding the null pipeline leaves the buffer invalid. */
  lemma NullPipelineInvalidatesScript(renderPass: Handle, framebuffer: Handle, extent: Extent2D)
    ensures Replay(Initial, Script(renderPass, framebuffer, extent, NULL)) == Invalid
  {
    var script := Script(renderPass, framebuffer, extent, NULL);
    InvalidIsFinal(script[3..]);
    assert Replay(Recording(true, false), script[2..]) == Invalid;
    assert Replay(Recording(false, false), script[1..]) == Invalid;
  }

  /**
   * A buffer whose end failed cannot be submitted: it stays in the recording state, or is
   * invalid when it bound the null pipeline.
   */
  lemma ScriptWithoutEndIsNotExecutable(renderPass: Handle, framebuffer: Handle, extent: Extent2D, pipeline: Handle)
    ensures Replay(Initial, Script(renderPass, framebuffer, extent, pipeline)[..5]) != Executable
    ensures pipeline != NULL ==>
              Replay(Initial, Script(renderPass, framebuffer, extent, pipeline)[..5]) == Recording(false, true)
  {
    var prefix := Script(renderPass, framebuffer, extent, pipeline)[..5];
    if pipeline == NULL {
      InvalidIsFinal(prefix[3..]);
      assert Replay(Recording(true, false), prefix[2..]) == Invalid;
      assert Replay(Recording(false, false), prefix[1..]) == Invalid;
      return;
    }
    assert Replay(Recording(false, true), prefix[5..]) == Recording(false, true);
    assert Replay(Recording(true, true), prefix[4..]) == Recording(false, true);
    assert Replay(Recording(true, true), prefix[3..]) == Recording(false, true);
    assert Replay(Recording(true, false), prefix[2..]) == Recording(false, true);
    assert Replay(Recording(false, false), prefix[1..]) == Recording(false, true);
  }

  /** The script for command buffer `i`, from the current state of `data`. */
  function ScriptFor(data: AppData, i: nat): seq<Command>
    reads data
    requires i < |data.framebuffers|
  {
    Script(data.renderPass, data.framebuffers[i], data.swapchainExtent, data.pipeline)
  }

  /** Whether beginning or ending `buffer` fails. */
  predicate Faulty(faults: set<Call>, buffer: Handle) {
    BeginCommandBuffer(buffer) in faults || EndCommandBuffer(buffer) in faults
  }

  /** The position of the first buffer whose begin or end fails, or `|buffers|` if none does. */
  function FirstFaulty(faults: set<Call>, buffers: seq<Handle>): (k: nat)
    ensures k <= |buffers|
    ensures forall j :: 0 <= j < k ==> !Faulty(faults, buffers[j])
    ensures k < |buffers| ==> Faulty(faults, buffers[k])
  {
    if buffers == [] then 0
    else if Faulty(faults, buffers[0]) then 0
    else 1 + FirstFaulty(faults, buffers[1..])
  }

  /**
   * `create_command_pool`: looks up the queue families of the selected physical device and
   * creates a pool for its graphics family.
   */
  method CreateCommandPool(driver: Driver, data: AppData) returns (r: Outcome<Error>)
    requires driver.Valid()
    modifies driver, data`commandPool
    ensures driver.Valid()
    ensures var families := QueueFamiliesOf(driver.physicalDevices, data.physicalDevice);
      && (families.None? ==>
            r == Fail(MissingQueueFamilies) && unchanged(driver) && data.commandPool == old(data.commandPool))
      && (families.Some? && Call.CreateCommandPool in driver.faults ==>
            r == Fail(CallFailed(Call.CreateCommandPool)) && unchanged(driver)
            && data.commandPool == old(data.commandPool))
      && (families.Some? && Call.CreateCommandPool !in driver.faults ==>
            && r == Pass
            && data.commandPool == old(driver.next) && driver.next == old(driver.next) + 1
            && driver.log == old(driver.log) + [Created(CommandPool, data.commandPool)]
            && driver.poolFamily == old(driver.poolFamily)[data.commandPool := families.value.graphics]
            && driver.recorded == old(driver.recorded))
  {
    var families := QueueFamiliesOf(driver.physicalDevices, data.physicalDevice);
    if families.None? {
      return Fail(MissingQueueFamilies);
    }
    var ok, pool := driver.CreateCommandPool(families.value.graphics);
    if !ok {
      return Fail(CallFailed(Call.CreateCommandPool));
    }
    data.commandPool := pool;
    r := Pass;
  }

  /**
   * The commands between begin and end in the recording loop's body: the render pass over
   * `framebuffers[i]`, the pipeline binding and the draw.
   */
  method RecordRenderPass(driver: Driver, data: AppData, i: nat, buffer: Handle)
    requires i < |data.framebuffers|
    modifies driver`recorded
    ensures Recorded(driver.recorded, buffer) == Recorded(old(driver.recorded), buffer) + ScriptFor(data, i)[1..5]
    ensures forall h :: h != buffer ==> Recorded(driver.recorded, h) == Recorded(old(driver.recorded), h)
  {
    var renderArea := Rect2D(Offset2D(0, 0), data.swapchainExtent);
    var clearValues := [ClearColor(0.0, 0.0, 0.0, 1.0)];
    var beginPass := BeginRenderPass(data.renderPass, data.framebuffers[i], renderArea, clearValues, Inline);
    var bind := BindPipeline(Graphics, data.pipeline);
    var draw := Draw(3, 1, 0, 0);
    driver.Record(buffer, beginPass);
    driver.Record(buffer, bind);
    driver.Record(buffer, draw);
    driver.Record(buffer, EndRenderPass);
    assert ScriptFor(data, i)[1..5] == [beginPass] + [bind] + [draw] + [EndRenderPass];
  }

  /**
   * The body of the recording loop for one buffer: begin, the four render-pass commands, end.
   * A failing begin records nothing; a failing end leaves the four commands recorded.
   */
  method RecordCommandBuffer(driver: Driver, data: AppData, i: nat, buffer: Handle) returns (r: Outcome<Error>)
    requires i < |data.framebuffers|
    modifies driver`recorded
    ensures forall h :: h != buffer ==> Recorded(driver.recorded, h) == Recorded(old(driver.recorded), h)
    ensures BeginCommandBuffer(buffer) in driver.faults ==>
              r == Fail(CallFailed(BeginCommandBuffer(buffer)))
              && Recorded(driver.recorded, buffer) == Recorded(old(driver.recorded), buffer)
    ensures BeginCommandBuffer(buffer) !in driver.faults && EndCommandBuffer(buffer) in driver.faults ==>
              r == Fail(CallFailed(EndCommandBuffer(buffer)))
              && Recorded(driver.recorded, buffer) == Recorded(old(driver.recorded), buffer) + ScriptFor(data, i)[..5]
    ensures !Faulty(driver.faults, buffer) ==>
              r == Pass && Recorded(driver.recorded, buffer) == Recorded(old(driver.recorded), buffer) + ScriptFor(data, i)
  {
    ghost var before := Recorded(driver.recorded, buffer);
    ghost var script := ScriptFor(data, i);
    var ok := driver.BeginCommandBuffer(buffer);
    if !ok {
      return Fail(CallFailed(BeginCommandBuffer(buffer)));
    }
    RecordRenderPass(driver, data, i, buffer);
    assert before + [Begin] + script[1..5] == before + script[..5];
    ok := driver.EndCommandBuffer(buffer);
    if !ok {
      return Fail(CallFailed(EndCommandBuffer(buffer)));
    }
    assert before + script[..5] + [End] == before + script;
    r := Pass;
  }

  /** Distinct handles: no buffer occurs twice. */
  ghost predicate Distinct(buffers: seq<Handle>) {
    forall i, j :: 0 <= i < j < |buffers| ==> buffers[i] != buffers[j]
  }

  /**
   * The recording loop of `create_command_buffers`: buffer `i` gets the script for
   * `framebuffers[i]`, until the first begin or end that fails.
   */
  method RecordCommandBuffers(driver: Driver, data: AppData) returns (r: Outcome<Error>)
    requires |data.commandBuffers| <= |data.framebuffers|
    requires Distinct(data.commandBuffers)
    requires forall j :: 0 <= j < |data.commandBuffers| ==> Recorded(driver.recorded, data.commandBuffers[j]) == []
    modifies driver`recorded
    ensures var buffers := data.commandBuffers;
      var n := |buffers|;
      var k := FirstFaulty(driver.faults, buffers);
      && (r == Pass <==> k == n)
      && (forall j :: 0 <= j < k ==> Recorded(driver.recorded, buffers[j]) == ScriptFor(data, j))
      && (k < n && BeginCommandBuffer(buffers[k]) in driver.faults ==>
            r == Fail(CallFailed(BeginCommandBuffer(buffers[k])))
            && Recorded(driver.recorded, buffers[k]) == [])
      && (k < n && BeginCommandBuffer(buffers[k]) !in driver.faults ==>
            r == Fail(CallFailed(EndCommandBuffer(buffers[k])))
            && Recorded(driver.recorded, buffers[k]) == ScriptFor(data, k)[..5])
      && (forall j :: k < j < n ==> Recorded(driver.recorded, buffers[j]) == [])
      && (forall h :: h !in buffers ==> Recorded(driver.recorded, h) == Recorded(old(driver.recorded), h))
  {
    var buffers := data.commandBuffers;
    var i := 0;
    while i < |buffers|
      invariant 0 <= i <= |buffers|
      invariant forall j :: 0 <= j < i ==> !Faulty(driver.faults, buffers[j])
      invariant forall j :: 0 <= j < i ==> Recorded(driver.recorded, buffers[j]) == ScriptFor(data, j)
      invariant forall j :: i <= j < |buffers| ==> Recorded(driver.recorded, buffers[j]) == []
      invariant forall h :: h !in buffers ==> Recorded(driver.recorded, h) == Recorded(old(driver.recorded), h)
    {
      assert forall j :: 0 <= j < |buffers| && j != i ==> buffers[j] != buffers[i];
      r := RecordCommandBuffer(driver, data, i, buffers[i]);
      if r.Fail? {
        assert FirstFaulty(driver.faults, buffers) == i;
        return;
      }
      i := i + 1;
    }
    r := Pass;
  }

  /**
   * `create_command_buffers`: allocates one primary buffer per framebuffer from the pool, then
   * records them; a failed allocation leaves `data.commandBuffers` as it was.
   */
  method CreateCommandBuffers(driver: Driver, data: AppData) returns (r: Outcome<Error>)
    requires driver.Valid()
    modifies driver, data`commandBuffers
    ensures driver.Valid()
    ensures Call.AllocateCommandBuffers in driver.faults ==>
              r == Fail(CallFailed(Call.AllocateCommandBuffers)) && unchanged(driver)
              && data.commandBuffers == old(data.commandBuffers)
    ensures Call.AllocateCommandBuffers !in driver.faults ==>
              var buffers := data.commandBuffers;
              var n := |data.framebuffers|;
              var k := FirstFaulty(driver.faults, buffers);
              && buffers == Range(old(driver.next), n)
              && driver.next == old(driver.next) + n
              && driver.log == old(driver.log) + [Allocated(data.commandPool, buffers)]
              && driver.poolFamily == old(driver.poolFamily)
              && (r == Pass <==> k == n)
              && (forall j :: 0 <= j < k ==> Recorded(driver.recorded, buffers[j]) == ScriptFor(data, j))
              && (k < n && BeginCommandBuffer(buffers[k]) in driver.faults ==>
                    r == Fail(CallFailed(BeginCommandBuffer(buffers[k])))
                    && Recorded(driver.recorded, buffers[k]) == [])
              && (k < n && BeginCommandBuffer(buffers[k]) !in driver.faults ==>
                    r == Fail(CallFailed(EndCommandBuffer(buffers[k])))
                    && Recorded(driver.recorded, buffers[k]) == ScriptFor(data, k)[..5])
              && (forall j :: k < j < n ==> Recorded(driver.recorded, buffers[j]) == [])
              && (forall h :: h !in buffers ==> Recorded(driver.recorded, h) == Recorded(old(driver.recorded), h))
  {
    var ok, buffers := driver.AllocateCommandBuffers(data.commandPool, |data.framebuffers|);
    if !ok {
      return Fail(CallFailed(Call.AllocateCommandBuffers));
    }
    data.commandBuffers := buffers;
    ghost var afterAllocation := driver.recorded;
    r := RecordCommandBuffers(driver, data);
    assert forall h :: h !in buffers ==> Recorded(driver.recorded, h) == Recorded(afterAllocation, h);
  }

  /** `QueueFamilyIndices::get` for a device handle: the answer for the first enumerated device with that handle. */
  function QueueFamiliesOf(devices: seq<PhysicalDevice>, h: Handle): Option<QueueFamilyIndices> {
    if devices == [] then None
    else if devices[0].handle == h then devices[0].queueFamilies
    else QueueFamiliesOf(devices[1..], h)
  }
}
