/** The control bridge of virtualization.go as a sequential state machine:
    the process-wide cgo handle table, the machine state and its notify
    channel, the one-shot completion bridge behind Start/Pause/Resume/Stop,
    the GUI window lifecycle, teardown, and the network-disconnect pipeline.
    Calls into Objective-C are recorded in `nativeCalls` instead of being
    performed; what they report back (macOS availability, native window
    presence, completion errors) arrives as parameters. */
module Vz {
  import opened Wrappers
  import opened Errors
  import opened VzTypes

  /** The completion routine a one-shot foreign call is started with. */
  datatype Operation =
    | StartOperation | StartWithOptionsOperation | PauseOperation | ResumeOperation | StopOperation

  /** A call from the bridge into the native runtime. */
  datatype NativeCall =
    | CompletionCall(op: Operation, handle: nat)
    | StartWindowCall(width: real, height: real, title: string, enableController: bool,
                      handle: nat, confirmStopOnClose: bool)
    | ShowWindowCall
    | BringWindowToFrontCall
    | ReleaseDispatchQueueCall
    | ReleaseObjectCall

  /** What a cgo handle refers to. */
  datatype HandleValue =
    | MachineStateValue(machine: MachineState)
    | DisconnectedInValue(events: DisconnectedChannel)
    | WindowOwnerValue(vm: VirtualMachine)
    | CompletionValue(completion: CompletionChannel)

  /** The process-wide table behind `cgo.NewHandle`, `Handle.Value` and
      `Handle.Delete`. */
  class HandleTable {
    var handles: map<nat, HandleValue>
    var lastHandle: nat
    ghost var released: seq<nat>   // deleted handles, in order

    /** Live handles are positive and never above the counter; a deleted
        handle was deleted once and is not live again. */
    ghost predicate Valid()
      reads this
    {
      && (forall h :: h in handles ==> 0 < h <= lastHandle)
      && (forall i :: 0 <= i < |released| ==> 0 < released[i] <= lastHandle && released[i] !in handles)
      && (forall i, j :: 0 <= i < j < |released| ==> released[i] != released[j])
    }

    constructor ()
      ensures Valid() && handles == map[] && lastHandle == 0 && released == []
    {
      handles, lastHandle, released := map[], 0, [];
    }

    /** `cgo.NewHandle(v)`: the counter is incremented and its new value is
        the handle, so a handle is never zero and never reused. */
    method NewHandle(v: HandleValue) returns (h: nat)
      requires Valid()
      modifies this
      ensures h == old(lastHandle) + 1 && h != 0 && h !in old(handles)
      ensures lastHandle == h && handles == old(handles)[h := v] && released == old(released)
      ensures Valid()
    {
      lastHandle := lastHandle + 1;
      h := lastHandle;
      handles := handles[h := v];
    }

    /** `Handle.Delete()`: deleting a handle that is not live panics. */
    method Delete(h: nat)
      requires Valid() && h in handles
      modifies this
      ensures handles == old(handles) - {h} && released == old(released) + [h] && lastHandle == old(lastHandle)
      ensures Valid()
    {
      handles := handles - {h};
      released := released + [h];
    }
  }

  /** The raw disconnect channel (an unbounded `infinity.Channel`): sends
      never block, and events are received in the order they were sent. */
  class DisconnectedChannel {
    var buffer: seq<Disconnected>          // sent and not yet received, oldest first
    var closed: bool
    ghost var received: seq<Disconnected>  // taken out so far, in order

    /** Everything ever sent, in order. */
    ghost function Sent(): seq<Disconnected>
      reads this
    {
      received + buffer
    }

    constructor ()
      ensures buffer == [] && received == [] && !closed
    {
      buffer, received, closed := [], [], false;
    }

    /** `ch.In() <- d`. A send on a closed channel panics. */
    method Send(d: Disconnected)
      requires !closed
      modifies this
      ensures !closed && buffer == old(buffer) + [d] && received == old(received)
      ensures Sent() == old(Sent()) + [d]
    {
      buffer := buffer + [d];
    }

    /** `ch.Close()`, which may happen only once. */
    method Close()
      requires !closed
      modifies this
      ensures closed && buffer == old(buffer) && received == old(received)
    {
      closed := true;
    }

    /** `<-ch.Out()` on a channel holding an event. */
    method Receive() returns (d: Disconnected)
      requires buffer != []
      modifies this
      ensures closed == old(closed) && Sent() == old(Sent())
      ensures d == old(buffer)[0] && buffer == old(buffer)[1..] && received == old(received) + [d]
    {
      d := buffer[0];
      received := received + [d];
      buffer := buffer[1..];
      assert Sent() == old(received) + ([d] + buffer);
    }
  }

  /** The channel `makeHandler` makes (`make(chan error, 1)`), together with
      the callback that sends one value into it and closes it. */
  class CompletionChannel {
    var buffer: seq<Option<Error>>
    var closed: bool
    ghost var sends: nat

    /** At most one value is ever sent, and the channel is closed exactly
        when it has been. */
    ghost predicate Valid()
      reads this
    {
      |buffer| <= sends <= 1 && (closed <==> sends == 1)
    }

    constructor ()
      ensures Valid() && buffer == [] && !closed && sends == 0
    {
      buffer, closed, sends := [], false, 0;
    }

    /** The closure `func(err error) { ch <- err; close(ch) }`. A second
        call would send on a closed channel and panic. */
    method Deliver(err: Option<Error>)
      requires Valid() && !closed
      modifies this
      ensures Valid() && closed && sends == 1 && buffer == [err]
    {
      buffer := buffer + [err];
      closed := true;
      sends := sends + 1;
    }

    /** `<-ch`: the buffered value, or nil once the channel is closed and
        drained. On an open, empty channel the receive would block forever. */
    method Receive() returns (err: Option<Error>)
      requires Valid() && (buffer != [] || closed)
      modifies this
      ensures Valid() && closed == old(closed) && sends == old(sends)
      ensures old(buffer) != [] ==> err == old(buffer)[0] && buffer == old(buffer)[1..]
      ensures old(buffer) == [] ==> err == None && buffer == []
    {
      if buffer != [] {
        err := buffer[0];
        buffer := buffer[1..];
      } else {
        err := None;
      }
    }
  }

  /** `machineState`: the current execution state, and the unbounded
      channel `stateNotify` every change is published on, held as the queue
      of published values not yet received. */
  class MachineState {
    var state: int
    var notifyQueue: seq<int>
    ghost var consumed: seq<int>   // values already received, in order

    /** Every value ever published, in order. */
    ghost function Published(): seq<int>
      reads this
    {
      consumed + notifyQueue
    }

    /** The current state is the last value published (Stopped, code 0,
        before any). */
    ghost predicate Valid()
      reads this
    {
      state == (if Published() == [] then StateCode(StateStopped) else Published()[|Published()| - 1])
    }

    /** `newMachineState()`: Stopped, nothing published. */
    constructor ()
      ensures state == StateCode(StateStopped) && consumed == [] && notifyQueue == []
      ensures Valid()
    {
      state, notifyQueue, consumed := 0, [], [];
    }

    /** The body of `changeStateOnObserver`: store the state and publish it,
        also when it equals the current one. */
    method Publish(s: int)
      modifies this
      ensures state == s
      ensures notifyQueue == old(notifyQueue) + [s] && consumed == old(consumed)
      ensures Published() == old(Published()) + [s]
      ensures Valid()
    {
      state := s;
      notifyQueue := notifyQueue + [s];
      assert Published() == old(Published()) + [s];
    }

    /** A receive from `StateChangedNotify()`: the oldest value not yet
        received. On an empty channel the receive would block. */
    method Next() returns (s: int)
      requires Valid() && notifyQueue != []
      modifies this
      ensures s == old(notifyQueue)[0] && notifyQueue == old(notifyQueue)[1..] && consumed == old(consumed) + [s]
      ensures state == old(state) && Published() == old(Published())
      ensures Valid()
    {
      s := notifyQueue[0];
      consumed := consumed + [s];
      notifyQueue := notifyQueue[1..];
      assert Published() == old(consumed) + ([s] + notifyQueue);
    }
  }

  /** The options loop of `Start` and `StartGraphicApplication`: apply each
      option in turn and return the first error. */
  method ApplyOptions<O>(opts: seq<OptionFunc<O>>, init: O) returns (r: Result<O, Error>)
    ensures r == ApplyAll(opts, init)
  {
    var o := init;
    var i := 0;
    r := Ok(init);
    while i < |opts| && r.Ok?
      invariant 0 <= i <= |opts|
      invariant r.Ok? ==> r.value == o && ApplyAll(opts, init) == ApplyAll(opts[i..], o)
      invariant r.Err? ==> r == ApplyAll(opts, init)
      decreases |opts| - i + (if r.Ok? then 1 else 0)
    {
      assert opts[i..][0] == opts[i] && opts[i..][1..] == opts[i + 1..];
      var step := opts[i](o);
      if step.Err? {
        r := Err(step.error);
      } else {
        o := step.value;
        r := Ok(o);
        i := i + 1;
      }
    }
    assert r.Ok? ==> opts[i..] == [];
  }

  /** The window-lifecycle precondition errors. */
  const NoWindowText := "GUI window does not exist; call StartGraphicApplication first"
  const WindowUnavailableText := "GUI window is not available"
  const NeverInitializedText := "GUI was never initialized; call StartGraphicApplication first"

  function NoWindowError(): Error { Message(NoWindowText) }
  function WindowUnavailableError(): Error { Message(WindowUnavailableText) }
  function NeverInitializedError(): Error { Message(NeverInitializedText) }

  class VirtualMachine {
    const table: HandleTable
    const machineState: MachineState
    const stateHandle: nat
    const networkDevices: seq<NetworkDeviceConfiguration>  // config.networkDeviceConfiguration
    const disconnectedIn: DisconnectedChannel
    const disconnectedHandle: nat
    var disconnectedOut: seq<DisconnectedError>         // the public channel's queue
    var disconnectedOutClosed: bool
    ghost var disconnectedOutReceived: seq<DisconnectedError>
    var watchStarted: bool          // watchDisconnectedOnce has fired
    ghost var watchStarts: nat
    var finalized: bool             // finalizeOnce has fired
    ghost var finalizeRuns: nat
    var hasGUIWindow: bool
    var windowClosedHandle: nat     // 0 = no handle
    var nativeCalls: seq<NativeCall>

    /** The VM's invariant: its handles resolve to its own parts and a
        recorded window handle resolves to the VM itself; each once-guarded
        body has run once if its flag is set and never otherwise; and the
        disconnect pipeline is consistent. */
    ghost predicate Valid()
      reads this, table, machineState, disconnectedIn
    {
      && table.Valid() && machineState.Valid()
      && Owns(table.handles, table.lastHandle, windowClosedHandle)
      && finalizeRuns == (if finalized then 1 else 0)
      && Pipeline(disconnectedIn.buffer, disconnectedIn.received, disconnectedIn.closed, watchStarted, watchStarts,
                  disconnectedOut, disconnectedOutReceived, disconnectedOutClosed)
    }

    /** `Owns` stated over the table's contents and a window handle `w`. */
    ghost predicate Owns(handles: map<nat, HandleValue>, last: nat, w: nat)
    {
      && 0 < stateHandle <= last
      && (stateHandle in handles ==> handles[stateHandle] == MachineStateValue(machineState))
      && disconnectedHandle in handles
      && handles[disconnectedHandle] == DisconnectedInValue(disconnectedIn)
      && (w != 0 ==> w in handles && handles[w] == WindowOwnerValue(this))
    }

    /** A newly allocated handle does not disturb the VM's own. */
    lemma OwnsAfterNew(handles: map<nat, HandleValue>, last: nat, w: nat, v: HandleValue)
      requires Owns(handles, last, w) && last + 1 !in handles
      ensures Owns(handles[last + 1 := v], last + 1, w)
      ensures v == WindowOwnerValue(this) ==> Owns(handles[last + 1 := v], last + 1, last + 1)
    {
    }

    /** Deleting the machine-state handle keeps the VM's other handles. */
    lemma OwnsAfterStateDelete(handles: map<nat, HandleValue>, last: nat, w: nat)
      requires Owns(handles, last, w)
      ensures Owns(handles - {stateHandle}, last, w)
    {
    }

    /** Deleting the window handle leaves the VM without one. */
    lemma OwnsAfterWindowDelete(handles: map<nat, HandleValue>, last: nat, w: nat)
      requires Owns(handles, last, w) && w != 0
      ensures Owns(handles - {w}, last, 0)
    {
    }

    /** A live machine-state handle is neither of the VM's other handles. */
    lemma StateHandleIsOwn(handles: map<nat, HandleValue>, last: nat, w: nat)
      requires Owns(handles, last, w)
      ensures stateHandle in handles ==> stateHandle != disconnectedHandle && stateHandle != w
    {
    }

    /** Advancing the counter keeps the VM's handles. */
    lemma OwnsAfterGrow(handles: map<nat, HandleValue>, last: nat, last': nat, w: nat)
      requires Owns(handles, last, w) && last <= last'
      ensures Owns(handles, last', w)
    {
    }

    /** The disconnect pipeline over the raw channel's queue, received
        events and flag, the worker's once-flag, and the public channel's
        queue, received errors and flag: the worker is started at most
        once, and nothing is taken before it starts; every raw event it has
        taken was published as exactly one `DisconnectedError`, in order;
        and the public channel is closed only after the raw one was closed
        and drained. */
    ghost predicate Pipeline(inBuffer: seq<Disconnected>, inReceived: seq<Disconnected>, inClosed: bool,
                             started: bool, starts: nat,
                             out: seq<DisconnectedError>, outReceived: seq<DisconnectedError>, outClosed: bool)
    {
      && starts == (if started then 1 else 0)
      && outReceived + out == EnrichAll(inReceived, networkDevices)
      && (!started ==> inReceived == [])
      && (outClosed ==> inClosed && inBuffer == [])
    }

    /** The VM that `NewVirtualMachine` builds: its machine state starts at
        Stopped (code 0), and two handles are allocated, one for the machine
        state and one for the raw disconnect channel. */
    constructor (table: HandleTable, config: seq<NetworkDeviceConfiguration>)
      requires table.Valid()
      modifies table
      ensures this.table == table && fresh(machineState) && fresh(disconnectedIn)
      ensures machineState.state == StateCode(StateStopped) && machineState.Published() == []
      ensures !hasGUIWindow && windowClosedHandle == 0 && !finalized && !watchStarted
      ensures stateHandle == old(table.lastHandle) + 1 && disconnectedHandle == old(table.lastHandle) + 2
      ensures table.handles == old(table.handles)[stateHandle := MachineStateValue(machineState)]
                                                 [disconnectedHandle := DisconnectedInValue(disconnectedIn)]
      ensures table.lastHandle == old(table.lastHandle) + 2 && table.released == old(table.released)
      ensures networkDevices == config && disconnectedIn.Sent() == [] && disconnectedOut == [] && disconnectedOutReceived == []
      ensures !disconnectedIn.closed && !disconnectedOutClosed
      ensures nativeCalls == []
      ensures Valid()
    {
      this.table := table;
      var ms := new MachineState();
      machineState := ms;
      var sh := table.NewHandle(MachineStateValue(ms));
      stateHandle := sh;
      var din := new DisconnectedChannel();
      disconnectedIn := din;
      var dh := table.NewHandle(DisconnectedInValue(din));
      disconnectedHandle := dh;
      disconnectedOut, disconnectedOutClosed, disconnectedOutReceived := [], false, [];
      networkDevices := config;
      watchStarted, watchStarts, finalized, finalizeRuns := false, 0, false, 0;
      hasGUIWindow, windowClosedHandle := false, 0;
      nativeCalls := [];
    }

    /** `NewVirtualMachine`: fails with the macOS 11 availability error,
        and builds the VM otherwise. */
    static method NewVirtualMachine(table: HandleTable, config: seq<NetworkDeviceConfiguration>,
                                    macOS11: Option<Error>)
      returns (vm: VirtualMachine?, err: Option<Error>)
      requires table.Valid()
      modifies table
      ensures table.Valid()
      ensures err == macOS11
      ensures macOS11.Some? ==> vm == null && unchanged(table)
      ensures macOS11.None? ==> vm != null && fresh(vm) && vm.Valid() && vm.table == table
      ensures vm != null ==> vm.State() == StateCode(StateStopped) && vm.machineState.Published() == []
      ensures vm != null ==> !vm.hasGUIWindow && vm.windowClosedHandle == 0 && !vm.finalized
      ensures vm != null ==> vm.networkDevices == config && vm.nativeCalls == [] && !vm.watchStarted
      ensures vm != null ==>
        && vm.stateHandle == old(table.lastHandle) + 1 && vm.disconnectedHandle == old(table.lastHandle) + 2
        && table.lastHandle == old(table.lastHandle) + 2
        && table.handles == old(table.handles)[vm.stateHandle := MachineStateValue(vm.machineState)]
                                              [vm.disconnectedHandle := DisconnectedInValue(vm.disconnectedIn)]
        && table.released == old(table.released)
    {
      if macOS11.Some? {
        vm, err := null, macOS11;
      } else {
        vm := new VirtualMachine(table, config);
        err := None;
      }
    }

    // ---- state observer ----

    /** `State()`: the last state the observer published, Stopped
        before any. */
    function State(): (s: int)
      reads this, machineState
      ensures machineState.Valid() ==>
        s == (if machineState.Published() == [] then StateCode(StateStopped)
              else machineState.Published()[|machineState.Published()| - 1])
    {
      machineState.state
    }

    // ---- one-shot completion bridge ----

    /** The shared body of Start/Pause/Resume/Stop: issue the foreign call
        with a freshly registered handler and return what it delivers. */
    method RunCompletion(op: Operation, nsError: Option<Error>) returns (err: Option<Error>)
      requires Valid()
      modifies this`nativeCalls, table
      ensures err == nsError
      ensures table.lastHandle == old(table.lastHandle) + 1 && table.lastHandle !in old(table.handles)
      ensures table.handles == old(table.handles) && table.released == old(table.released) + [table.lastHandle]
      ensures nativeCalls == old(nativeCalls) + [CompletionCall(op, table.lastHandle)]
      ensures Valid()
    {
      var h;
      OwnsAfterGrow(table.handles, table.lastHandle, table.lastHandle + 1, windowClosedHandle);
      err, h := CompleteOnce(table, nsError);
      nativeCalls := nativeCalls + [CompletionCall(op, h)];
    }

    /** `Start(opts...)`: an option error is returned before any handle is
        registered; otherwise the call completes with `nsError`, through
        the with-options entry point when an option attached macOS start
        options. */
    method Start(opts: seq<OptionFunc<StartOptions>>, nsError: Option<Error>) returns (err: Option<Error>)
      requires Valid()
      modifies this`nativeCalls, table
      ensures table.handles == old(table.handles)
      ensures ApplyAll(opts, StartOptions(false)).Err? ==>
        err == Some(ApplyAll(opts, StartOptions(false)).error) &&
        unchanged(table) && nativeCalls == old(nativeCalls)
      ensures ApplyAll(opts, StartOptions(false)).Ok? ==>
        var op := if ApplyAll(opts, StartOptions(false)).value.hasMacOSOptions
                  then StartWithOptionsOperation else StartOperation;
        && err == nsError
        && table.lastHandle == old(table.lastHandle) + 1 && table.lastHandle !in old(table.handles)
        && table.released == old(table.released) + [table.lastHandle]
        && nativeCalls == old(nativeCalls) + [CompletionCall(op, table.lastHandle)]
      ensures Valid()
    {
      var o := ApplyOptions(opts, StartOptions(false));
      if o.Err? {
        err := Some(o.error);
      } else {
        var op := if o.value.hasMacOSOptions then StartWithOptionsOperation else StartOperation;
        err := RunCompletion(op, nsError);
      }
    }

    /** `Pause()`. */
    method Pause(nsError: Option<Error>) returns (err: Option<Error>)
      requires Valid()
      modifies this`nativeCalls, table
      ensures err == nsError
      ensures table.lastHandle == old(table.lastHandle) + 1 && table.lastHandle !in old(table.handles)
      ensures table.handles == old(table.handles) && table.released == old(table.released) + [table.lastHandle]
      ensures nativeCalls == old(nativeCalls) + [CompletionCall(PauseOperation, table.lastHandle)]
      ensures Valid()
    {
      err := RunCompletion(PauseOperation, nsError);
    }

    /** `Resume()`. */
    method Resume(nsError: Option<Error>) returns (err: Option<Error>)
      requires Valid()
      modifies this`nativeCalls, table
      ensures err == nsError
      ensures table.lastHandle == old(table.lastHandle) + 1 && table.lastHandle !in old(table.handles)
      ensures table.handles == old(table.handles) && table.released == old(table.released) + [table.lastHandle]
      ensures nativeCalls == old(nativeCalls) + [CompletionCall(ResumeOperation, table.lastHandle)]
      ensures Valid()
    {
      err := RunCompletion(ResumeOperation, nsError);
    }

    /** `Stop()`: the macOS 12 error is returned before any handle is
        registered. */
    method Stop(macOS12: Option<Error>, nsError: Option<Error>) returns (err: Option<Error>)
      requires Valid()
      modifies this`nativeCalls, table
      ensures table.handles == old(table.handles)
      ensures macOS12.Some? ==> err == macOS12 && unchanged(table) && nativeCalls == old(nativeCalls)
      ensures macOS12.None? ==>
        && err == nsError
        && table.lastHandle == old(table.lastHandle) + 1 && table.lastHandle !in old(table.handles)
        && table.released == old(table.released) + [table.lastHandle]
        && nativeCalls == old(nativeCalls) + [CompletionCall(StopOperation, table.lastHandle)]
      ensures Valid()
    {
      if macOS12.Some? {
        err := macOS12;
      } else {
        err := RunCompletion(StopOperation, nsError);
      }
    }

    // ---- window lifecycle ----

    /** `StartGraphicApplication(width, height, opts...)`. Width and height
        are only passed through: no value of them is rejected. Every
        successful call allocates a new window handle and overwrites the
        previous one without deleting it. */
    method StartGraphicApplication(width: real, height: real, opts: seq<OptionFunc<GraphicOptions>>,
                                   macOS12: Option<Error>)
      returns (err: Option<Error>)
      requires Valid()
      modifies this`hasGUIWindow, this`windowClosedHandle, this`nativeCalls, table
      ensures macOS12.Some? ==> err == macOS12 && unchanged(this, table)
      ensures macOS12.None? && ApplyAll(opts, DefaultGraphicOptions).Err? ==>
        err == Some(ApplyAll(opts, DefaultGraphicOptions).error) && unchanged(this, table)
      ensures macOS12.None? && ApplyAll(opts, DefaultGraphicOptions).Ok? ==>
        var o := ApplyAll(opts, DefaultGraphicOptions).value;
        && err == None
        && hasGUIWindow
        && windowClosedHandle == old(table.lastHandle) + 1 && windowClosedHandle !in old(table.handles)
        && table.lastHandle == windowClosedHandle
        && table.handles == old(table.handles)[windowClosedHandle := WindowOwnerValue(this)]
        && table.released == old(table.released)
        && (old(windowClosedHandle) != 0 ==> old(windowClosedHandle) in table.handles)
        && nativeCalls == old(nativeCalls) +
             [StartWindowCall(width, height, o.title, o.enableController, windowClosedHandle, o.confirmStopOnClose)]
      ensures Valid()
    {
      if macOS12.Some? {
        err := macOS12;
      } else {
        var o := ApplyOptions(opts, DefaultGraphicOptions);
        if o.Err? {
          err := Some(o.error);
        } else {
          OpenWindow(width, height, o.value);
          err := None;
        }
      }
    }

    /** The success path of `StartGraphicApplication`. */
    method OpenWindow(width: real, height: real, o: GraphicOptions)
      requires Valid()
      modifies this`hasGUIWindow, this`windowClosedHandle, this`nativeCalls, table
      ensures hasGUIWindow
      ensures windowClosedHandle == old(table.lastHandle) + 1 && windowClosedHandle !in old(table.handles)
      ensures table.lastHandle == windowClosedHandle
      ensures table.handles == old(table.handles)[windowClosedHandle := WindowOwnerValue(this)]
      ensures table.released == old(table.released)
      ensures nativeCalls == old(nativeCalls) +
             [StartWindowCall(width, height, o.title, o.enableController, windowClosedHandle, o.confirmStopOnClose)]
      ensures Valid()
    {
      hasGUIWindow := true;
      OwnsAfterNew(table.handles, table.lastHandle, windowClosedHandle, WindowOwnerValue(this));
      var h := table.NewHandle(WindowOwnerValue(this));
      windowClosedHandle := h;
      nativeCalls := nativeCalls + [StartWindowCall(width, height, o.title, o.enableController, h, o.confirmStopOnClose)];
    }

    /** `BringWindowToFront()`: fails when no window was recorded, and also
        when the native layer reports no window although one was recorded.
        It never changes the recorded flag. */
    method BringWindowToFront(macOS12: Option<Error>, nativeWindowPresent: bool) returns (err: Option<Error>)
      requires Valid()
      modifies this`nativeCalls
      ensures err.None? <==> macOS12.None? && hasGUIWindow && nativeWindowPresent
      ensures macOS12.Some? ==> err == macOS12
      ensures macOS12.None? && !hasGUIWindow ==> err == Some(NoWindowError())
      ensures macOS12.None? && hasGUIWindow && !nativeWindowPresent ==> err == Some(WindowUnavailableError())
      ensures nativeCalls == old(nativeCalls) + (if err.None? then [BringWindowToFrontCall] else [])
      ensures Valid()
    {
      if macOS12.Some? {
        err := macOS12;
      } else if !hasGUIWindow {
        err := Some(NoWindowError());
      } else if !nativeWindowPresent {
        err := Some(WindowUnavailableError());
      } else {
        nativeCalls := nativeCalls + [BringWindowToFrontCall];
        err := None;
      }
    }

    /** `ShowWindow()`: fails exactly when no window handle was ever
        allocated; otherwise marks the window as present (whether or not it
        already was) and asks the native layer to show it. */
    method ShowWindow(macOS12: Option<Error>) returns (err: Option<Error>)
      requires Valid()
      modifies this`hasGUIWindow, this`nativeCalls
      ensures macOS12.Some? ==> err == macOS12 && unchanged(this)
      ensures macOS12.None? ==> (err.Some? <==> windowClosedHandle == 0)
      ensures macOS12.None? && windowClosedHandle == 0 ==> err == Some(NeverInitializedError()) && unchanged(this)
      ensures err.None? ==> hasGUIWindow && nativeCalls == old(nativeCalls) + [ShowWindowCall]
      ensures Valid()
    {
      if macOS12.Some? {
        err := macOS12;
      } else if windowClosedHandle == 0 {
        err := Some(NeverInitializedError());
      } else {
        hasGUIWindow := true;
        nativeCalls := nativeCalls + [ShowWindowCall];
        err := None;
      }
    }

    /** `HasGUIWindow()`: the recorded flag, cross-checked against the
        native layer's own answer. */
    function HasGUIWindow(nativeWindowPresent: bool): (b: bool)
      reads this
      ensures b <==> hasGUIWindow && nativeWindowPresent
    {
      hasGUIWindow && nativeWindowPresent
    }

    // ---- teardown ----

    /** `finalize()`: its body runs once, however often it is called. It
        deletes the window handle, if any, clears it, and releases the
        dispatch queue and the native object. */
    method Finalize()
      requires Valid()
      modifies this`finalized, this`finalizeRuns, this`windowClosedHandle, this`nativeCalls, table
      ensures finalized && finalizeRuns == 1
      ensures old(finalized) ==> unchanged(this, table)
      ensures !old(finalized) ==>
        && windowClosedHandle == 0
        && nativeCalls == old(nativeCalls) + [ReleaseDispatchQueueCall, ReleaseObjectCall]
        && table.lastHandle == old(table.lastHandle)
        && (old(windowClosedHandle) == 0 ==> table.handles == old(table.handles) && table.released == old(table.released))
        && (old(windowClosedHandle) != 0 ==>
              table.handles == old(table.handles) - {old(windowClosedHandle)} &&
              table.released == old(table.released) + [old(windowClosedHandle)])
      ensures Valid()
    {
      if !finalized {
        finalized := true;
        finalizeRuns := finalizeRuns + 1;
        if windowClosedHandle != 0 {
          OwnsAfterWindowDelete(table.handles, table.lastHandle, windowClosedHandle);
          table.Delete(windowClosedHandle);
          windowClosedHandle := 0;
        }
        nativeCalls := nativeCalls + [ReleaseDispatchQueueCall, ReleaseObjectCall];
      }
    }

    /** The finalizer `NewVirtualMachine` installs: `finalize()`, then the
        deletion of the machine-state handle. The runtime runs it once; a
        second deletion would panic. */
    method RunFinalizer()
      requires Valid() && stateHandle in table.handles
      modifies this`finalized, this`finalizeRuns, this`windowClosedHandle, this`nativeCalls, table
      ensures finalized && windowClosedHandle == (if old(finalized) then old(windowClosedHandle) else 0)
      ensures table.lastHandle == old(table.lastHandle)
      ensures old(finalized) ==>
        && table.handles == old(table.handles) - {stateHandle}
        && table.released == old(table.released) + [stateHandle]
        && nativeCalls == old(nativeCalls)
      ensures !old(finalized) ==>
        && table.handles == old(table.handles) - {old(windowClosedHandle), stateHandle}
        && table.released == old(table.released) + (if old(windowClosedHandle) == 0 then [] else [old(windowClosedHandle)]) + [stateHandle]
        && nativeCalls == old(nativeCalls) + [ReleaseDispatchQueueCall, ReleaseObjectCall]
      ensures Valid()
    {
      StateHandleIsOwn(table.handles, table.lastHandle, windowClosedHandle);
      assert 0 !in table.handles;
      Finalize();
      DeleteStateHandle();
    }

    /** The finalizer's `handle.Delete()` of the machine-state handle. */
    method DeleteStateHandle()
      requires Valid() && stateHandle in table.handles
      modifies table
      ensures table.handles == old(table.handles) - {stateHandle} && table.released == old(table.released) + [stateHandle]
      ensures table.lastHandle == old(table.lastHandle)
      ensures Valid()
    {
      OwnsAfterStateDelete(table.handles, table.lastHandle, windowClosedHandle);
      table.Delete(stateHandle);
    }

    // ---- disconnect pipeline ----

    /** `NetworkDeviceAttachmentWasDisconnected()`: returns the macOS 12
        error, and otherwise starts the worker unless it was started
        before. */
    method NetworkDeviceAttachmentWasDisconnected(macOS12: Option<Error>) returns (err: Option<Error>)
      requires Valid()
      modifies this`watchStarted, this`watchStarts
      ensures err == macOS12
      ensures watchStarted == (old(watchStarted) || macOS12.None?)
      ensures watchStarts <= 1
      ensures Valid()
    {
      err := macOS12;
      if macOS12.None? && !watchStarted {
        watchStarted := true;
        watchStarts := watchStarts + 1;
      }
    }

    /** `watchDisconnected`, run until it has to wait: every queued raw
        event is turned, in order, into one `DisconnectedError` carrying the
        same cause and the device configuration found at its index; the
        public channel is closed once the raw channel is closed and
        drained. */
    method WatchDisconnected()
      requires Valid() && watchStarted && !disconnectedOutClosed
      modifies disconnectedIn, this`disconnectedOut, this`disconnectedOutClosed
      ensures disconnectedIn.buffer == [] && disconnectedIn.closed == old(disconnectedIn.closed)
      ensures disconnectedIn.received == old(disconnectedIn.received) + old(disconnectedIn.buffer)
      ensures disconnectedOut == old(disconnectedOut) + EnrichAll(old(disconnectedIn.buffer), networkDevices)
      ensures disconnectedOutClosed == disconnectedIn.closed
      ensures Valid()
    {
      Drain();
      EnrichAllAppend(old(disconnectedIn.received), old(disconnectedIn.buffer), networkDevices);
      if disconnectedIn.closed {
        disconnectedOutClosed := true;
      }
    }

    /** The receive loop of `watchDisconnected`. */
    method Drain()
      modifies disconnectedIn, this`disconnectedOut
      ensures disconnectedIn.buffer == [] && disconnectedIn.closed == old(disconnectedIn.closed)
      ensures disconnectedIn.received == old(disconnectedIn.received) + old(disconnectedIn.buffer)
      ensures disconnectedOut == old(disconnectedOut) + EnrichAll(old(disconnectedIn.buffer), networkDevices)
    {
      ghost var done: seq<Disconnected> := [];
      while disconnectedIn.buffer != []
        invariant done + disconnectedIn.buffer == old(disconnectedIn.buffer)
        invariant disconnectedIn.closed == old(disconnectedIn.closed)
        invariant disconnectedIn.received == old(disconnectedIn.received) + done
        invariant disconnectedOut == old(disconnectedOut) + EnrichAll(done, networkDevices)
        decreases |disconnectedIn.buffer|
      {
        ghost var rest := disconnectedIn.buffer;
        var d := disconnectedIn.Receive();
        var config := FindValueByIndex(networkDevices, d.index);
        disconnectedOut := disconnectedOut + [DisconnectedError(d.err, config)];
        assert rest == [d] + disconnectedIn.buffer;
        EnrichAllAppend(done, [d], networkDevices);
        done := done + [d];
      }
    }

    /** A receive from the channel `NetworkDeviceAttachmentWasDisconnected`
        returns: the oldest published error not yet received. */
    method NextDisconnected() returns (e: DisconnectedError)
      requires Valid() && disconnectedOut != []
      modifies this`disconnectedOut, this`disconnectedOutReceived
      ensures e == old(disconnectedOut)[0] && disconnectedOut == old(disconnectedOut)[1..]
      ensures Valid()
    {
      e := disconnectedOut[0];
      disconnectedOutReceived := disconnectedOutReceived + [e];
      disconnectedOut := disconnectedOut[1..];
      assert disconnectedOutReceived + disconnectedOut == old(disconnectedOutReceived) + old(disconnectedOut);
    }

    /** A receive from `StateChangedNotify()`. */
    method NextStateChange() returns (s: int)
      requires Valid() && machineState.notifyQueue != []
      modifies machineState
      ensures s == old(machineState.notifyQueue)[0] && machineState.notifyQueue == old(machineState.notifyQueue)[1..]
      ensures State() == old(State())
      ensures Valid()
    {
      s := machineState.Next();
    }
  }

  /** `makeHandler` and one run of it: register a fresh one-shot channel
      under a new handle, let the native runtime complete it exactly once
      with `nsError`, receive what it delivers and delete the handle (the
      deferred `handle.Delete()`). Afterwards the table holds the same
      handles as before, and the handle used is released. */
  method CompleteOnce(table: HandleTable, nsError: Option<Error>) returns (err: Option<Error>, h: nat)
    requires table.Valid()
    modifies table
    ensures err == nsError
    ensures h == old(table.lastHandle) + 1 && h !in old(table.handles) && table.lastHandle == h
    ensures table.handles == old(table.handles) && table.released == old(table.released) + [h]
    ensures table.Valid()
  {
    var ch := new CompletionChannel();
    h := table.NewHandle(CompletionValue(ch));
    VirtualMachineCompletionHandler(table, h, nsError);
    err := ch.Receive();
    table.Delete(h);
    assert table.handles == old(table.handles);
  }

  // ---- callbacks from the native runtime (the //export functions) ----

  /** `changeStateOnObserver(newState, token)`: the token must resolve to a
      machine state (the failed type assertion's nil would be dereferenced
      otherwise). The new state is stored and published, without
      de-duplication. `vm` names the VM that owns that machine state. */
  method ChangeStateOnObserver(table: HandleTable, newStateRaw: int, token: nat, ghost vm: VirtualMachine)
    requires vm.Valid() && vm.table == table
    requires token in table.handles && table.handles[token] == MachineStateValue(vm.machineState)
    modifies vm.machineState
    ensures vm.State() == newStateRaw
    ensures vm.machineState.Published() == old(vm.machineState.Published()) + [newStateRaw]
    ensures vm.machineState.notifyQueue == old(vm.machineState.notifyQueue) + [newStateRaw]
    ensures vm.Valid()
  {
    var ms := table.handles[token].machine;
    ms.Publish(newStateRaw);
  }

  /** `virtualMachineCompletionHandler(token, errPtr)`: resolve the token
      to the registered callback and hand it the converted error. */
  method VirtualMachineCompletionHandler(table: HandleTable, token: nat, nsError: Option<Error>)
    requires token in table.handles && table.handles[token].CompletionValue?
    requires table.handles[token].completion.Valid() && !table.handles[token].completion.closed
    modifies table.handles[token].completion
    ensures table.handles[token].completion.Valid() && table.handles[token].completion.closed
    ensures table.handles[token].completion.buffer == [nsError]
  {
    var ch := table.handles[token].completion;
    ch.Deliver(nsError);
  }

  /** `notifyWindowClosed(token)`: a zero token, or one that resolves to
      something other than a VM, is ignored; otherwise that VM's window is
      recorded as gone and its handle is kept for a later ShowWindow. A
      non-zero token that is not live would make cgo panic. */
  method NotifyWindowClosed(table: HandleTable, token: nat)
    requires token == 0 || token in table.handles
    requires token != 0 && table.handles[token].WindowOwnerValue? ==> table.handles[token].vm.Valid()
    modifies (if token != 0 && token in table.handles && table.handles[token].WindowOwnerValue?
              then {table.handles[token].vm} else {})`hasGUIWindow
    ensures token != 0 && table.handles[token].WindowOwnerValue? ==>
      var vm := table.handles[token].vm;
      !vm.hasGUIWindow && vm.windowClosedHandle == old(vm.windowClosedHandle)
      && vm.nativeCalls == old(vm.nativeCalls) && vm.Valid()
  {
    if token != 0 && table.handles[token].WindowOwnerValue? {
      var vm := table.handles[token].vm;
      vm.hasGUIWindow := false;
    }
  }

  /** `emitAttachmentWasDisconnected(index, errPtr, token)`: queue a raw
      event on the channel the token resolves to. Sending on the closed
      channel would panic. `vm` names the VM that owns that channel. */
  method EmitAttachmentWasDisconnected(table: HandleTable, index: int, nsError: Option<Error>, token: nat,
                                       ghost vm: VirtualMachine)
    requires vm.Valid() && vm.table == table
    requires token in table.handles && table.handles[token] == DisconnectedInValue(vm.disconnectedIn)
    requires !vm.disconnectedIn.closed
    modifies vm.disconnectedIn
    ensures !vm.disconnectedIn.closed && vm.disconnectedIn.received == old(vm.disconnectedIn.received)
    ensures vm.disconnectedIn.buffer == old(vm.disconnectedIn.buffer) + [Disconnected(nsError, index)]
    ensures vm.Valid()
  {
    var ch := table.handles[token].events;
    ch.Send(Disconnected(nsError, index));
  }

  /** `closeAttachmentWasDisconnectedChannel(token)`: close the raw
      channel, which may happen only once. */
  method CloseAttachmentWasDisconnectedChannel(table: HandleTable, token: nat, ghost vm: VirtualMachine)
    requires vm.Valid() && vm.table == table
    requires token in table.handles && table.handles[token] == DisconnectedInValue(vm.disconnectedIn)
    requires !vm.disconnectedIn.closed
    modifies vm.disconnectedIn
    ensures vm.disconnectedIn.closed
    ensures vm.disconnectedIn.received == old(vm.disconnectedIn.received) && vm.disconnectedIn.buffer == old(vm.disconnectedIn.buffer)
    ensures vm.Valid()
  {
    var ch := table.handles[token].events;
    ch.Close();
  }
}
