/** Runs of the modelled bridge from a freshly built VM, showing the window
    lifecycle, the state observer, the completion bridge and the disconnect
    pipeline working together as the callers of virtualization.go see
    them. */
module Scenarios {
  import opened Wrappers
  import opened Errors
  import opened VzTypes
  import opened Vz

  /** Before `StartGraphicApplication`, no window is reported, bringing it
      to the front fails with the no-window error, and showing it fails
      with the never-initialized error. */
  method WindowCallsBeforeStart(nativeWindowPresent: bool)
    returns (has: bool, front: Option<Error>, show: Option<Error>)
    ensures !has
    ensures front == Some(NoWindowError())
    ensures show == Some(NeverInitializedError())
  {
    var table := new HandleTable();
    var vm := new VirtualMachine(table, []);
    has := vm.HasGUIWindow(nativeWindowPresent);
    front := vm.BringWindowToFront(None, nativeWindowPresent);
    show := vm.ShowWindow(None);
  }

  /** A window of any size opens (zero and negative sizes included); once
      the user closes it, bringing it forward fails, and `ShowWindow`
      brings it back through the kept handle. */
  method CloseThenShowAgain(width: real, height: real)
    returns (start: Option<Error>, afterClose: bool, front: Option<Error>, show: Option<Error>, afterShow: bool)
    ensures start.None?
    ensures !afterClose && front == Some(NoWindowError())
    ensures show.None? && afterShow
  {
    var table := new HandleTable();
    var vm := new VirtualMachine(table, []);
    start := vm.StartGraphicApplication(width, height, [], None);
    NotifyWindowClosed(table, vm.windowClosedHandle);
    afterClose := vm.HasGUIWindow(true);
    front := vm.BringWindowToFront(None, true);
    show := vm.ShowWindow(None);
    afterShow := vm.HasGUIWindow(true);
  }

  /** A second `StartGraphicApplication` replaces the recorded window
      handle with a new one; the first stays live in the table and is not
      deleted by `finalize`, which deletes only the second. */
  method SecondStartKeepsFirstHandle() returns (first: nat, second: nat, firstLive: bool, secondLive: bool)
    ensures first != 0 && second != 0 && first != second
    ensures firstLive && !secondLive
  {
    var table := new HandleTable();
    var vm := new VirtualMachine(table, []);
    var _ := vm.StartGraphicApplication(800.0, 600.0, [], None);
    first := vm.windowClosedHandle;
    var _ := vm.StartGraphicApplication(800.0, 600.0, [], None);
    second := vm.windowClosedHandle;
    vm.Finalize();
    firstLive := first in table.handles;
    secondLive := second in table.handles;
  }

  /** Every state the observer reports is stored and queued, repeats
      included. */
  method StateReportsAreQueued() returns (before: int, after: int, queued: seq<int>)
    ensures before == StateCode(StateStopped)
    ensures after == StateCode(StateRunning)
    ensures queued == [StateCode(StateRunning), StateCode(StateRunning)]
  {
    var table := new HandleTable();
    var vm := new VirtualMachine(table, []);
    before := vm.State();
    ChangeStateOnObserver(table, StateCode(StateRunning), vm.stateHandle, vm);
    ChangeStateOnObserver(table, StateCode(StateRunning), vm.stateHandle, vm);
    after := vm.State();
    queued := vm.machineState.notifyQueue;
  }

  /** `Pause` hands back the error its completion delivered and leaves
      the table's live handles as they were. */
  method PauseReportsCompletionError(e: Error) returns (err: Option<Error>, sameHandles: bool)
    ensures err == Some(e) && sameHandles
  {
    var table := new HandleTable();
    var vm := new VirtualMachine(table, []);
    var handles := table.handles;
    err := vm.Pause(Some(e));
    sameHandles := table.handles == handles;
  }

  /** Two raw disconnect events, one for a configured device and one for
      an index past the end, become two errors in order: the first names
      its device, the second has none and prints the cause alone. */
  method DisconnectEventsAreEnriched(device: NetworkDeviceConfiguration, cause: Error)
    returns (out: seq<DisconnectedError>, text: string)
    ensures out == [DisconnectedError(Some(cause), Some(device)), DisconnectedError(Some(cause), None)]
    ensures text == cause.Text()
  {
    var table := new HandleTable();
    var vm := new VirtualMachine(table, [device]);
    var _ := vm.NetworkDeviceAttachmentWasDisconnected(None);
    EmitAttachmentWasDisconnected(table, 0, Some(cause), vm.disconnectedHandle, vm);
    EmitAttachmentWasDisconnected(table, 5, Some(cause), vm.disconnectedHandle, vm);
    vm.WatchDisconnected();
    out := vm.disconnectedOut;
    assert out == EnrichAll([Disconnected(Some(cause), 0), Disconnected(Some(cause), 5)], [device]);
    text := out[1].ErrorText();
  }

  /** Two VMs built on the one process-wide table both stay valid, and
      the second one's handles are new. */
  method TwoMachinesShareOneTable() returns (first: VirtualMachine, second: VirtualMachine)
    ensures first.Valid() && second.Valid() && first.table == second.table
    ensures second.stateHandle > first.disconnectedHandle > first.stateHandle
    ensures first.stateHandle in first.table.handles && second.stateHandle in second.table.handles
  {
    var table := new HandleTable();
    first := new VirtualMachine(table, []);
    ghost var handles, last := table.handles, table.lastHandle;
    var vm, _ := VirtualMachine.NewVirtualMachine(table, [], None);
    second := vm;
    first.OwnsAfterNew(handles, last, 0, MachineStateValue(second.machineState));
    first.OwnsAfterNew(handles[last + 1 := MachineStateValue(second.machineState)], last + 1, 0,
                       DisconnectedInValue(second.disconnectedIn));
  }
}
