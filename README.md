# vz control bridge and gui-linux front end, modelled in Dafny

This project models two parts of `vz`, the Go bindings for Apple's Virtualization
framework.

**The control bridge in `virtualization.go`** covers:

- how a `VirtualMachine` is built;
- the process-wide cgo handle table that native callbacks use to find their Go
  objects;
- the machine state and its unbounded notify channel;
- the one-shot completion handler behind `Start`, `Pause`, `Resume` and `Stop`;
- the option closures;
- the GUI window lifecycle (`StartGraphicApplication`, `BringWindowToFront`,
  `ShowWindow`, `HasGUIWindow` and the window-closed callback);
- the once-only `finalize`;
- the network-disconnect pipeline. Raw events from the runtime are turned into
  `DisconnectedError` values that name the device configuration at the event's
  index.

**The `example/gui-linux` command-line program** covers:

- the JSON-backed VM registry (`registry.go`);
- bundle paths and the boot-sector heuristic (`bundle.go`);
- the helpers in `main.go`:
  - the running-VM set;
  - the argument scanners;
  - the stored-ISO fallback;
  - the CPU and memory clamps;
  - the two bounded menu-request channels and their handlers;
  - `createAndShowVM`;
  - command dispatch in `run()`;
  - the `start`, `create` and `delete` commands.

The bridge is a sequential state machine. Objects whose fields Go updates in
place are Dafny classes:

- the handle table;
- the channels;
- the machine state;
- the VM;
- the registry;
- the running set;
- the request queues.

Their methods carry `modifies` clauses, and `Valid()` invariants state what the
bridge keeps true:

- a handle is positive and never reused;
- a VM's handles resolve to its own parts;
- each once-guarded body has run at most once;
- every raw disconnect event taken is published as exactly one enriched error,
  in order.

Calls into Objective-C are recorded in a `nativeCalls` log instead of being
made. Whatever the native side would report arrives as a parameter:

- macOS availability errors;
- whether the native window exists;
- the `NSError` a completion delivers;
- file-system outcomes.

Files:

| file | contents |
|---|---|
| `wrappers.dfy` | `Option` and `Result`. |
| `errors.dfy` | Go errors: messages, `%w` wrapping and `%q` quoting. |
| `paths.dfy` | `strings.HasPrefix` and `filepath.Join`. |
| `vz_types.dfy` | The bridge's value types: states, option closures and disconnect events. |
| `virtualization.dfy` | The bridge. |
| `bundle.dfy` | `Bundle`. |
| `registry.dfy` | `Registry`. |
| `cli.dfy` | The `main.go` helpers. |
| `scenarios.dfy` | Short runs of the bridge from a new VM, each proved to give the outcome the source's behaviour implies. |

Where this model follows the code rather than the documentation:

- **`getNameArg` and `-iso`.** The usage text says `create -iso boot.iso`
  creates the VM "default". `getNameArg` returns the first argument that does
  not start with `-`, so in that example it returns the ISO path. The model
  follows the code, and `Cli.IsoValueIsTakenAsName` states the consequence.
- **`StartGraphicApplication` called twice.** Each successful call allocates a
  new window-callback handle and overwrites the previous one without deleting
  it. `finalize` deletes only the last handle. The model keeps this
  behaviour; see `Scenarios.SecondStartKeepsFirstHandle`.
- **Window size.** Width and height are never validated.
- **The raw disconnect channel's handle.** The finalizer installed by
  `NewVirtualMachine` deletes only the machine-state handle. The handle made for
  the raw disconnect channel (virtualization.go:143) is never deleted, so it
  stays live after teardown. The model keeps it live: `Vz.VirtualMachine.Owns`
  requires it, and `RunFinalizer` does not remove it.

## Model

| member | source | states |
|---|---|---|
| Errors.Error.Text | example/gui-linux/registry.go:144 | A plain message prints its text. A `%w`-wrapped error prints its context, `": "`, and then its cause's text. |
| Errors.Error.Unwrap | example/gui-linux/registry.go:144 | Unwrapping a wrapped error gives exactly its cause, which is strictly smaller. A plain message gives nil. |
| Errors.OptionText | virtualization.go:552 | `%v` of a present error is its text, and of nil it is `<nil>`. |
| Errors.Quote | example/gui-linux/main.go:238 | `%q` encloses the name in double quotes and leaves it unchanged inside them. |
| Paths.JoinPath | example/gui-linux/bundle.go:32 | For a clean relative name, the joined path starts with the directory and ends with the name, and an empty directory gives the bare name. |
| Paths.PlainNameIsClean | example/gui-linux/bundle.go:31-43 | A single file name other than `.` and `..`, such as the bundle's file names, is one that `filepath.Clean` leaves alone. |
| Paths.JoinPathInjective | example/gui-linux/bundle.go:31-43 | Joining two different clean names onto the same directory gives different paths. |
| VzTypes.StateCode | virtualization.go:28-70 | The ten states have distinct codes 0 to 9 in declaration order; Stopped alone is 0. |
| VzTypes.StateOfCode | virtualization.go:227 | A raw code names a state exactly when it is in 0..9, and decoding agrees with `StateCode`. |
| VzTypes.StateCodeRoundTrip | virtualization.go:28-70 | Decoding a state's code gives that state back. |
| VzTypes.ApplyAllAppend | virtualization.go:331-335 | Applying a concatenation of options applies the first part, then the rest, and stops at the first error. |
| VzTypes.ApplyAllNeverFails | virtualization.go:421-444 | A list of options none of which fails never makes the application fail. |
| VzTypes.WithWindowTitle | virtualization.go:421-426 | The option sets the title and leaves every other field alone. |
| VzTypes.WithController | virtualization.go:428-434 | The option sets the controller flag and leaves every other field alone. |
| VzTypes.WithConfirmStopOnClose | virtualization.go:436-444 | The option sets the close-confirmation flag and leaves every other field alone. |
| VzTypes.TitleAndControllerKeepConfirmDefault | virtualization.go:455-457 | Starting from the default options, the title and controller options give that title and flag, and the confirmation stays on. |
| VzTypes.DisconnectedError.ErrorText | virtualization.go:548-553 | With no device configuration, the text is the cause's own. Otherwise it is the attachment, then `": "`, then the cause as `%v` prints it. |
| VzTypes.DisconnectedError.Unwrap | virtualization.go:547 | Unwrapping gives the raw cause, nil when there is none. |
| VzTypes.FindValueByIndex | virtualization.go:580-583 | There is a value exactly when the index is in range, and it is the element at that index. |
| VzTypes.Enrich | virtualization.go:580-588 | The public error keeps the raw cause and carries the configuration found at the event's index. |
| VzTypes.EnrichAll | virtualization.go:578-589 | Each raw event gives one public error, in the same order. |
| VzTypes.EnrichAllAppend | virtualization.go:578-589 | Enriching a concatenation gives the concatenation of the enriched parts. |
| Vz.HandleTable.constructor | virtualization.go:140 | The table starts empty with the counter at zero. |
| Vz.HandleTable.NewHandle | virtualization.go:140 | A new handle is the incremented counter: non-zero and never live before. Only that entry is added. |
| Vz.HandleTable.Delete | virtualization.go:165 | Only a live handle may be deleted. Exactly that entry goes, and it can never come back. |
| Vz.DisconnectedChannel.Send | virtualization.go:600-603 | A send on an open channel appends the event to everything sent; what was received is unchanged. |
| Vz.DisconnectedChannel.Close | virtualization.go:612 | Closing marks the channel closed and keeps its contents. |
| Vz.DisconnectedChannel.Receive | virtualization.go:578 | A receive takes the oldest pending event and adds it to what was received. Everything sent stays the same. |
| Vz.CompletionChannel.Deliver | virtualization.go:308-314 | The handler sends its one value and closes the channel; a second send is excluded. |
| Vz.CompletionChannel.Receive | virtualization.go:351 | The receive gives the buffered value, or nil once the channel is closed and drained. |
| Vz.MachineState.constructor | virtualization.go:136-139 | The machine state starts at Stopped with nothing published. |
| Vz.MachineState.Publish | virtualization.go:226-230 | The new state is stored and appended to the published values, repeats included. |
| Vz.MachineState.Next | virtualization.go:257-262 | A receive takes the oldest published value not yet received and leaves the current state alone. |
| Vz.ApplyOptions | virtualization.go:330-335 | The options loop returns exactly what applying the options in order, stopping at the first error, gives. |
| Vz.VirtualMachine.constructor | virtualization.go:136-161 | A new VM is Stopped, with no window and nothing native called. Two fresh handles resolve to its machine state and its raw disconnect channel. |
| Vz.VirtualMachine.NewVirtualMachine | virtualization.go:127-168 | The macOS 11 error leaves the table untouched and gives no VM. Otherwise the result is a valid Stopped VM whose two new handles, one past the counter, are the only change to the shared table. |
| Vz.VirtualMachine.RunCompletion | virtualization.go:337-351 | A completion call returns what native code delivered. It uses one fresh handle, which is released afterwards, so the live handles are as before. |
| Vz.VirtualMachine.Start | virtualization.go:329-352 | An option error comes back before any handle or native call. Otherwise one completion runs, through the with-options routine exactly when macOS start options were attached. |
| Vz.VirtualMachine.Pause | virtualization.go:357-363 | Pause runs one completion and returns its error. The live handles are as before. |
| Vz.VirtualMachine.Resume | virtualization.go:368-374 | Resume runs one completion and returns its error. The live handles are as before. |
| Vz.VirtualMachine.State | virtualization.go:250-255 | The current state is the last one the observer published, and Stopped before any. |
| Vz.VirtualMachine.Stop | virtualization.go:400-409 | The macOS 12 error comes back with nothing done. Otherwise one stop completion runs. |
| Vz.VirtualMachine.StartGraphicApplication | virtualization.go:451-483 | Availability and option errors change nothing. Success records the window, registers a fresh handle resolving to the VM, advances the table's counter to that handle, keeps the previous handle live, and passes size and options to native code. |
| Vz.VirtualMachine.OpenWindow | virtualization.go:466-481 | The success path adds exactly one handle, which becomes the table's counter, and one native window call. |
| Vz.VirtualMachine.BringWindowToFront | virtualization.go:490-505 | The call succeeds exactly when a window is recorded and native code confirms it exists. Each failure has its own error, and only success calls native code. |
| Vz.VirtualMachine.ShowWindow | virtualization.go:512-524 | The call fails exactly when no window handle was ever allocated. Otherwise the window is recorded as present and shown. |
| Vz.VirtualMachine.HasGUIWindow | virtualization.go:527-531 | A window is reported exactly when one is recorded and native code also reports one. |
| Vz.VirtualMachine.Finalize | virtualization.go:170-181 | The body runs once however often it is called. It deletes the window handle if there is one, clears it, and releases the queue and the object. |
| Vz.VirtualMachine.RunFinalizer | virtualization.go:163-166 | The finalizer runs `finalize` and then deletes the machine-state handle. On the first run the window handle, any release calls and the state handle go; after an earlier `finalize`, only the state handle goes. The raw-channel handle stays live. |
| Vz.VirtualMachine.DeleteStateHandle | virtualization.go:165 | Exactly the machine-state handle is deleted. |
| Vz.VirtualMachine.NetworkDeviceAttachmentWasDisconnected | virtualization.go:566-574 | The macOS 12 error is returned. Otherwise the worker is started, and never more than once. |
| Vz.VirtualMachine.WatchDisconnected | virtualization.go:577-591 | Every queued raw event is taken in order and published as its enriched error. The public channel closes exactly when the raw one is closed and drained. |
| Vz.VirtualMachine.Drain | virtualization.go:578-589 | The receive loop empties the raw queue and appends the enriched errors of all its events, in order. |
| Vz.VirtualMachine.NextDisconnected | virtualization.go:573 | A receive from the public channel gives the oldest published error. |
| Vz.VirtualMachine.NextStateChange | virtualization.go:257-262 | A receive from the notify channel gives the oldest unreceived state and leaves the state alone. |
| Vz.CompleteOnce | virtualization.go:308-314 | A handler is registered under a fresh handle, completed once and deleted. The result is the delivered error, and the live handles are as before. |
| Vz.ChangeStateOnObserver | virtualization.go:220-231 | The token must resolve to a machine state. The raw state becomes current and is published, repeats included. |
| Vz.VirtualMachineCompletionHandler | virtualization.go:295-306 | The token's channel receives exactly the converted error and is closed. |
| Vz.NotifyWindowClosed | virtualization.go:233-248 | A zero token or a non-VM value is ignored. Otherwise only the VM's window flag changes: it is cleared, and the handle is kept for `ShowWindow`. |
| Vz.EmitAttachmentWasDisconnected | virtualization.go:594-604 | The event with its index and cause is appended to the raw channel the token names, which must be open. |
| Vz.CloseAttachmentWasDisconnectedChannel | virtualization.go:607-613 | The raw channel is closed, only once, without losing queued events. |
| Bundles.Bundle.DiskImagePath | example/gui-linux/bundle.go:31-33 | The disk image lies in the bundle directory and is named `Disk.img`. |
| Bundles.Bundle.EFIVariableStorePath | example/gui-linux/bundle.go:36-38 | The variable store lies in the bundle directory and is named `NVRAM`. |
| Bundles.Bundle.MachineIdentifierPath | example/gui-linux/bundle.go:41-43 | The identifier lies in the bundle directory and is named `MachineIdentifier`. |
| Bundles.Bundle.IsInstalled | example/gui-linux/bundle.go:46-49 | A bundle is installed exactly when its NVRAM file exists. |
| Bundles.Bundle.HasBootableDisk | example/gui-linux/bundle.go:53-74 | The disk counts as bootable exactly when it opened, the read filled all 512 bytes, and some byte is non-zero. |
| Bundles.BundlePathsDistinct | example/gui-linux/bundle.go:31-43 | The three bundle files have three different paths. |
| Bundles.InstalledOnlyByNVRAM | example/gui-linux/bundle.go:46-49 | A bundle is installed exactly by its NVRAM file; a disk image alone does not count. |
| VmRegistry.BaseDirectory | example/gui-linux/registry.go:32-38 | The base directory is `GUI Linux VM` inside the home directory. |
| VmRegistry.RegistryPath | example/gui-linux/registry.go:46-48 | The registry file is `registry.json` inside the base directory. |
| VmRegistry.FirstIndex | example/gui-linux/registry.go:89-96 | The result is the index of the first entry with that name, or none exactly when no entry has it. |
| VmRegistry.RemoveAt | example/gui-linux/registry.go:148 | Removal drops exactly the entry at the index and keeps the order of the rest. |
| VmRegistry.AppendKeepsUnique | example/gui-linux/registry.go:104-124 | Appending a fresh name keeps names unique, and the new entry is then found under it. |
| VmRegistry.RemoveAtKeepsUnique | example/gui-linux/registry.go:127-150 | Removal keeps names unique. The removed name is no longer found, and every other name is found as before. |
| VmRegistry.SetISOKeepsNames | example/gui-linux/registry.go:171-178 | Changing an ISO path changes no lookup and keeps names unique. |
| VmRegistry.FirstIndexAppend | example/gui-linux/registry.go:115 | An entry appended under an absent name is found at the end. |
| VmRegistry.Registry.constructor | example/gui-linux/registry.go:56-59 | A registry holds the given entries and sits at the registry path. |
| VmRegistry.Registry.LoadRegistry | example/gui-linux/registry.go:51-74 | A directory, read or decode failure gives its own wrapped error and no registry. A missing file gives an empty one and a decoded file its entries. |
| VmRegistry.Registry.Save | example/gui-linux/registry.go:77-86 | The current entries are written, and a write failure is wrapped. |
| VmRegistry.Registry.Find | example/gui-linux/registry.go:89-96 | The scan returns the first index holding the name. |
| VmRegistry.Registry.Exists | example/gui-linux/registry.go:99-101 | The result is true exactly when some entry has the name. |
| VmRegistry.Registry.Add | example/gui-linux/registry.go:104-124 | A taken name is refused with nothing changed. Otherwise the entry with its `.bundle` name is appended and saved, and rolled back if the save fails. Name uniqueness is preserved. |
| VmRegistry.Registry.Remove | example/gui-linux/registry.go:127-150 | An unknown name, or a failed bundle deletion, leaves the entries as they were. Otherwise the first match is removed and saved, and stays removed if the save fails. |
| VmRegistry.Registry.UpdateISO | example/gui-linux/registry.go:171-178 | Only the ISO path of the first match changes, and the list is saved; an unknown name is reported. |
| VmRegistry.Registry.GetOrCreateDefault | example/gui-linux/registry.go:163-168 | The result is the existing "default" entry with nothing changed, or a newly added one. Any result is what a later lookup of "default" finds. |
| VmRegistry.Registry.List | example/gui-linux/registry.go:153-155 | The list is the entries themselves, in registry order. |
| VmRegistry.Registry.BundleFor | example/gui-linux/registry.go:158-160 | A clean bundle name gives a bundle inside the base directory whose path ends in that name. |
| VmRegistry.Registry.BundleForInjective | example/gui-linux/registry.go:158-160 | Different clean bundle names give different bundles. |
| VmRegistry.PlainVMNameGivesCleanBundle | example/gui-linux/registry.go:111 | A VM name without a separator gives a clean bundle name, which therefore stays inside the base directory. |
| VmRegistry.ParentVMNameIsNotClean | example/gui-linux/registry.go:111 | The name `../evil` gives a bundle name that is not clean, so Go resolves its bundle out of the base directory. |
| Cli.RunningVMs.MarkRunning | example/gui-linux/main.go:39-47 | Claiming succeeds exactly when the name was free, and the name is in the set afterwards. |
| Cli.RunningVMs.MarkStopped | example/gui-linux/main.go:49-53 | Exactly that name leaves the set. |
| Cli.RunningVMs.IsRunning | example/gui-linux/main.go:55-59 | A name is running exactly when it is in the set. |
| Cli.GetISOPath | example/gui-linux/main.go:142-149 | The result is the argument after the first `-iso` that has one, or the environment value when none does. |
| Cli.GetNameArg | example/gui-linux/main.go:152-159 | The result is the first argument not starting with `-`, or empty when all are flags. |
| Cli.IsoValueIsTakenAsName | example/gui-linux/main.go:152-159 | For `-iso X`, X is both the ISO and the VM name. |
| Cli.HasForceFlag | example/gui-linux/main.go:212-217 | Force is set exactly when some argument is `--force` or `-f`. |
| Cli.ExpandHome | example/gui-linux/main.go:248-251 | A leading `~/` followed by a clean relative path becomes that path inside the home directory, unchanged. Any other path is returned as it is. |
| Cli.EffectiveISO | example/gui-linux/main.go:254-258 | An explicit ISO wins; the stored one is used only for a disk that is not bootable. The VM needs an install exactly when the result is non-empty. |
| Cli.ClampMaxThenMin | example/gui-linux/main.go:543-549 | The result is at least the minimum and at most a consistent maximum. In range it is the input; above it, the maximum; below it, the minimum. The minimum wins a conflict. |
| Cli.InitialCPUCount | example/gui-linux/main.go:537-541 | The result is the host count minus one and never below 1. A one-CPU host gets 1, and a count of 0 wraps around to the largest `uint`. |
| Cli.ComputeCPUCount | example/gui-linux/main.go:536-551 | The CPU count is the clamped initial count, so it lies within the allowed bounds. |
| Cli.ComputeMemorySize | example/gui-linux/main.go:553-564 | The memory size is 4 GiB clamped, so it lies within the allowed bounds. |
| Cli.CPUCountLeavesOneForHost | example/gui-linux/main.go:536-551 | A host with two or more CPUs, within bounds, keeps one CPU for itself. |
| Cli.Offer | example/gui-linux/main.go:89-92 | A request is queued when the queue is below capacity 10 and dropped otherwise. |
| Cli.OfferKeepsBoundAndOrder | example/gui-linux/main.go:28-31 | Offers never exceed the capacity and never disturb queued requests. |
| Cli.RequestQueue.TrySend | example/gui-linux/main.go:89-92 | The send reports whether there was room and queues exactly as `Offer` does. |
| Cli.RequestQueue.Receive | example/gui-linux/main.go:391 | A receive takes the oldest request. |
| Cli.StartVMGoCallback | example/gui-linux/main.go:86-93 | The callback queues the pair (name, iso). |
| Cli.NewVMFromURLGoCallback | example/gui-linux/main.go:95-102 | The callback queues the pair (iso, name), in that order. |
| Cli.LaunchError | example/gui-linux/main.go:475-507 | There is no error exactly when every step succeeds. Otherwise the result is the first failure, wrapped in its step's context. |
| Cli.CreateAndShowVM | example/gui-linux/main.go:469-511 | An already running name is refused. A failure leaves the set unchanged; success adds the name. |
| Cli.MonitorStateChanges | example/gui-linux/main.go:493-501 | The name is given up at the first Stopped, and kept when no Stopped arrives. |
| Cli.HandleStartRequest | example/gui-linux/main.go:390-426 | An unknown or running VM is skipped, with the set unchanged. Otherwise the VM is launched with the effective ISO, installing exactly when that ISO is non-empty. |
| Cli.HandleCreateRequest | example/gui-linux/main.go:428-467 | A registered or running name is skipped with the registry and its file actions unchanged. Otherwise the entry is added and one save recorded, its bundle created, and the VM launched with the ISO as installer; each failure stops at its step. |
| Cli.NameOrDefault | example/gui-linux/main.go:186-189 | The name is the first non-flag argument, or "default" when there is none; never empty. |
| Cli.Run | example/gui-linux/main.go:161-228 | A registry error, `-install`, each command, its missing-argument errors, help and unknown commands map to their outcomes. |
| Cli.RunStartCommand | example/gui-linux/main.go:235-265 | An unknown or running VM is refused. Otherwise the start request carries the entry, its bundle and the effective ISO after `~/` expansion. |
| Cli.RunCreateCommand | example/gui-linux/main.go:267-299 | A taken name or missing ISO is refused with the registry unchanged, file actions included. Otherwise the entry is added and one save recorded, with add and bundle errors wrapped, and the VM started with the ISO. |
| Cli.RunDeleteCommand | example/gui-linux/main.go:324-351 | Unknown, running or unconfirmed VMs leave the registry unchanged. A confirmed delete records the RemoveAll of the bundle directory; if that fails the list is kept, otherwise the entry is removed and the new list saved, with failures wrapped. |
| Cli.ListStatus | example/gui-linux/main.go:311-314 | The status is "needs boot media" exactly for a non-bootable entry with a stored ISO; otherwise "ready". |
| Scenarios.WindowCallsBeforeStart | virtualization.go:490-531 | Before any window is started, none is reported, and bring-to-front and show fail with their errors. |
| Scenarios.CloseThenShowAgain | virtualization.go:512-524 | A window of any size opens. After it is closed, bring-to-front fails and show restores it. |
| Scenarios.SecondStartKeepsFirstHandle | virtualization.go:466-470 | A second start leaves the first handle live after `finalize`, which deletes only the second. |
| Scenarios.StateReportsAreQueued | virtualization.go:220-231 | Two Running reports are both queued and Running becomes current. |
| Scenarios.PauseReportsCompletionError | virtualization.go:357-363 | Pause returns the completion's error and leaves the live handles unchanged. |
| Scenarios.DisconnectEventsAreEnriched | virtualization.go:577-591 | Events for a configured index and an out-of-range index become a device-tagged and an untagged error, in order. |
| Scenarios.TwoMachinesShareOneTable | virtualization.go:127-168 | Two VMs built on the one shared handle table both stay valid, and the second's handles are new. |

## Left out

**Concurrency and I/O:**

- Goroutines, mutexes and `sync.Once` are replaced by sequential calls and
  boolean once-flags. Interleavings are not modelled. For example, the monitor
  goroutine of `createAndShowVM` is a separate method over the states it
  receives.
- The `watchDisconnected` goroutine runs until it would block. The handler
  goroutines `handleStartVMRequests` and `handleCreateVMRequests` are modelled
  one iteration at a time.
- `infinity.Channel` becomes an unbounded FIFO queue inside the channel object.
  Blocking on an empty channel is a precondition.

**Handles and panics:**

- cgo's handle table is one explicit `HandleTable` object shared by the bridge.
- A cgo panic is a precondition. This covers `Value` or `Delete` of an invalid
  handle, a send on a closed channel, a failed type assertion that is
  dereferenced, and `Error()` on a `DisconnectedError` with neither cause nor
  configuration.

**Native calls:**

- Objective-C calls are not performed. They are recorded in `nativeCalls`, and
  their answers are parameters: `macOSAvailable`, native window presence, and
  the `NSError` a completion delivers.
- Not modelled: `CanStart`/`CanPause`/…, `RequestStop`, `SocketDevices`,
  `USBControllers`, `runEventLoop`/`RunApplication`, the app menus and the
  `CreateWindow` wrapper. These are plain foreign calls or outside the modelled
  source files.
- `StateChangedNotify` is a method that receives the next state
  (`NextStateChange`). The channel object itself is not returned.

**Configuration:**

- The device and configuration builders of `main.go`
  (`createVirtualMachineConfig` and the `create…Configuration` helpers) are not
  modelled. Their combined result is one outcome parameter.
- `runGUIOnly`, `getVMListCallback` and `isVMRunningCallback` are not modelled.
  They are glue to the GUI's menu.
- The window title passed by `createAndShowVM` is covered by
  `TitleAndControllerKeepConfirmDefault`, but its 960×600 size is not.

**Files and formats:**

- File-system effects are taken as outcome parameters or recorded requests:
  `os.MkdirAll`, `os.Stat`, `os.ReadFile`/`WriteFile`, `os.RemoveAll`, the
  disk-image read, and `Bundle.Create`/`Exists`.
- The JSON encoding of the registry is not modelled; `registry.json` holds the
  entry list.
- `time.Now` is an integer parameter.
- The interactive confirmation read from stdin is a parameter.
- Printing is not modelled. That covers usage text, `log` output and the table
  printed by `runListCommand`, of which only the status column is modelled.

**Weaker than the source:**

- JoinPath: models `filepath.Join` without the final `filepath.Clean`. The
  two agree for a clean directory and a name satisfying `CleanRelative`: no
  empty, `.` or `..` component and no leading or trailing separator. That
  holds for the constant file names. It also holds for bundle names of VM
  names without `/` (`PlainVMNameGivesCleanBundle`). VM names and `~/`
  remainders are user input and need not satisfy it. For such inputs the
  model's path is the unclean concatenation, where Go's is cleaned. The
  facts proved about paths are stated only for clean names. The home
  directory is taken to be clean already.
- BundleFor: containment in the base directory is promised only for clean
  bundle names. In Go, `create ../evil` gives a bundle at
  `filepath.Join(base, "../evil.bundle")`, beside the base directory, which
  `delete` then removes (`ParentVMNameIsNotClean`). The model computes the
  uncleaned path for such names.
- BundleForInjective: stated only for clean bundle names. Go maps `a` and
  `x/../a` to one bundle, so `delete x/../a` would remove the bundle of `a`.
  The model does not capture that collision.
- ExpandHome: the result is described only for a clean remainder after
  `~/`. For `~/`, `~//a.iso` or `~/a/../b.iso` Go returns the cleaned path,
  for example `home` itself for `~/`. The model returns
  `home + "/" + rest` uncleaned.
- Quote: models `%q` without Go's escaping of quotes, backslashes and
  non-printable characters.
- StartGraphicApplication: width and height are `real`, standing for Go's
  `float64`. Floating-point rounding is not modelled, and the values are only
  passed through.
- InitialCPUCount: treats `runtime.NumCPU` as any integer. The 64-bit
  wrap-around of `uint(n - 1)` is written out.
