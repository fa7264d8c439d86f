/** The command-line front end of the gui-linux example
    (example/gui-linux/main.go): the set of running VM names, the argument
    scanners, the ISO fallback rule, the CPU and memory clamps, the two
    bounded menu-request queues and their handlers, `createAndShowVM`, and
    the dispatch of `run()`. Environment variables, the home directory,
    file-system checks and the outcomes of the framework calls are
    parameters. */
module Cli {
  import opened Wrappers
  import opened Errors
  import opened Paths
  import opened VzTypes
  import opened Bundles
  import opened VmRegistry

  // ---- the running-VM set ----

  /** `runningVMs`: names mapped to true, held as the set of those names
      (`delete` removes the key, so no name is ever mapped to false). */
  class RunningVMs {
    var names: set<string>

    constructor ()
      ensures names == {}
    {
      names := {};
    }

    /** `markRunning(name)`: claims the name if it is free. */
    method MarkRunning(name: string) returns (marked: bool)
      modifies this
      ensures marked <==> name !in old(names)
      ensures names == old(names) + {name}
    {
      if name in names {
        marked := false;
      } else {
        names := names + {name};
        marked := true;
      }
    }

    /** `markStopped(name)`. */
    method MarkStopped(name: string)
      modifies this
      ensures names == old(names) - {name}
    {
      names := names - {name};
    }

    /** `isRunning(name)`. */
    function IsRunning(name: string): (running: bool)
      reads this
      ensures running <==> name in names
    {
      name in names
    }
  }

  // ---- argument scanners ----

  /** `i` is the first position holding "-iso" with an argument after it. */
  ghost predicate FirstIsoFlag(args: seq<string>, i: int)
  {
    && 0 <= i < |args| - 1 && args[i] == "-iso"
    && forall j :: 0 <= j < i ==> args[j] != "-iso"
  }

  /** `getISOPath(args)`: the argument after the first "-iso" that has
      one, and otherwise the value of the ISO environment variable
      (`env`). */
  function GetISOPath(args: seq<string>, env: string): (r: string)
    ensures forall i :: FirstIsoFlag(args, i) ==> r == args[i + 1]
    ensures (forall i :: 0 <= i < |args| - 1 ==> args[i] != "-iso") ==> r == env
    decreases |args|
  {
    if args == [] then env
    else if args[0] == "-iso" && 1 < |args| then args[1]
    else
      var r := GetISOPath(args[1..], env);
      assert forall i :: FirstIsoFlag(args, i) ==> i > 0 && FirstIsoFlag(args[1..], i - 1);
      r
  }

  /** `i` is the first position holding an argument that is not a flag. */
  ghost predicate FirstNonFlag(args: seq<string>, i: int)
  {
    && 0 <= i < |args| && !HasPrefix(args[i], "-")
    && forall j :: 0 <= j < i ==> HasPrefix(args[j], "-")
  }

  /** `getNameArg(args)`: the first argument not starting with "-", or ""
      when every argument is a flag. */
  function GetNameArg(args: seq<string>): (r: string)
    ensures forall i :: FirstNonFlag(args, i) ==> r == args[i]
    ensures (forall i :: 0 <= i < |args| ==> HasPrefix(args[i], "-")) ==> r == ""
    decreases |args|
  {
    if args == [] then ""
    else if !HasPrefix(args[0], "-") then args[0]
    else
      var r := GetNameArg(args[1..]);
      assert forall i :: FirstNonFlag(args, i) ==> i > 0 && FirstNonFlag(args[1..], i - 1);
      r
  }

  /** The value after "-iso" is not a flag, so it is taken as the VM name:
      `create -iso boot.iso` creates a VM called "boot.iso" with that ISO,
      not the "default" VM the usage text describes. */
  lemma IsoValueIsTakenAsName(iso: string, env: string)
    requires !HasPrefix(iso, "-")
    ensures GetNameArg(["-iso", iso]) == iso
    ensures GetISOPath(["-iso", iso], env) == iso
  {
    assert FirstNonFlag(["-iso", iso], 1);
    assert FirstIsoFlag(["-iso", iso], 0);
  }

  /** The `--force`/`-f` scan of the `delete` command. */
  method HasForceFlag(args: seq<string>) returns (force: bool)
    ensures force <==> exists i :: 0 <= i < |args| && (args[i] == "--force" || args[i] == "-f")
  {
    force := false;
    for i := 0 to |args|
      invariant force <==> exists j :: 0 <= j < i && (args[j] == "--force" || args[j] == "-f")
    {
      if args[i] == "--force" || args[i] == "-f" {
        force := true;
      }
    }
  }

  /** The expansion of a leading "~/" in `runStartCommand` and
      `runCreateCommand`: the rest of the path joined to the home
      directory. When that rest is clean it is kept as it is. */
  function ExpandHome(path: string, home: string): (r: string)
    ensures !HasPrefix(path, "~/") ==> r == path
    ensures HasPrefix(path, "~/") && CleanRelative(path[2..]) ==>
      HasPrefix(r, home) && |path| - 2 <= |r| && r[|r| - (|path| - 2)..] == path[2..]
  {
    if HasPrefix(path, "~/") then JoinPath(home, path[2..]) else path
  }

  /** The ISO a start uses: the one asked for, or else the entry's stored
      ISO when the disk does not look bootable yet. The VM boots its
      installer (`needsInstall`) exactly when the result is not empty. */
  function EffectiveISO(isoPath: string, stored: string, bootable: bool): (r: string)
    ensures isoPath != "" ==> r == isoPath
    ensures isoPath == "" && stored != "" && !bootable ==> r == stored
    ensures isoPath == "" && (stored == "" || bootable) ==> r == ""
    ensures r != "" <==> isoPath != "" || (stored != "" && !bootable)
  {
    if isoPath == "" && stored != "" && !bootable then stored else isoPath
  }

  // ---- resource clamps ----

  const Uint64Modulus := 0x1_0000_0000_0000_0000
  type uint64 = x: int | 0 <= x < Uint64Modulus

  /** 4 GiB, the memory `computeMemorySize` starts from. */
  const DefaultMemorySize: uint64 := 4 * 1024 * 1024 * 1024

  /** Lower a value to `max`, then raise it to `min`: when the bounds
      conflict, the minimum wins. */
  function ClampMaxThenMin(v: uint64, max: uint64, min: uint64): (r: uint64)
    ensures r >= min
    ensures min <= max ==> r <= max
    ensures min <= v <= max ==> r == v
    ensures min <= max < v ==> r == max
    ensures v < min <= max ==> r == min
    ensures max < min ==> r == min
  {
    var lowered := if v > max then max else v;
    if lowered < min then min else lowered
  }

  /** The starting CPU count: one less than the host's, as Go's `uint`
      conversion gives it (a 64-bit wrap-around), and at least 1. */
  function InitialCPUCount(numCPU: int): (r: uint64)
    ensures r >= 1
    ensures numCPU == 1 ==> r == 1
    ensures numCPU == 0 ==> r == Uint64Modulus - 1
    ensures numCPU >= 2 && numCPU - 1 < Uint64Modulus ==> r == numCPU - 1
  {
    var v := (numCPU - 1) % Uint64Modulus;
    if v <= 1 then 1 else v
  }

  /** `computeCPUCount()`. */
  method ComputeCPUCount(numCPU: int, maxAllowed: uint64, minAllowed: uint64) returns (count: uint64)
    ensures count == ClampMaxThenMin(InitialCPUCount(numCPU), maxAllowed, minAllowed)
    ensures count >= minAllowed && (minAllowed <= maxAllowed ==> count <= maxAllowed)
  {
    var virtualCPUCount: uint64 := (numCPU - 1) % Uint64Modulus;
    if virtualCPUCount <= 1 {
      virtualCPUCount := 1;
    }
    if virtualCPUCount > maxAllowed {
      virtualCPUCount := maxAllowed;
    }
    if virtualCPUCount < minAllowed {
      virtualCPUCount := minAllowed;
    }
    count := virtualCPUCount;
  }

  /** `computeMemorySize()`. */
  method ComputeMemorySize(maxAllowed: uint64, minAllowed: uint64) returns (size: uint64)
    ensures size == ClampMaxThenMin(DefaultMemorySize, maxAllowed, minAllowed)
    ensures size >= minAllowed && (minAllowed <= maxAllowed ==> size <= maxAllowed)
  {
    size := DefaultMemorySize;
    if size > maxAllowed {
      size := maxAllowed;
    }
    if size < minAllowed {
      size := minAllowed;
    }
  }

  /** A host with two or more CPUs, within the allowed range, keeps one
      CPU for itself. */
  lemma CPUCountLeavesOneForHost(numCPU: int, maxAllowed: uint64, minAllowed: uint64)
    requires 2 <= numCPU && minAllowed <= numCPU - 1 <= maxAllowed
    ensures ClampMaxThenMin(InitialCPUCount(numCPU), maxAllowed, minAllowed) == numCPU - 1
  {
  }

  // ---- menu request queues ----

  /** The capacity of `createVMCh` and `startVMCh`. */
  const RequestCapacity := 10

  /** The pending requests after a non-blocking send (`select` with a
      `default` case): the request is queued when there is room and
      dropped otherwise. */
  function Offer(pending: seq<(string, string)>, request: (string, string)): (r: seq<(string, string)>)
    ensures |pending| < RequestCapacity ==> r == pending + [request]
    ensures |pending| >= RequestCapacity ==> r == pending
  {
    if |pending| < RequestCapacity then pending + [request] else pending
  }

  /** Offers never overfill a queue and never disturb the requests
      already in it. */
  lemma OfferKeepsBoundAndOrder(pending: seq<(string, string)>, request: (string, string))
    requires |pending| <= RequestCapacity
    ensures |Offer(pending, request)| <= RequestCapacity
    ensures Offer(pending, request)[..|pending|] == pending
  {
  }

  /** A buffered channel of (string, string) requests. */
  class RequestQueue {
    var pending: seq<(string, string)>

    ghost predicate Valid()
      reads this
    {
      |pending| <= RequestCapacity
    }

    constructor ()
      ensures pending == [] && Valid()
    {
      pending := [];
    }

    /** The non-blocking send. */
    method TrySend(request: (string, string)) returns (queued: bool)
      requires Valid()
      modifies this
      ensures queued <==> |old(pending)| < RequestCapacity
      ensures pending == Offer(old(pending), request)
      ensures Valid()
    {
      if |pending| < RequestCapacity {
        pending := pending + [request];
        queued := true;
      } else {
        queued := false;
      }
    }

    /** A receive: the oldest pending request. */
    method Receive() returns (request: (string, string))
      requires Valid() && pending != []
      modifies this
      ensures request == old(pending)[0] && pending == old(pending)[1..]
      ensures Valid()
    {
      request := pending[0];
      pending := pending[1..];
    }
  }

  /** `startVMGoCallback(vmName, isoPath)`: queues (name, iso). */
  method StartVMGoCallback(startQueue: RequestQueue, vmName: string, isoPath: string)
    requires startQueue.Valid()
    modifies startQueue
    ensures startQueue.pending == Offer(old(startQueue.pending), (vmName, isoPath))
    ensures startQueue.Valid()
  {
    var _ := startQueue.TrySend((vmName, isoPath));
  }

  /** `newVMFromURLGoCallback(isoPath, vmName)`: queues (iso, name), the
      other order. */
  method NewVMFromURLGoCallback(createQueue: RequestQueue, isoPath: string, vmName: string)
    requires createQueue.Valid()
    modifies createQueue
    ensures createQueue.pending == Offer(old(createQueue.pending), (isoPath, vmName))
    ensures createQueue.Valid()
  {
    var _ := createQueue.TrySend((isoPath, vmName));
  }

  // ---- starting a VM ----

  /** What the framework calls of `createAndShowVM` report: building the
      configuration, `vz.NewVirtualMachine`, `Start` and `CreateWindow`. */
  datatype LaunchOutcomes = LaunchOutcomes(config: Option<Error>, newVM: Option<Error>,
                                           start: Option<Error>, window: Option<Error>)

  function AlreadyRunningError(name: string): Error { Message("VM " + Quote(name) + " is already running") }

  /** The error `createAndShowVM` returns once the name was claimed: the
      first failing step, wrapped in its context. */
  function LaunchError(o: LaunchOutcomes): (r: Option<Error>)
    ensures r.None? <==> o.config.None? && o.newVM.None? && o.start.None? && o.window.None?
    ensures o.config.Some? ==> r == Some(Wrapped("failed to create VM config", o.config.value))
    ensures o.config.None? && o.newVM.Some? ==> r == Some(Wrapped("failed to create VM", o.newVM.value))
    ensures o.config.None? && o.newVM.None? && o.start.Some? ==> r == Some(Wrapped("failed to start VM", o.start.value))
    ensures o.config.None? && o.newVM.None? && o.start.None? && o.window.Some? ==>
      r == Some(Wrapped("failed to create window", o.window.value))
  {
    if o.config.Some? then Some(Wrapped("failed to create VM config", o.config.value))
    else if o.newVM.Some? then Some(Wrapped("failed to create VM", o.newVM.value))
    else if o.start.Some? then Some(Wrapped("failed to start VM", o.start.value))
    else if o.window.Some? then Some(Wrapped("failed to create window", o.window.value))
    else None
  }

  /** `createAndShowVM(...)`: a name already running is refused with the
      set untouched; otherwise the name is claimed, and every later
      failure gives it up again, so the name stays in the set only when
      the VM was started and its window created. */
  method CreateAndShowVM(running: RunningVMs, title: string, outcomes: LaunchOutcomes) returns (err: Option<Error>)
    modifies running
    ensures title in old(running.names) ==> err == Some(AlreadyRunningError(title)) && running.names == old(running.names)
    ensures title !in old(running.names) ==> err == LaunchError(outcomes)
    ensures err.Some? ==> running.names == old(running.names)
    ensures err.None? ==> running.names == old(running.names) + {title} && title !in old(running.names)
  {
    var marked := running.MarkRunning(title);
    if !marked {
      return Some(AlreadyRunningError(title));
    }
    err := LaunchError(outcomes);
    if err.Some? {
      running.MarkStopped(title);
    }
  }

  /** The monitor goroutine of `createAndShowVM`, over the state values
      it receives: the name is given up at the first Stopped, and not
      before. */
  method MonitorStateChanges(running: RunningVMs, title: string, states: seq<int>)
    modifies running
    ensures (exists i :: 0 <= i < |states| && states[i] == StateCode(StateStopped)) ==> running.names == old(running.names) - {title}
    ensures (forall i :: 0 <= i < |states| ==> states[i] != StateCode(StateStopped)) ==> running.names == old(running.names)
  {
    for i := 0 to |states|
      invariant forall j :: 0 <= j < i ==> states[j] != StateCode(StateStopped)
      invariant running.names == old(running.names)
    {
      if states[i] == StateCode(StateStopped) {
        running.MarkStopped(title);
        return;
      }
    }
  }

  /** How one menu request was handled. */
  datatype RequestOutcome =
    | RegistryUnavailable
    | UnknownVM
    | AlreadyRegistered
    | AlreadyRunning
    | EntryFailed(entryError: Error)
    | BundleFailed(bundleError: Error)
    | Launched(entry: VMEntry, isoPath: string, needsInstall: bool, result: Option<Error>)

  /** One iteration of `handleStartVMRequests` for the request
      (name, iso), with `registry` the freshly loaded registry (null when
      loading failed) and `bootable` what `HasBootableDisk` says of the
      entry's bundle. */
  method HandleStartRequest(request: (string, string), registry: Registry?, running: RunningVMs,
                            bootable: bool, outcomes: LaunchOutcomes)
    returns (o: RequestOutcome)
    modifies running
    ensures registry == null ==> o == RegistryUnavailable
    ensures registry != null && FirstIndex(registry.vms, request.0).None? ==> o == UnknownVM
    ensures registry != null && FirstIndex(registry.vms, request.0).Some? && request.0 in old(running.names) ==>
      o == AlreadyRunning
    ensures o.Launched? <==>
      registry != null && FirstIndex(registry.vms, request.0).Some? && request.0 !in old(running.names)
    ensures o.Launched? ==>
      var entry := registry.vms[FirstIndex(registry.vms, request.0).value];
      && o.entry == entry
      && o.isoPath == EffectiveISO(request.1, entry.isoPath, bootable)
      && o.needsInstall == (o.isoPath != "")
      && o.result == LaunchError(outcomes)
      && running.names == old(running.names) + (if o.result.None? then {request.0} else {})
    ensures !o.Launched? ==> running.names == old(running.names)
  {
    var (vmName, isoPath) := request;
    if registry == null {
      return RegistryUnavailable;
    }
    var idx := registry.Find(vmName);
    if idx.None? {
      return UnknownVM;
    }
    var entry := registry.vms[idx.value];
    if running.IsRunning(vmName) {
      return AlreadyRunning;
    }
    var effectiveISO := EffectiveISO(isoPath, entry.isoPath, bootable);
    var err := CreateAndShowVM(running, entry.name, outcomes);
    o := Launched(entry, effectiveISO, effectiveISO != "", err);
  }

  /** One iteration of `handleCreateVMRequests` for the request
      (iso, name): a name already registered or running is skipped; the
      entry is added (`now` and `writeError` for `Add`), its bundle
      directory created (`mkdirError`), and the VM started with the ISO
      as installer. */
  method HandleCreateRequest(request: (string, string), registry: Registry?, running: RunningVMs,
                             now: int, writeError: Option<Error>, mkdirError: Option<Error>,
                             outcomes: LaunchOutcomes)
    returns (o: RequestOutcome)
    modifies running, registry
    ensures registry == null ==> o == RegistryUnavailable
    ensures registry != null && FirstIndex(old(registry.vms), request.1).Some? ==> o == AlreadyRegistered
    ensures registry != null && FirstIndex(old(registry.vms), request.1).None? && request.1 in old(running.names) ==>
      o == AlreadyRunning
    ensures registry != null && (FirstIndex(old(registry.vms), request.1).Some? || request.1 in old(running.names)) ==>
      registry.vms == old(registry.vms) && registry.fileActions == old(registry.fileActions)
    ensures registry != null && FirstIndex(old(registry.vms), request.1).None? && request.1 !in old(running.names) ==>
      var e := VMEntry(request.1, request.1 + BundleSuffix, request.0, now);
      && (writeError.Some? ==> o == EntryFailed(WriteError(writeError.value)) && registry.vms == old(registry.vms))
      && (writeError.None? ==> registry.vms == old(registry.vms) + [e])
      && registry.fileActions == old(registry.fileActions) + [SaveAction(old(registry.vms) + [e])]
      && (writeError.None? && mkdirError.Some? ==> o == BundleFailed(mkdirError.value))
      && (writeError.None? && mkdirError.None? ==> o == Launched(e, request.0, true, LaunchError(outcomes)))
    ensures o.Launched? ==> running.names == old(running.names) + (if o.result.None? then {request.1} else {})
    ensures !o.Launched? ==> running.names == old(running.names)
    ensures registry != null && !o.EntryFailed? && !o.BundleFailed? && !o.Launched? ==>
      registry.vms == old(registry.vms) && registry.fileActions == old(registry.fileActions)
  {
    var (isoPath, vmName) := request;
    if registry == null {
      return RegistryUnavailable;
    }
    var exists_ := registry.Exists(vmName);
    if exists_ {
      return AlreadyRegistered;
    }
    if running.IsRunning(vmName) {
      return AlreadyRunning;
    }
    var added := registry.Add(vmName, isoPath, now, writeError);
    if added.Err? {
      return EntryFailed(added.error);
    }
    if mkdirError.Some? {
      return BundleFailed(mkdirError.value);
    }
    var err := CreateAndShowVM(running, added.value.name, outcomes);
    o := Launched(added.value, isoPath, true, err);
  }

  // ---- commands ----

  /** What `run()` goes on to do. */
  datatype Command =
    | OpenGUIOnly
    | StartCommand(name: string, isoPath: string)
    | CreateCommand(name: string, isoPath: string)
    | ListCommand
    | DeleteCommand(name: string, force: bool)
    | ShowHelp

  const MissingInstallerText := "must specify INSTALLER_ISO_PATH env with -install"
  const ISORequiredText := "ISO required: use -iso <path> or set ISO env var"

  /** The name a `start` or `create` command acts on. */
  function NameOrDefault(args: seq<string>): (name: string)
    ensures name != ""
    ensures GetNameArg(args) != "" ==> name == GetNameArg(args)
    ensures GetNameArg(args) == "" ==> name == DefaultVMName
  {
    var n := GetNameArg(args);
    if n == "" then DefaultVMName else n
  }

  /** `run()` up to the command it hands over to, given `os.Args`, the ISO
      and INSTALLER_ISO_PATH environment values, and the outcome of
      loading the registry. */
  method Run(argv: seq<string>, isoEnv: string, installerEnv: string, loadError: Option<Error>)
    returns (r: Result<Command, Error>)
    ensures loadError.Some? ==> r == Err(Wrapped("failed to load registry", loadError.value))
    ensures loadError.None? && |argv| < 2 ==> r == Ok(OpenGUIOnly)
    ensures loadError.None? && |argv| >= 2 ==>
      var cmd, args := argv[1], argv[2..];
      && (cmd == "-install" ==>
            r == if installerEnv == "" then Err(Message(MissingInstallerText)) else Ok(StartCommand(DefaultVMName, installerEnv)))
      && (cmd == "start" ==> r == Ok(StartCommand(NameOrDefault(args), GetISOPath(args, isoEnv))))
      && (cmd == "create" ==>
            r == if GetISOPath(args, isoEnv) == "" then Err(Message(ISORequiredText))
                 else Ok(CreateCommand(NameOrDefault(args), GetISOPath(args, isoEnv))))
      && (cmd == "list" ==> r == Ok(ListCommand))
      && (cmd == "delete" && GetNameArg(args) == "" ==>
            r == Err(Message("usage: " + argv[0] + " delete <name> [--force]")))
      && (cmd == "delete" && GetNameArg(args) != "" ==>
            r.Ok? && r.value.DeleteCommand? && r.value.name == GetNameArg(args) &&
            (r.value.force <==> exists i :: 0 <= i < |args| && (args[i] == "--force" || args[i] == "-f")))
      && (cmd in {"-h", "--help", "help"} ==> r == Ok(ShowHelp))
      && (cmd !in {"-install", "start", "create", "list", "delete", "-h", "--help", "help"} ==>
            r == Err(Message("unknown command: " + cmd)))
  {
    if loadError.Some? {
      return Err(Wrapped("failed to load registry", loadError.value));
    }
    if |argv| < 2 {
      return Ok(OpenGUIOnly);
    }
    var cmd, args := argv[1], argv[2..];
    if cmd == "-install" {
      if installerEnv == "" {
        return Err(Message(MissingInstallerText));
      }
      return Ok(StartCommand(DefaultVMName, installerEnv));
    }
    if cmd == "start" {
      r := Ok(StartCommand(NameOrDefault(args), GetISOPath(args, isoEnv)));
    } else if cmd == "create" {
      var iso := GetISOPath(args, isoEnv);
      if iso == "" {
        r := Err(Message(ISORequiredText));
      } else {
        r := Ok(CreateCommand(NameOrDefault(args), iso));
      }
    } else if cmd == "list" {
      r := Ok(ListCommand);
    } else if cmd == "delete" {
      var name := GetNameArg(args);
      if name == "" {
        r := Err(Message("usage: " + argv[0] + " delete <name> [--force]"));
      } else {
        var force := HasForceFlag(args);
        r := Ok(DeleteCommand(name, force));
      }
    } else if cmd == "-h" || cmd == "--help" || cmd == "help" {
      r := Ok(ShowHelp);
    } else {
      r := Err(Message("unknown command: " + cmd));
    }
  }

  /** `vmStartRequest`: the VM the event loop starts first. */
  datatype VMStartRequest = VMStartRequest(entry: VMEntry, bundle: Bundle, isoPath: string)

  /** `runStartCommand(registry, name, isoPath)` up to the event loop,
      with `bootable` what `HasBootableDisk` says of the entry's bundle. */
  method RunStartCommand(registry: Registry, running: RunningVMs, name: string, isoPath: string,
                         home: string, bootable: bool)
    returns (r: Result<VMStartRequest, Error>)
    ensures FirstIndex(registry.vms, name).None? ==>
      r == Err(Message("VM " + Quote(name) + " not found. Use 'create' to create it"))
    ensures FirstIndex(registry.vms, name).Some? && name in running.names ==> r == Err(AlreadyRunningError(name))
    ensures r.Ok? <==> FirstIndex(registry.vms, name).Some? && name !in running.names
    ensures r.Ok? ==>
      var entry := registry.vms[FirstIndex(registry.vms, name).value];
      r.value == VMStartRequest(entry, registry.BundleFor(entry), EffectiveISO(ExpandHome(isoPath, home), entry.isoPath, bootable))
  {
    var idx := registry.Find(name);
    if idx.None? {
      return Err(Message("VM " + Quote(name) + " not found. Use 'create' to create it"));
    }
    if running.IsRunning(name) {
      return Err(AlreadyRunningError(name));
    }
    var entry := registry.vms[idx.value];
    var bundle := registry.BundleFor(entry);
    var iso := ExpandHome(isoPath, home);
    r := Ok(VMStartRequest(entry, bundle, EffectiveISO(iso, entry.isoPath, bootable)));
  }

  /** `runCreateCommand(registry, name, isoPath)` up to the event loop:
      `isoExists` is false exactly when `os.Stat` of the expanded ISO
      path reports that it does not exist (any other `Stat` failure lets
      creation go on), `now` and
      `writeError` go to `Add`, `mkdirError` is the outcome of creating
      the bundle directory. */
  method RunCreateCommand(registry: Registry, name: string, isoPath: string, home: string, isoExists: bool,
                          now: int, writeError: Option<Error>, mkdirError: Option<Error>)
    returns (r: Result<VMStartRequest, Error>)
    modifies registry
    ensures FirstIndex(old(registry.vms), name).Some? ==> r == Err(AlreadyExistsError(name)) && unchanged(registry)
    ensures FirstIndex(old(registry.vms), name).None? && !isoExists ==>
      r == Err(Message("ISO not found: " + ExpandHome(isoPath, home))) && unchanged(registry)
    ensures FirstIndex(old(registry.vms), name).None? && isoExists ==>
      var e := VMEntry(name, name + BundleSuffix, ExpandHome(isoPath, home), now);
      && (writeError.Some? ==> r == Err(Wrapped("failed to create VM", WriteError(writeError.value))) && registry.vms == old(registry.vms))
      && (writeError.None? ==> registry.vms == old(registry.vms) + [e])
      && registry.fileActions == old(registry.fileActions) + [SaveAction(old(registry.vms) + [e])]
      && (writeError.None? && mkdirError.Some? ==> r == Err(Wrapped("failed to create bundle", mkdirError.value)))
      && (writeError.None? && mkdirError.None? ==> r == Ok(VMStartRequest(e, registry.BundleFor(e), e.isoPath)))
  {
    var exists_ := registry.Exists(name);
    if exists_ {
      return Err(AlreadyExistsError(name));
    }
    var iso := ExpandHome(isoPath, home);
    if !isoExists {
      return Err(Message("ISO not found: " + iso));
    }
    var added := registry.Add(name, iso, now, writeError);
    if added.Err? {
      return Err(Wrapped("failed to create VM", added.error));
    }
    var bundle := registry.BundleFor(added.value);
    if mkdirError.Some? {
      return Err(Wrapped("failed to create bundle", mkdirError.value));
    }
    r := Ok(VMStartRequest(added.value, bundle, iso));
  }

  /** `runDeleteCommand(registry, name, force)`: an unknown or running VM
      is refused; a confirmation other than "yes" cancels; otherwise the
      entry and its bundle are removed. */
  method RunDeleteCommand(registry: Registry, running: RunningVMs, name: string, force: bool, confirm: string,
                          removeError: Option<Error>, writeError: Option<Error>)
    returns (err: Option<Error>)
    modifies registry
    ensures FirstIndex(old(registry.vms), name).None? ==> err == Some(NotFoundError(name)) && unchanged(registry)
    ensures FirstIndex(old(registry.vms), name).Some? && name in running.names && !force ==>
      err == Some(Message("VM " + Quote(name) + " is running. Use --force to stop and delete")) && unchanged(registry)
    ensures FirstIndex(old(registry.vms), name).Some? && name in running.names && force ==>
      err == Some(Message("VM " + Quote(name) + " is running in another process. Stop it first or use the GUI")) && unchanged(registry)
    ensures FirstIndex(old(registry.vms), name).Some? && name !in running.names && confirm != "yes" ==>
      err == None && unchanged(registry)
    ensures FirstIndex(old(registry.vms), name).Some? && name !in running.names && confirm == "yes" ==>
      var i := FirstIndex(old(registry.vms), name).value;
      var bundleAction := RemoveAllAction(JoinPath(registry.baseDirectory, old(registry.vms)[i].bundleName));
      && (removeError.Some? ==>
            && registry.vms == old(registry.vms)
            && registry.fileActions == old(registry.fileActions) + [bundleAction]
            && err == Some(Wrapped("failed to delete VM", Wrapped("failed to delete bundle", removeError.value))))
      && (removeError.None? ==>
            && registry.vms == RemoveAt(old(registry.vms), i)
            && registry.fileActions == old(registry.fileActions) + [bundleAction, SaveAction(registry.vms)]
            && (err.Some? <==> writeError.Some?)
            && (writeError.Some? ==> err == Some(Wrapped("failed to delete VM", WriteError(writeError.value)))))
  {
    var exists_ := registry.Exists(name);
    if !exists_ {
      return Some(NotFoundError(name));
    }
    if running.IsRunning(name) {
      if !force {
        return Some(Message("VM " + Quote(name) + " is running. Use --force to stop and delete"));
      }
      return Some(Message("VM " + Quote(name) + " is running in another process. Stop it first or use the GUI"));
    }
    if confirm != "yes" {
      return None;
    }
    var e := registry.Remove(name, true, removeError, writeError);
    if e.Some? {
      return Some(Wrapped("failed to delete VM", e.value));
    }
    return None;
  }

  /** The status `runListCommand` shows for an entry. */
  function ListStatus(entry: VMEntry, bootable: bool): (s: string)
    ensures s == "ready" || s == "needs boot media"
    ensures s == "needs boot media" <==> !bootable && entry.isoPath != ""
  {
    if !bootable && entry.isoPath != "" then "needs boot media" else "ready"
  }
}
