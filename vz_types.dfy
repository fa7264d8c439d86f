/** Value types of the `vz` package's control bridge (virtualization.go):
    execution states, the option closures of `Start` and
    `StartGraphicApplication`, raw disconnect events and `DisconnectedError`. */
module VzTypes {
  import opened Wrappers
  import opened Errors

  /** `VirtualMachineState`, declared with `iota`, so each constant's code is
      its position in this list. */
  datatype VirtualMachineState =
    | StateStopped | StateRunning | StatePaused | StateError | StateStarting
    | StatePausing | StateResuming | StateStopping | StateSaving | StateRestoring

  /** The integer value of a state constant. */
  function StateCode(s: VirtualMachineState): (c: int)
    ensures 0 <= c < 10
    ensures s == StateStopped <==> c == 0
  {
    match s
    case StateStopped => 0
    case StateRunning => 1
    case StatePaused => 2
    case StateError => 3
    case StateStarting => 4
    case StatePausing => 5
    case StateResuming => 6
    case StateStopping => 7
    case StateSaving => 8
    case StateRestoring => 9
  }

  /** The named constant a raw code stands for, if any: Go converts every
      `C.int` to a `VirtualMachineState`, named or not. */
  function StateOfCode(c: int): (r: Option<VirtualMachineState>)
    ensures r.Some? <==> 0 <= c < 10
    ensures r.Some? ==> StateCode(r.value) == c
  {
    if c == 0 then Some(StateStopped)
    else if c == 1 then Some(StateRunning)
    else if c == 2 then Some(StatePaused)
    else if c == 3 then Some(StateError)
    else if c == 4 then Some(StateStarting)
    else if c == 5 then Some(StatePausing)
    else if c == 6 then Some(StateResuming)
    else if c == 7 then Some(StateStopping)
    else if c == 8 then Some(StateSaving)
    else if c == 9 then Some(StateRestoring)
    else None
  }

  /** Decoding the code of a constant gives the constant back. */
  lemma StateCodeRoundTrip(s: VirtualMachineState)
    ensures StateOfCode(StateCode(s)) == Some(s)
  {
  }

  /** A functional option: Go's `func(*opts) error`, as a closure from the
      options record to the updated record or the error it reports. */
  type OptionFunc<!O> = O -> Result<O, Error>

  /** Apply options left to right, stopping at the first one that fails
      (the `for _, opt := range opts` loops of `Start` and
      `StartGraphicApplication`). */
  function ApplyAll<O>(opts: seq<OptionFunc<O>>, o: O): (r: Result<O, Error>)
    decreases |opts|
  {
    if opts == [] then Ok(o)
    else match opts[0](o)
      case Err(e) => Err(e)
      case Ok(o') => ApplyAll(opts[1..], o')
  }

  /** Applying a concatenation applies the first part, then the second. */
  lemma {:induction false} ApplyAllAppend<O>(a: seq<OptionFunc<O>>, b: seq<OptionFunc<O>>, o: O)
    ensures ApplyAll(a + b, o) ==
      match ApplyAll(a, o)
      case Err(e) => Err(e)
      case Ok(o') => ApplyAll(b, o')
    decreases |a|
  {
    if a == [] {
      assert a + b == b;
    } else {
      assert (a + b)[0] == a[0];
      assert (a + b)[1..] == a[1..] + b;
      match a[0](o)
      case Err(e) =>
      case Ok(o') => ApplyAllAppend(a[1..], b, o');
    }
  }

  /** Options that never fail cannot make the whole application fail. */
  lemma {:induction false} ApplyAllNeverFails<O>(opts: seq<OptionFunc<O>>, o: O)
    requires forall i, x :: 0 <= i < |opts| ==> opts[i](x).Ok?
    ensures ApplyAll(opts, o).Ok?
    decreases |opts|
  {
    if opts != [] {
      assert opts[0](o).Ok?;
      ApplyAllNeverFails(opts[1..], opts[0](o).value);
    }
  }

  /** `virtualMachineStartOptions`: whether a macOS start-options object was
      attached (its pointer is non-nil). */
  datatype StartOptions = StartOptions(hasMacOSOptions: bool)

  /** `startGraphicApplicationOptions`. */
  datatype GraphicOptions = GraphicOptions(title: string, enableController: bool, confirmStopOnClose: bool)

  /** The record `StartGraphicApplication` starts from: empty title, no
      controller, and a confirmation dialog on close. */
  const DefaultGraphicOptions := GraphicOptions("", false, true)

  /** `WithWindowTitle(title)`. */
  function WithWindowTitle(title: string): (f: OptionFunc<GraphicOptions>)
    ensures forall o :: f(o) == Ok(o.(title := title))
  {
    (o: GraphicOptions) => Ok(o.(title := title))
  }

  /** `WithController(enable)`. */
  function WithController(enable: bool): (f: OptionFunc<GraphicOptions>)
    ensures forall o :: f(o) == Ok(o.(enableController := enable))
  {
    (o: GraphicOptions) => Ok(o.(enableController := enable))
  }

  /** `WithConfirmStopOnClose(enable)`. */
  function WithConfirmStopOnClose(enable: bool): (f: OptionFunc<GraphicOptions>)
    ensures forall o :: f(o) == Ok(o.(confirmStopOnClose := enable))
  {
    (o: GraphicOptions) => Ok(o.(confirmStopOnClose := enable))
  }

  /** The options `createAndShowVM` passes (a title and the toolbar
      controller) keep the close-confirmation default. */
  lemma TitleAndControllerKeepConfirmDefault(title: string, enable: bool)
    ensures ApplyAll([WithWindowTitle(title), WithController(enable)], DefaultGraphicOptions)
         == Ok(GraphicOptions(title, enable, true))
  {
    var opts := [WithWindowTitle(title), WithController(enable)];
    var o1 := DefaultGraphicOptions.(title := title);
    var o2 := o1.(enableController := enable);
    assert opts[0](DefaultGraphicOptions) == Ok(o1);
    assert opts[1..] == [WithController(enable)];
    assert opts[1..][0](o1) == Ok(o2);
    assert opts[1..][1..] == [];
    assert ApplyAll(opts[1..][1..], o2) == Ok(o2);
    assert ApplyAll(opts[1..], o1) == Ok(o2);
  }

  /** A network device configuration, identified by the text `%s` prints for
      its attachment. */
  datatype NetworkDeviceConfiguration = NetworkDeviceConfiguration(attachment: string)

  /** The `disconnected` record the runtime callback emits. */
  datatype Disconnected = Disconnected(err: Option<Error>, index: int)

  /** `DisconnectedError`: the cause, and the device configuration it was
      resolved to (nil when the index does not resolve). */
  datatype DisconnectedError = DisconnectedError(err: Option<Error>, config: Option<NetworkDeviceConfiguration>)
  {
    /** `Unwrap()`: the cause, nil when there is none. */
    function Unwrap(): (r: Option<Error>)
      ensures r == err
    {
      err
    }

    /** `Error()`: the cause's own text when no configuration is known,
        otherwise the attachment, a colon and the cause as `%v` prints it.
        Without a configuration it calls `Err.Error()`, which on a nil cause
        is a nil dereference, so that case is excluded. */
    function ErrorText(): (s: string)
      requires config.Some? || err.Some?
      ensures config.None? ==> s == err.value.Text()
      ensures config.Some? ==>
        var p := config.value.attachment + ": ";
        |p| <= |s| && s[..|p|] == p && s[|p|..] == OptionText(err)
      ensures |OptionText(err)| <= |s| && s[|s| - |OptionText(err)|..] == OptionText(err)
    {
      if config.None? then err.value.Text()
      else config.value.attachment + ": " + OptionText(err)
    }
  }

  /** `sliceutil.FindValueByIndex`: the element at `i`, or the zero value
      (nil) when `i` is out of range. */
  function FindValueByIndex<T>(s: seq<T>, i: int): (r: Option<T>)
    ensures r.Some? <==> 0 <= i < |s|
    ensures r.Some? ==> r.value == s[i]
  {
    if 0 <= i < |s| then Some(s[i]) else None
  }

  /** One step of `watchDisconnected`: the public error for a raw event. */
  function Enrich(d: Disconnected, devices: seq<NetworkDeviceConfiguration>): (e: DisconnectedError)
    ensures e.Unwrap() == d.err
    ensures e.config == FindValueByIndex(devices, d.index)
  {
    DisconnectedError(d.err, FindValueByIndex(devices, d.index))
  }

  /** The public errors for a sequence of raw events, one each, in order. */
  function EnrichAll(ds: seq<Disconnected>, devices: seq<NetworkDeviceConfiguration>): (es: seq<DisconnectedError>)
    ensures |es| == |ds|
    ensures forall i :: 0 <= i < |ds| ==> es[i] == Enrich(ds[i], devices)
  {
    seq(|ds|, i requires 0 <= i < |ds| => Enrich(ds[i], devices))
  }

  /** Enriching a concatenation enriches each part. */
  lemma EnrichAllAppend(a: seq<Disconnected>, b: seq<Disconnected>, devices: seq<NetworkDeviceConfiguration>)
    ensures EnrichAll(a + b, devices) == EnrichAll(a, devices) + EnrichAll(b, devices)
  {
    var l, r := EnrichAll(a + b, devices), EnrichAll(a, devices) + EnrichAll(b, devices);
    assert |l| == |r|;
    forall i | 0 <= i < |l| ensures l[i] == r[i] {
      if i < |a| { assert (a + b)[i] == a[i]; } else { assert (a + b)[i] == b[i - |a|]; }
    }
  }
}
