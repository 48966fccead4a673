/** The three configuration phases of caller.cpp: working modality, digital
    offset compensation and the triangular test protocol. Each reuses one
    command structure, overwrites a field between calls, and passes it to
    setCommand with an apply flag. What the library does with stacked and
    applied commands is not modelled; the model fixes the calls, their
    order, the structure each one carries and the apply flags. */
module Configuration {
  import opened Edl

  /** Dwell of the offset compensation, in milliseconds. */
  const CompensationDwell: nat := 5000

  /** The calls configureWorkingModality makes. */
  function ConfigureCalls(): seq<Event>
  {
    [ Command(EdlCommandSamplingRate, CommandStruct(Some(SamplingRate5kHz), None, None), false),
      Command(EdlCommandRange, CommandStruct(Some(Range200pA), None, None), false),
      Command(EdlCommandFinalBandwidth, CommandStruct(Some(FinalBandwidthSr2), None, None), true) ]
  }

  /** The calls compensateDigitalOffset makes, with the dwell between
      pressing and releasing the compensation button. */
  function CompensateCalls(): seq<Event>
  {
    [ Command(EdlCommandMainTrial, CommandStruct(None, Some(0.0), None), false),
      Command(EdlCommandVhold, CommandStruct(None, Some(0.0), None), false),
      Command(EdlCommandApplyProtocol, CommandStruct(None, Some(0.0), None), true),
      Command(EdlCommandCompAll, CommandStruct(None, Some(0.0), Some(Pressed)), true),
      Wait(CompensationDwell),
      Command(EdlCommandCompAll, CommandStruct(None, Some(0.0), Some(Released)), true) ]
  }

  /** The calls setTriangularProtocol makes. */
  function TriangularCalls(): seq<Event>
  {
    [ Command(EdlCommandMainTrial, CommandStruct(None, Some(1.0), None), false),
      Command(EdlCommandVhold, CommandStruct(None, Some(0.0), None), false),
      Command(EdlCommandVamp, CommandStruct(None, Some(50.0), None), false),
      Command(EdlCommandTPeriod, CommandStruct(None, Some(100.0), None), false),
      Command(EdlCommandApplyProtocol, CommandStruct(None, Some(100.0), None), true) ]
  }

  /** All configuration calls, in the order main runs the three phases. */
  function SetupCalls(): seq<Event>
  {
    ConfigureCalls() + CompensateCalls() + TriangularCalls()
  }

  method ConfigureWorkingModality(edl: Device)
    modifies edl`trace
    ensures edl.trace == old(edl.trace) + ConfigureCalls()
  {
    var command := Uninitialised;
    command := command.(radioId := Some(SamplingRate5kHz));
    edl.SetCommand(EdlCommandSamplingRate, command, false);
    command := command.(radioId := Some(Range200pA));
    edl.SetCommand(EdlCommandRange, command, false);
    command := command.(radioId := Some(FinalBandwidthSr2));
    edl.SetCommand(EdlCommandFinalBandwidth, command, true);
  }

  method CompensateDigitalOffset(edl: Device)
    modifies edl`trace
    ensures edl.trace == old(edl.trace) + CompensateCalls()
  {
    var command := Uninitialised;
    command := command.(value := Some(0.0));
    edl.SetCommand(EdlCommandMainTrial, command, false);
    command := command.(value := Some(0.0));
    edl.SetCommand(EdlCommandVhold, command, false);
    edl.SetCommand(EdlCommandApplyProtocol, command, true);
    command := command.(buttonPressed := Some(Pressed));
    edl.SetCommand(EdlCommandCompAll, command, true);
    edl.Sleep(CompensationDwell);
    command := command.(buttonPressed := Some(Released));
    edl.SetCommand(EdlCommandCompAll, command, true);
  }

  method SetTriangularProtocol(edl: Device)
    modifies edl`trace
    ensures edl.trace == old(edl.trace) + TriangularCalls()
  {
    var command := Uninitialised;
    command := command.(value := Some(1.0));
    edl.SetCommand(EdlCommandMainTrial, command, false);
    command := command.(value := Some(0.0));
    edl.SetCommand(EdlCommandVhold, command, false);
    command := command.(value := Some(50.0));
    edl.SetCommand(EdlCommandVamp, command, false);
    command := command.(value := Some(100.0));
    edl.SetCommand(EdlCommandTPeriod, command, false);
    edl.SetCommand(EdlCommandApplyProtocol, command, true);
  }

  // ---------------------------------------------------------------------
  // The tagged view of a request: only the field its identifier reads.

  datatype Payload = RadioPayload(radio: Radio) | ValuePayload(value: real) | ButtonPayload(button: Button) | NoPayload

  datatype Request = Request(id: CommandId, payload: Payload, apply: bool)

  /** The field of the command structure that a command identifier reads,
      or None when that field was never written. */
  function Relevant(id: CommandId, command: CommandStruct): (p: Option<Payload>)
    ensures p.Some? && p.value.RadioPayload? ==> command.radioId == Some(p.value.radio)
    ensures p.Some? && p.value.ValuePayload? ==> command.value == Some(p.value.value)
    ensures p.Some? && p.value.ButtonPayload? ==> command.buttonPressed == Some(p.value.button)
  {
    match id
    case EdlCommandSamplingRate | EdlCommandRange | EdlCommandFinalBandwidth =>
      if command.radioId.Some? then Some(RadioPayload(command.radioId.value)) else None
    case EdlCommandMainTrial | EdlCommandVhold | EdlCommandVamp | EdlCommandTPeriod =>
      if command.value.Some? then Some(ValuePayload(command.value.value)) else None
    case EdlCommandCompAll =>
      if command.buttonPressed.Some? then Some(ButtonPayload(command.buttonPressed.value)) else None
    case EdlCommandApplyProtocol => Some(NoPayload)
  }

  /** Every command in the calls carries an initialised value in the field
      its identifier reads. */
  predicate Populated(calls: seq<Event>)
  {
    forall e | e in calls && e.Command? :: Relevant(e.id, e.command).Some?
  }

  /** The requests the calls make, in order, in tagged form. */
  function Requests(calls: seq<Event>): (rs: seq<Request>)
    requires Populated(calls)
    ensures |rs| <= |calls|
  {
    if calls == [] then []
    else
      var rest := Requests(calls[1..]);
      if calls[0].Command? then [Request(calls[0].id, Relevant(calls[0].id, calls[0].command).value, calls[0].apply)] + rest
      else rest
  }

  /** The identifiers of the commands stacked since the last applying call:
      what would still be waiting for an apply after the calls. */
  function Pending(calls: seq<Event>): seq<CommandId>
  {
    if calls == [] then []
    else
      var e := calls[|calls| - 1];
      if !e.Command? then Pending(calls[..|calls| - 1])
      else if e.apply then []
      else Pending(calls[..|calls| - 1]) + [e.id]
  }

  /** configureWorkingModality stacks the sampling rate and the range and
      applies them with the final bandwidth; nothing is left stacked. */
  lemma ConfigureRequests()
    ensures Populated(ConfigureCalls())
    ensures Requests(ConfigureCalls()) ==
      [ Request(EdlCommandSamplingRate, RadioPayload(SamplingRate5kHz), false),
        Request(EdlCommandRange, RadioPayload(Range200pA), false),
        Request(EdlCommandFinalBandwidth, RadioPayload(FinalBandwidthSr2), true) ]
    ensures Pending(ConfigureCalls()) == []
  {
  }

  /** compensateDigitalOffset applies protocol 0 at 0 mV, then presses and
      releases the compensation button, each applied, with the dwell between. */
  lemma CompensateRequests()
    ensures Populated(CompensateCalls())
    ensures Requests(CompensateCalls()) ==
      [ Request(EdlCommandMainTrial, ValuePayload(0.0), false),
        Request(EdlCommandVhold, ValuePayload(0.0), false),
        Request(EdlCommandApplyProtocol, NoPayload, true),
        Request(EdlCommandCompAll, ButtonPayload(Pressed), true),
        Request(EdlCommandCompAll, ButtonPayload(Released), true) ]
    ensures CompensateCalls()[4] == Wait(CompensationDwell)
    ensures Pending(CompensateCalls()) == []
  {
  }

  /** setTriangularProtocol stacks protocol 1, 0 mV hold, 50 mV amplitude and
      100 ms period, and applies them all with the final call. */
  lemma TriangularRequests()
    ensures Populated(TriangularCalls())
    ensures Requests(TriangularCalls()) ==
      [ Request(EdlCommandMainTrial, ValuePayload(1.0), false),
        Request(EdlCommandVhold, ValuePayload(0.0), false),
        Request(EdlCommandVamp, ValuePayload(50.0), false),
        Request(EdlCommandTPeriod, ValuePayload(100.0), false),
        Request(EdlCommandApplyProtocol, NoPayload, true) ]
    ensures Pending(TriangularCalls()) == []
  {
  }
}
