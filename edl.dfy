/** The part of the EDL device library that caller.cpp touches: the result
    codes it compares against, the device status it reads, the command codes
    and the command structure it fills in, and a scripted stand-in for the
    EDL object that answers from a fixed script and records every call. */
module Edl {

  /** A single-precision sample. The program only copies samples from the
      read buffer to the data file, so their values are never inspected. */
  type Float

  /** EDL_CHANNEL_NUM: the number of values in one data packet (one voltage
      channel followed by the current channels). It is defined in edl.h,
      which is not part of this model, so its value is left open. */
  const ChannelNum: nat

  /** EdlErrorCode_t, reduced to the codes caller.cpp names plus a catch-all. */
  datatype ErrorCode =
    | EdlSuccess
    | EdlDeviceNotConnectedError
    | EdlNotEnoughAvailableDataError
    | EdlOtherError(code: nat)

  /** EdlDeviceStatus_t. */
  datatype DeviceStatus = DeviceStatus(availableDataPackets: nat, bufferOverflowFlag: bool, lostDataFlag: bool)

  /** The EdlCommand*_t identifiers used by the program. */
  datatype CommandId =
    | EdlCommandSamplingRate
    | EdlCommandRange
    | EdlCommandFinalBandwidth
    | EdlCommandMainTrial
    | EdlCommandVhold
    | EdlCommandVamp
    | EdlCommandTPeriod
    | EdlCommandApplyProtocol
    | EdlCommandCompAll

  /** The radio-button selections used by the program:
      EDL_RADIO_SAMPLING_RATE_5_KHZ, EDL_RADIO_RANGE_200_PA, EDL_RADIO_FINAL_BANDWIDTH_SR_2. */
  datatype Radio = SamplingRate5kHz | Range200pA | FinalBandwidthSr2

  /** EDL_BUTTON_PRESSED and EDL_BUTTON_RELEASED. */
  datatype Button = Pressed | Released

  datatype Option<T> = None | Some(value: T)

  /** EdlCommandStruct_t. The program declares it without initialising it and
      then overwrites one field at a time, so every field may still hold an
      indeterminate value: None stands for a field never written. */
  datatype CommandStruct = CommandStruct(radioId: Option<Radio>, value: Option<real>, buttonPressed: Option<Button>)

  /** A freshly declared, uninitialised EdlCommandStruct_t. */
  const Uninitialised := CommandStruct(None, None, None)

  /** What getDeviceStatus reports: its result code and the status it fills in. */
  datatype StatusReply = StatusReply(res: ErrorCode, status: DeviceStatus)

  /** What readData reports: its result code, the readPacketsNum out-parameter
      and the data vector. */
  datatype ReadReply = ReadReply(res: ErrorCode, readPacketsNum: nat, data: seq<Float>)

  /** The layout readData promises for every answer the program goes on to
      copy: readPacketsNum packets of ChannelNum values each. */
  predicate HoldsPackets(r: ReadReply)
  {
    r.res == EdlDeviceNotConnectedError || r.readPacketsNum * ChannelNum <= |r.data|
  }

  type ReadAnswer = r: ReadReply | HoldsPackets(r) witness ReadReply(EdlDeviceNotConnectedError, 0, [])

  /** The replies the scripted device gives. The n-th call of an operation
      (counting from 0) gets entry n of that operation's stream: a queue of
      answers that never runs dry. */
  datatype Script = Script(
    detect: ErrorCode,
    connect: ErrorCode,
    purge: nat -> ErrorCode,
    status: nat -> StatusReply,
    read: nat -> ReadAnswer,
    disconnect: nat -> ErrorCode)

  /** The non-fatal signals the acquisition loop reports on the console. */
  datatype Notice =
    | BufferOverflowNotice
    | LostDataNotice
    | NotEnoughDataNotice(readPacketsNum: nat)

  /** One observable step of a session: a call into the device, a wait, or a
      notice reported to the user. */
  datatype Event =
    | Detect
    | Connect
    | Command(id: CommandId, command: CommandStruct, apply: bool)
    | Purge
    | GetStatus
    | Read(requested: nat)
    | Disconnect
    | Wait(ms: nat)
    | Notify(notice: Notice)

  /** The EDL object, replaced by a scripted oracle. Each operation takes the
      next answer from its stream and appends itself to the trace. */
  class Device {
    const script: Script
    var purgeCalls: nat
    var statusCalls: nat
    var readCalls: nat
    var disconnectCalls: nat
    var trace: seq<Event>

    constructor (script: Script)
      ensures this.script == script
      ensures purgeCalls == 0 && statusCalls == 0 && readCalls == 0 && disconnectCalls == 0 && trace == []
    {
      this.script := script;
      purgeCalls, statusCalls, readCalls, disconnectCalls := 0, 0, 0, 0;
      trace := [];
    }

    method DetectDevices() returns (res: ErrorCode)
      modifies this`trace
      ensures res == script.detect && trace == old(trace) + [Detect]
    {
      res := script.detect;
      trace := trace + [Detect];
    }

    method ConnectDevice() returns (res: ErrorCode)
      modifies this`trace
      ensures res == script.connect && trace == old(trace) + [Connect]
    {
      res := script.connect;
      trace := trace + [Connect];
    }

    /** setCommand: only the call is recorded; what the library does with
        stacked and applied commands is not modelled. */
    method SetCommand(id: CommandId, command: CommandStruct, apply: bool)
      modifies this`trace
      ensures trace == old(trace) + [Command(id, command, apply)]
    {
      trace := trace + [Command(id, command, apply)];
    }

    method PurgeData() returns (res: ErrorCode)
      modifies this`purgeCalls, this`trace
      ensures res == script.purge(old(purgeCalls))
      ensures purgeCalls == old(purgeCalls) + 1 && trace == old(trace) + [Purge]
    {
      res := script.purge(purgeCalls);
      purgeCalls := purgeCalls + 1;
      trace := trace + [Purge];
    }

    method GetDeviceStatus() returns (res: ErrorCode, status: DeviceStatus)
      modifies this`statusCalls, this`trace
      ensures StatusReply(res, status) == script.status(old(statusCalls))
      ensures statusCalls == old(statusCalls) + 1 && trace == old(trace) + [GetStatus]
    {
      var reply := script.status(statusCalls);
      res, status := reply.res, reply.status;
      statusCalls := statusCalls + 1;
      trace := trace + [GetStatus];
    }

    method ReadData(requested: nat) returns (res: ErrorCode, readPacketsNum: nat, data: seq<Float>)
      modifies this`readCalls, this`trace
      ensures ReadReply(res, readPacketsNum, data) == script.read(old(readCalls))
      ensures readCalls == old(readCalls) + 1 && trace == old(trace) + [Read(requested)]
    {
      var reply := script.read(readCalls);
      res, readPacketsNum, data := reply.res, reply.readPacketsNum, reply.data;
      readCalls := readCalls + 1;
      trace := trace + [Read(requested)];
    }

    method DisconnectDevice() returns (res: ErrorCode)
      modifies this`disconnectCalls, this`trace
      ensures res == script.disconnect(old(disconnectCalls))
      ensures disconnectCalls == old(disconnectCalls) + 1 && trace == old(trace) + [Disconnect]
    {
      res := script.disconnect(disconnectCalls);
      disconnectCalls := disconnectCalls + 1;
      trace := trace + [Disconnect];
    }

    /** Sleep(ms): no time passes in the model; the wait is recorded. */
    method Sleep(ms: nat)
      modifies this`trace
      ensures trace == old(trace) + [Wait(ms)]
    {
      trace := trace + [Wait(ms)];
    }

    /** A notice printed to the console, recorded in order with the calls. */
    method Report(notice: Notice)
      modifies this`trace
      ensures trace == old(trace) + [Notify(notice)]
    {
      trace := trace + [Notify(notice)];
    }
  }
}
