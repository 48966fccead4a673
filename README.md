# caller.cpp: a verified model of the EDL sample session

caller.cpp is the sample program that ships with the EDL (Elements
Device Library) for e4 electrophysiology amplifiers. It runs one fixed
session:

1. Detect the plugged-in devices and connect to the first one.
2. Configure the working modality.
3. Compensate the digital offset.
4. Start a triangular test protocol.
5. Open `data.dat`.
6. Run `readAndSaveSomeData`: purge old data, then poll the device 1000
   times. A poll that finds at least `MINIMUM_DATA_PACKETS_TO_READ` (10)
   packets available reads them and appends them to the file. A poll that
   finds fewer waits 1 ms.
7. Close the file.
8. Try to disconnect up to 1000 times, 1 ms apart.

The process exits with 0 exactly when detection, connection and the
purge succeed, the loop runs all 1000 iterations and its last call
returns success, and one of the disconnection attempts succeeds. It exits
with -1 otherwise. The program ignores the results of the configuration
calls (every `setCommand`), of `fopen` and of `fclose`, so a failed
configuration or compensation can still end in exit 0.

This project models that session in Dafny and proves what it does.

## How the model is built

The EDL object becomes the class `Edl.Device`, a scripted device:
- Each operation takes its reply from a fixed `Script`.
- Detection and connection, each called once, have one fixed reply each.
  Purge, status, read and disconnection each have a reply stream indexed
  by a call counter, so a stream never runs dry.
- Each operation appends an `Event` to a `trace`.

Two things stand in for program behaviour:
- A `Sleep(ms)` is recorded as a `Wait(ms)` event; no time passes.
- The non-fatal console notices inside the loop are recorded as `Notify`
  events: buffer overflow, lost data, and a partial read.

The data file is the class `Storage.DataFile`, a sequence of samples plus
an open flag and a count of `fclose` calls.

The modules follow the source:

- **`Configuration`** holds the three command sequences.
  - Each is an imperative method. It reuses one command structure and
    overwrites one field between two `setCommand` calls, as the source
    does.
  - Each method is proved to emit exactly the calls listed in a
    specification function, in order and with the same apply flags.
  - Lemmas state the typed requests those calls make, and state that
    nothing is left stacked without an apply.
- **`Acquisition`** holds `readAndSaveSomeData`, written as methods with
  the source's loops: the poll loop and the nested packet/channel copy
  loop.
  - Each method is proved against specification functions. `Iteration`
    describes one poll. `Repeat` and `Poll` describe the 1000-iteration
    loop with its early returns. `Acquire` describes the whole function
    with its purge.
  - These functions fix the code returned, the call counters, the trace,
    the samples written, and whether the file was closed.
- **`LoopProperties`** proves what the loop promises, as lemmas over those
  specification functions.
- **`Session`** holds `main`.
  - The disconnection loop is a method proved against the function
    `Retry`.
  - The whole program is a method `RunMain`. It builds the device, runs
    the phases and opens the file, and is proved equal to the function
    `MainOutcome`.
  - Lemmas over `MainOutcome` give the exit code and the behaviour on
    each failure path.

### How the code releases the file, and the file's layout

- **The file is not released on every exit path.** A failed status query
  makes readAndSaveSomeData return at once, without closing the file
  (caller.cpp:129-132). main then returns -1 without closing it either
  (caller.cpp:236-238; `StatusFailureLeavesFileOpen`). A failed purge does
  the same (`PurgeFailureStopsMain`). Only a not-connected read closes the
  file before main fails (`NotConnectedClosesOnce`).
- **The file is written packet by packet.** Value `p * EDL_CHANNEL_NUM + ch`
  is channel `ch` of packet `p` (`PacketMajor`).

A consequence of the code worth knowing: readAndSaveSomeData returns the
code of its last call. If the last of the 1000 iterations reads and gets
fewer packets than it asked for, that code is
`EdlNotEnoughAvailableDataError`. main then reports failure and exits with
-1, and neither closes the file nor disconnects
(`PartialFinalReadFailsMain`). This holds even though every packet read
was written.

## Model

| member | source | states |
|---|---|---|
| Edl.Device.constructor | caller.cpp:186-186 | `EDL edl;`: a device answering from the given script, with every call counter at zero and nothing traced |
| Edl.Device.DetectDevices | caller.cpp:197-197 | returns the scripted detection code and records the call |
| Edl.Device.ConnectDevice | caller.cpp:208-208 | returns the scripted connection code and records the call |
| Edl.Device.SetCommand | caller.cpp:24-24 | records the command identifier, the structure passed by value and the apply flag, changing nothing else |
| Edl.Device.PurgeData | caller.cpp:112-112 | returns the next scripted purge code, advances the purge counter by one, records the call |
| Edl.Device.GetDeviceStatus | caller.cpp:126-126 | returns the next scripted code and status, advances the status counter by one, records the call |
| Edl.Device.ReadData | caller.cpp:145-145 | returns the next scripted code, packet count and data, advances the read counter by one, records the call with the number of packets requested |
| Edl.Device.DisconnectDevice | caller.cpp:252-252 | returns the next scripted disconnection code, advances the counter by one, records the call |
| Edl.Device.Sleep | caller.cpp:108-108 | records a wait of the given milliseconds and nothing else |
| Edl.Device.Report | caller.cpp:134-158 | records one console notice and nothing else: buffer overflow (134-136), lost data (138-141) or a partial read with its count (156-158) |
| Storage.DataFile.Open | caller.cpp:233-233 | fopen "wb+": a new file, empty, open, never closed |
| Storage.DataFile.Write | caller.cpp:165-165 | fwrite of one float: appends exactly that value |
| Storage.DataFile.Close | caller.cpp:242-242 | fclose on an open file: the file is closed and the close count goes up by one |
| Configuration.ConfigureWorkingModality | caller.cpp:18-33 | the trace gains exactly the three setCommand calls of ConfigureCalls: sampling rate 5 kHz and range 200 pA stacked, final bandwidth SR/2 applying them, on one structure whose radioId is overwritten between calls |
| Configuration.CompensateDigitalOffset | caller.cpp:38-63 | the trace gains exactly CompensateCalls: protocol 0 and 0 mV hold stacked, apply protocol, compensation button pressed (applied), a 5000 ms wait, button released (applied), each carrying the value 0.0 left in the structure |
| Configuration.SetTriangularProtocol | caller.cpp:68-90 | the trace gains exactly TriangularCalls: protocol 1, 0 mV hold, 50 mV amplitude and 100 ms period stacked, then an applying apply-protocol call still carrying 100.0 |
| Configuration.Relevant | caller.cpp:20-32 | the payload a command identifier reads is taken from the field that identifier uses, and only when that field was written |
| Configuration.ConfigureRequests | caller.cpp:22-32 | the configuration calls carry initialised fields, request 5 kHz, 200 pA and SR/2 in that order with apply flags false, false, true, and leave nothing stacked |
| Configuration.CompensateRequests | caller.cpp:42-62 | the compensation calls request protocol 0, 0 mV, apply, press and release in that order, with the 5000 ms wait between press and release and nothing left stacked |
| Configuration.TriangularRequests | caller.cpp:72-89 | the triangular calls request protocol 1, 0 mV, 50 mV and 100 ms stacked and apply them with the last call, leaving nothing stacked |
| Acquisition.Delivered | caller.cpp:160-167 | a read not answered by not-connected delivers exactly readPacketsNum * EDL_CHANNEL_NUM samples, the first ones of its data vector; a not-connected read delivers none |
| Acquisition.Advance | caller.cpp:124-175 | one more pass of the for loop: a run that has returned early stays as it is, otherwise one Iteration is appended; its properties are proved in Counters, AdvanceCalls and Ended |
| Acquisition.Repeat | caller.cpp:124-175 | n more passes of the for loop, an early return making the rest no-ops; its properties are proved in Counters, WrittenSamples, StopsAtFirstFatal, NoFatalReplyCompletes, LastResult and FlagsOnlyAdvise |
| Acquisition.Poll | caller.cpp:120-178 | the whole loop: 1000 passes from a fresh run whose res holds the purge's success code, returning the code of the last call made; PollLoop is proved equal to it |
| Acquisition.Acquire | caller.cpp:95-179 | the whole of readAndSaveSomeData: the 500 ms wait and the purge (108-118), returning the purge code when it fails, and otherwise Poll; its endings are proved in AcquireEnds |
| Acquisition.Iteration | caller.cpp:126-174 | one iteration makes exactly one status query, and ends the run only by a status failure or a not-connected read |
| Acquisition.WritePackets | caller.cpp:163-167 | the nested loops append data[0 .. readPacketsNum * EDL_CHANNEL_NUM) to the file in index order and change nothing else |
| Acquisition.ReadAndWrite | caller.cpp:145-167 | one read: on not-connected the file is closed once and nothing is written; otherwise a partial read is reported and the delivered samples are appended, the file staying open |
| Acquisition.PollOnce | caller.cpp:126-174 | one loop iteration performs exactly what Iteration specifies: calls, trace, samples written, file state and the code left in res |
| Acquisition.PollLoop | caller.cpp:123-175 | the loop performs exactly Poll: up to 1000 iterations, returning at the first status failure or not-connected read, with res the last call's code |
| Acquisition.ReadAndSaveSomeData | caller.cpp:95-179 | the function performs exactly Acquire: a 500 ms wait, one purge, a return with the purge code if it failed, and otherwise the poll loop; the file is closed, once, exactly when the run ends with a not-connected read, and is left open otherwise |
| Acquisition.Ended | caller.cpp:129-151 | once a run has returned early, further iterations change nothing |
| LoopProperties.Counters | caller.cpp:124-175 | at most one status query per iteration and at most one read per query; one GetStatus event per query and one Read event per read; a run that does not return early makes exactly n queries |
| LoopProperties.WrittenSamples | caller.cpp:145-167 | what the loop appends to the file is the concatenation of what its reads delivered, read after read, in order |
| LoopProperties.WrittenLength | caller.cpp:160-167 | the samples written by a range of reads number EDL_CHANNEL_NUM per packet read |
| LoopProperties.BelowThresholdNeverReads | caller.cpp:143-174 | if no status in the window reports at least 10 packets, the loop never reads, traces no Read and writes nothing |
| LoopProperties.StopsAtFirstFatal | caller.cpp:126-151 | every query before the last succeeded and every read before the last found the device connected; a status failure returns that status's code; a not-connected read returns that code and is the last call |
| LoopProperties.NoFatalReplyCompletes | caller.cpp:124-175 | with no status failure and no not-connected read, the loop runs all n iterations |
| LoopProperties.LastResult | caller.cpp:126-178 | a completed loop returns the last read's code if its last iteration read, otherwise success |
| LoopProperties.IterationAlike | caller.cpp:134-141 | with the overflow and lost-data flags cleared, an iteration has the same effect (result, counters, samples, ending) except for the advisory notices |
| LoopProperties.FlagsOnlyAdvise | caller.cpp:134-141 | the overflow and lost-data flags change only the notices: not the calls, the counters, the samples written, the code returned or how the loop ends |
| LoopProperties.PacketMajor | caller.cpp:160-167 | the samples of k packets are packet 0, then packet 1, and so on, each exactly EDL_CHANNEL_NUM values in channel order |
| LoopProperties.AcquireEnds | caller.cpp:112-151 | the run ends at the purge exactly when the purge fails, with no status query or read made and only the wait and the purge traced; every early return carries an error code; a not-connected ending returns that code (that this ending, and only this one, closes the file is stated by ReadAndSaveSomeData) |
| LoopProperties.LoopEventKinds | caller.cpp:124-175 | the loop only queries, reads, waits and reports: no command, purge or disconnection |
| Session.Retry | caller.cpp:250-260 | at most n disconnection attempts, stopping at the first success, each failure followed by a 1 ms wait; res keeps the last reply, or its value on entry if no attempt is made; its properties are proved in RetryStopsAtFirstSuccess, RetryExhausted and RetrySucceedsIff |
| Session.DisconnectWithRetry | caller.cpp:250-264 | the disconnection loop performs exactly Retry over DisconnectAttempts attempts: the code left in res, the number of calls and the trace |
| Session.Attempt | caller.cpp:252-259 | one attempt makes one disconnectDevice call and returns its reply, followed by a 1 ms wait exactly when it failed |
| Session.RetryStopsAtFirstSuccess | caller.cpp:251-256 | if the first j replies fail and reply j succeeds, exactly j + 1 attempts are made, each failure followed by a 1 ms wait, ending in success |
| Session.RetryExhausted | caller.cpp:251-263 | if every reply fails, all n attempts are made, each followed by a 1 ms wait, and res is the last failure code |
| Session.RetrySucceedsIff | caller.cpp:251-266 | between 1 and n attempts are made, and the loop ends in success exactly when one of the n replies is a success |
| Session.RetryEventKinds | caller.cpp:252-263 | the disconnection loop only disconnects and waits |
| Session.MainOutcome | caller.cpp:184-269 | the exit code is 0 or -1; the file is closed at most once; when the file was never opened, main failed and wrote nothing |
| Session.RunMain | caller.cpp:184-269 | main performs exactly MainOutcome: exit code, full trace, whether data.dat was opened, its contents and how many times it was closed |
| Session.MainSucceedsIff | caller.cpp:197-268 | main exits with 0 exactly when detection, connection and purge succeed, the loop runs to its end returning success, and one of the 1000 disconnection attempts succeeds |
| Session.TailShape | caller.cpp:219-266 | once connected, the trace is the setup calls followed by calls containing no command, and no disconnection when acquisition failed |
| Session.ConfigurationFirst | caller.cpp:219-233 | once connected, the trace starts with detect, connect and every configuration command in order, and no command follows them |
| Session.FailedMainKeepsDevice | caller.cpp:235-239 | when readAndSaveSomeData fails, main exits with -1 at once, having written what the loop wrote, never disconnecting and not closing the file again |
| Session.PurgeFailureStopsMain | caller.cpp:112-239 | a failed purge makes main exit with -1 right after it: no status query, nothing written, the file opened and never closed |
| Session.StatusFailureLeavesFileOpen | caller.cpp:126-239 | a failed status query makes main exit with -1 with the file never closed and no disconnection attempted |
| Session.NotConnectedClosesOnce | caller.cpp:148-239 | a not-connected read makes main exit with -1 with the file closed exactly once, that read being the last call and no disconnection attempted |
| Session.PartialFinalReadFailsMain | caller.cpp:156-239 | a partial read in the last iteration makes main exit with -1 with the file left open and no disconnection attempted |

## Left out

- The EDL library itself is not part of this model: its threads, what
  setCommand does with stacked and applied commands, and how status and
  data arise. Each device call is modelled only by its scripted reply.
- edl.h is not part of this model, so the value of `EDL_CHANNEL_NUM` is
  left unspecified (`Edl.ChannelNum`).
- Sleep durations are recorded as events; real time and its passing are
  not modelled.
- Console output is left out, except for the non-fatal notices inside the
  loop: buffer overflow, lost data, and a partial read with its count.
  The two lines printed for lost data are one notice.
- The loop's two error lines, "failed to get device status"
  (caller.cpp:130) and "the device is not connected" (caller.cpp:149), are
  not recorded; the early return each precedes is.
- The bytes fwrite produces and the float encoding are left out: samples
  are opaque values.
- A failed `fopen` (a null file handle) is left out: the file always
  opens.
- `data.at` throwing `std::out_of_range` is left out. The model takes
  readData's documented layout as given: readPacketsNum packets of
  EDL_CHANNEL_NUM values each (the `ReadAnswer` subset type).
- The device list that detectDevices fills is left out. Detection is
  modelled by its result code only, so `devices.at(0)` always names a
  device.
- The EDL object passed by value to the helpers is left out: the model
  passes one device.
- The threads the library starts at connection, and concurrency in
  general, are left out.
