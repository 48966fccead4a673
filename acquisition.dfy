/** readAndSaveSomeData: purge the device, then poll its status a fixed
    number of times, reading every batch of at least the minimum size and
    appending it to the data file. */
module Acquisition {
  import opened Edl
  import opened Storage

  /** MINIMUM_DATA_PACKETS_TO_READ. */
  const MinimumDataPacketsToRead: nat := 10
  /** The poll loop's iteration budget (1e3). */
  const PollIterations: nat := 1000
  /** Wait before purging, in milliseconds. */
  const SettleDelay: nat := 500
  /** Back-off after a poll that did not read, in milliseconds. */
  const Backoff: nat := 1

  /** How a run of readAndSaveSomeData ended. */
  datatype End = Completed | PurgeFailed | StatusFailed | NotConnected

  /** The whole effect of a run: the code returned, the device's status and
      read call counters afterwards, the events it adds to the trace, the
      samples it appends to the file, and how it ended. */
  datatype Run = Run(res: ErrorCode, statusCalls: nat, readCalls: nat, events: seq<Event>, values: seq<Float>, end: End)

  /** A run preceded by some events and samples. */
  function Then(events: seq<Event>, values: seq<Float>, run: Run): Run
  {
    run.(events := events + run.events, values := values + run.values)
  }

  /** The advisory notices a status triggers. */
  function Advisories(status: DeviceStatus): seq<Event>
  {
    (if status.bufferOverflowFlag then [Notify(BufferOverflowNotice)] else []) +
    (if status.lostDataFlag then [Notify(LostDataNotice)] else [])
  }

  /** The notice of a partial read. */
  function Shortfall(answer: ReadAnswer): seq<Event>
  {
    if answer.res == EdlNotEnoughAvailableDataError then [Notify(NotEnoughDataNotice(answer.readPacketsNum))] else []
  }

  /** The samples the program copies to the file from a read answer: its
      first readPacketsNum packets, none when the device is not connected. */
  function Delivered(answer: ReadAnswer): (vs: seq<Float>)
    ensures answer.res != EdlDeviceNotConnectedError ==> |vs| == answer.readPacketsNum * ChannelNum
    ensures answer.res == EdlDeviceNotConnectedError ==> vs == []
  {
    if answer.res == EdlDeviceNotConnectedError then [] else answer.data[..answer.readPacketsNum * ChannelNum]
  }

  /** One iteration of the poll loop from the given call counters, as a run
      of its own: the events and samples it adds, the counters and res it
      leaves, and whether it ends the run (StatusFailed, NotConnected) or lets
      the loop go on (Completed). */
  function Iteration(sc: Script, statusCalls: nat, readCalls: nat): (it: Run)
    ensures it.end != PurgeFailed
    ensures it.statusCalls == statusCalls + 1
  {
    var reply := sc.status(statusCalls);
    if reply.res != EdlSuccess then
      Run(reply.res, statusCalls + 1, readCalls, [GetStatus], [], StatusFailed)
    else
      var available := reply.status.availableDataPackets;
      var polled := [GetStatus] + Advisories(reply.status);
      if available >= MinimumDataPacketsToRead then
        var answer := sc.read(readCalls);
        if answer.res == EdlDeviceNotConnectedError then
          Run(answer.res, statusCalls + 1, readCalls + 1, polled + [Read(available)], [], NotConnected)
        else
          Run(answer.res, statusCalls + 1, readCalls + 1, polled + [Read(available)] + Shortfall(answer), Delivered(answer), Completed)
      else
        Run(reply.res, statusCalls + 1, readCalls, polled + [Wait(Backoff)], [], Completed)
  }

  /** The state after one more iteration of the poll loop; a run that has
      already ended stays as it is. */
  function Advance(sc: Script, run: Run): Run
  {
    if run.end != Completed then run
    else Then(run.events, run.values, Iteration(sc, run.statusCalls, run.readCalls))
  }

  /** The state after n more iterations of the poll loop. */
  function Repeat(sc: Script, n: nat, run: Run): Run
    decreases n, run.statusCalls
  {
    if n == 0 then run else Repeat(sc, n - 1, Advance(sc, run))
  }

  /** The state of a run about to enter the poll loop: nothing done yet, and
      res holding the result of the purge. */
  function Fresh(statusCalls: nat, readCalls: nat): Run
  {
    Run(EdlSuccess, statusCalls, readCalls, [], [], Completed)
  }

  /** The whole poll loop from the given call counters. */
  function Poll(sc: Script, statusCalls: nat, readCalls: nat): Run
  {
    Repeat(sc, PollIterations, Fresh(statusCalls, readCalls))
  }

  /** A whole run of readAndSaveSomeData from the given call counters. */
  function Acquire(sc: Script, purgeCalls: nat, statusCalls: nat, readCalls: nat): Run
  {
    var purged := sc.purge(purgeCalls);
    if purged != EdlSuccess then Run(purged, statusCalls, readCalls, [Wait(SettleDelay), Purge], [], PurgeFailed)
    else Then([Wait(SettleDelay), Purge], [], Poll(sc, statusCalls, readCalls))
  }

  /** Appends the first readPacketsNum packets of data to the file, packet
      by packet and, within a packet, channel by channel. */
  method WritePackets(f: DataFile, data: seq<Float>, readPacketsNum: nat)
    requires f.open && readPacketsNum * ChannelNum <= |data|
    modifies f`contents
    ensures f.contents == old(f.contents) + data[..readPacketsNum * ChannelNum]
  {
    var packet := 0;
    while packet < readPacketsNum
      invariant packet <= readPacketsNum
      invariant packet * ChannelNum <= readPacketsNum * ChannelNum
      invariant f.contents == old(f.contents) + data[..packet * ChannelNum]
    {
      PacketFits(packet, readPacketsNum);
      var channel := 0;
      while channel < ChannelNum
        invariant channel <= ChannelNum
        invariant f.contents == old(f.contents) + data[..packet * ChannelNum + channel]
      {
        f.Write(data[packet * ChannelNum + channel]);
        channel := channel + 1;
      }
      packet := packet + 1;
    }
  }

  lemma PacketFits(packet: nat, packets: nat)
    requires packet < packets
    ensures packet * ChannelNum + ChannelNum == (packet + 1) * ChannelNum <= packets * ChannelNum
  {
  }

  /** The read branch of one iteration: read the available packets, close
      the file and stop if the device is not connected, otherwise report a
      partial read and write the packets read. */
  method ReadAndWrite(edl: Device, f: DataFile, available: nat) returns (res: ErrorCode)
    requires f.open
    modifies edl`readCalls, edl`trace, f`contents, f`open, f`closes
    ensures var answer := edl.script.read(old(edl.readCalls));
      && res == answer.res && edl.readCalls == old(edl.readCalls) + 1
      && edl.trace == old(edl.trace) + [Read(available)] + (if res == EdlDeviceNotConnectedError then [] else Shortfall(answer))
      && f.contents == old(f.contents) + Delivered(answer)
      && f.open == (res != EdlDeviceNotConnectedError)
      && f.closes == old(f.closes) + (if res == EdlDeviceNotConnectedError then 1 else 0)
  {
    ghost var answer := edl.script.read(edl.readCalls);
    var readPacketsNum, data;
    res, readPacketsNum, data := edl.ReadData(available);
    assert ReadReply(res, readPacketsNum, data) == answer;
    if res == EdlDeviceNotConnectedError {
      f.Close();
      return;
    }
    if res == EdlNotEnoughAvailableDataError {
      edl.Report(NotEnoughDataNotice(readPacketsNum));
    }
    WritePackets(f, data, readPacketsNum);
  }

  /** One iteration of the poll loop, as Iteration describes it. */
  method PollOnce(edl: Device, f: DataFile) returns (res: ErrorCode, stop: bool)
    requires f.open
    modifies edl`statusCalls, edl`readCalls, edl`trace, f`contents, f`open, f`closes
    ensures var it := Iteration(edl.script, old(edl.statusCalls), old(edl.readCalls));
      && stop == (it.end != Completed)
      && res == it.res
      && edl.statusCalls == it.statusCalls && edl.readCalls == it.readCalls
      && edl.trace == old(edl.trace) + it.events
      && f.contents == old(f.contents) + it.values
      && f.open == (it.end != NotConnected)
      && f.closes == old(f.closes) + (if it.end == NotConnected then 1 else 0)
  {
    ghost var sc, statusCalls, readCalls := edl.script, edl.statusCalls, edl.readCalls;
    ghost var it := Iteration(sc, statusCalls, readCalls);
    ghost var reply := sc.status(statusCalls);
    var status;
    res, status := edl.GetDeviceStatus();
    assert StatusReply(res, status) == reply;
    if res != EdlSuccess {
      assert it == Run(res, edl.statusCalls, readCalls, [GetStatus], [], StatusFailed);
      return res, true;
    }
    if status.bufferOverflowFlag {
      edl.Report(BufferOverflowNotice);
    }
    if status.lostDataFlag {
      edl.Report(LostDataNotice);
    }
    ghost var polled := [GetStatus] + Advisories(status);
    assert edl.trace == old(edl.trace) + polled;
    if status.availableDataPackets >= MinimumDataPacketsToRead {
      ghost var answer := sc.read(readCalls);
      res := ReadAndWrite(edl, f, status.availableDataPackets);
      stop := res == EdlDeviceNotConnectedError;
      if stop {
        assert it == Run(res, edl.statusCalls, edl.readCalls, polled + [Read(status.availableDataPackets)], [], NotConnected);
      } else {
        assert it == Run(res, edl.statusCalls, edl.readCalls, polled + [Read(status.availableDataPackets)] + Shortfall(answer), Delivered(answer), Completed);
      }
    } else {
      edl.Sleep(Backoff);
      stop := false;
      assert it == Run(res, edl.statusCalls, edl.readCalls, polled + [Wait(Backoff)], [], Completed);
    }
  }

  /** The poll loop: PollIterations iterations, returning early when one
      ends the run. */
  method PollLoop(edl: Device, f: DataFile) returns (res: ErrorCode)
    requires f.open
    modifies edl`statusCalls, edl`readCalls, edl`trace, f`contents, f`open, f`closes
    ensures var run := Poll(edl.script, old(edl.statusCalls), old(edl.readCalls));
      && res == run.res
      && edl.statusCalls == run.statusCalls && edl.readCalls == run.readCalls
      && edl.trace == old(edl.trace) + run.events
      && f.contents == old(f.contents) + run.values
      && f.open == (run.end != NotConnected)
      && f.closes == old(f.closes) + (if run.end == NotConnected then 1 else 0)
  {
    ghost var sc := edl.script;
    ghost var trace0, contents0 := edl.trace, f.contents;
    ghost var run := Fresh(edl.statusCalls, edl.readCalls);
    ghost var goal := Poll(sc, edl.statusCalls, edl.readCalls);
    res := EdlSuccess;
    var c := 0;
    while c < PollIterations
      invariant c <= PollIterations
      invariant run.end == Completed && f.open && f.closes == old(f.closes)
      invariant res == run.res && edl.statusCalls == run.statusCalls && edl.readCalls == run.readCalls
      invariant edl.trace == trace0 + run.events && f.contents == contents0 + run.values
      invariant goal == Repeat(sc, PollIterations - c, run)
    {
      ghost var before := run;
      ghost var it := Iteration(sc, run.statusCalls, run.readCalls);
      var stop;
      res, stop := PollOnce(edl, f);
      run := Then(before.events, before.values, it);
      Progress(sc, PollIterations - c, before, goal);
      Associative(trace0, before.events, it.events);
      Associative(contents0, before.values, it.values);
      if stop {
        return;
      }
      c := c + 1;
    }
  }

  method ReadAndSaveSomeData(edl: Device, f: DataFile) returns (res: ErrorCode)
    requires f.open
    modifies edl`purgeCalls, edl`statusCalls, edl`readCalls, edl`trace, f`contents, f`open, f`closes
    ensures var run := Acquire(edl.script, old(edl.purgeCalls), old(edl.statusCalls), old(edl.readCalls));
      && res == run.res
      && edl.purgeCalls == old(edl.purgeCalls) + 1
      && edl.statusCalls == run.statusCalls && edl.readCalls == run.readCalls
      && edl.trace == old(edl.trace) + run.events
      && f.contents == old(f.contents) + run.values
      && f.open == (run.end != NotConnected)
      && f.closes == old(f.closes) + (if run.end == NotConnected then 1 else 0)
  {
    ghost var sc, statusCalls, readCalls := edl.script, edl.statusCalls, edl.readCalls;
    ghost var run := Acquire(sc, edl.purgeCalls, statusCalls, readCalls);
    edl.Sleep(SettleDelay);
    ghost var purged := sc.purge(edl.purgeCalls);
    res := edl.PurgeData();
    assert res == purged;
    if res != EdlSuccess {
      return;
    }
    ghost var poll := Poll(sc, statusCalls, readCalls);
    assert run == Then([Wait(SettleDelay), Purge], [], poll);
    ghost var trace0 := edl.trace;
    res := PollLoop(edl, f);
    assert edl.trace == trace0 + poll.events;
  }

  /** One iteration of the loop brings a run one step closer to the state it
      reaches after n iterations, and reaches it at once when it ends the run. */
  lemma Progress(sc: Script, n: nat, before: Run, goal: Run)
    requires n > 0 && before.end == Completed && goal == Repeat(sc, n, before)
    ensures var run := Then(before.events, before.values, Iteration(sc, before.statusCalls, before.readCalls));
      && goal == Repeat(sc, n - 1, run)
      && (run.end != Completed ==> goal == run)
  {
    var run := Then(before.events, before.values, Iteration(sc, before.statusCalls, before.readCalls));
    assert Advance(sc, before) == run;
    if run.end != Completed {
      Ended(sc, n - 1, run);
    }
  }

  /** Concatenation regroups. Stated as a lemma so that the loops above
      get this one instance instead of searching for it. */
  lemma Associative<T>(a: seq<T>, b: seq<T>, c: seq<T>)
    ensures a + (b + c) == (a + b) + c
  {
  }

  /** A run that has ended is not changed by further iterations. */
  lemma {:induction false} Ended(sc: Script, n: nat, run: Run)
    requires run.end != Completed
    ensures Repeat(sc, n, run) == run
    decreases n
  {
    if n > 0 {
      Ended(sc, n - 1, run);
    }
  }
}
