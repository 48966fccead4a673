/** Properties of the acquisition loop of readAndSaveSomeData, stated about
    the specification functions of module Acquisition, which its methods are
    proved to implement. */
module LoopProperties {
  import opened Edl
  import opened Acquisition

  // ---------------------------------------------------------------------
  // Counting events and samples.

  /** How many of the events satisfy p. */
  function Tally(events: seq<Event>, p: Event -> bool): (k: nat)
    ensures k <= |events|
  {
    if events == [] then 0 else (if p(events[0]) then 1 else 0) + Tally(events[1..], p)
  }

  lemma {:induction false} TallyAppend(a: seq<Event>, b: seq<Event>, p: Event -> bool)
    ensures Tally(a + b, p) == Tally(a, p) + Tally(b, p)
  {
    if a != [] {
      assert (a + b)[1..] == a[1..] + b;
      TallyAppend(a[1..], b, p);
    } else {
      assert a + b == b;
    }
  }

  predicate IsPoll(e: Event) { e.GetStatus? }
  predicate IsRead(e: Event) { e.Read? }

  /** The samples the reads numbered from (inclusive) to to (exclusive)
      deliver, in order. */
  function Written(sc: Script, from: nat, to: nat): seq<Float>
    decreases to - from
  {
    if to <= from then [] else Delivered(sc.read(from)) + Written(sc, from + 1, to)
  }

  /** The packets the same reads deliver. */
  function PacketsRead(sc: Script, from: nat, to: nat): nat
    decreases to - from
  {
    if to <= from then 0
    else (if sc.read(from).res == EdlDeviceNotConnectedError then 0 else sc.read(from).readPacketsNum) + PacketsRead(sc, from + 1, to)
  }

  // ---------------------------------------------------------------------
  // Properties of the poll loop.

  /** The loop makes at most one status query per iteration and at most one
      read per query; the trace holds exactly one GetStatus event per query
      and one Read event per read; and a run that does not end early makes
      exactly one query per iteration. */
  lemma {:induction false} Counters(sc: Script, n: nat, run: Run)
    ensures var out := Repeat(sc, n, run);
      && run.statusCalls <= out.statusCalls <= run.statusCalls + n
      && run.readCalls <= out.readCalls
      && out.readCalls - run.readCalls <= out.statusCalls - run.statusCalls
      && Tally(out.events, IsPoll) == Tally(run.events, IsPoll) + (out.statusCalls - run.statusCalls)
      && Tally(out.events, IsRead) == Tally(run.events, IsRead) + (out.readCalls - run.readCalls)
      && (out.end == Completed ==> run.end == Completed && out.statusCalls == run.statusCalls + n)
    decreases n
  {
    if n > 0 {
      var next := Advance(sc, run);
      AdvanceCalls(sc, run);
      AdvanceCounters(sc, run);
      Counters(sc, n - 1, next);
    }
  }

  /** Whether the status one iteration receives leads to a read. */
  predicate Reads(sc: Script, statusCalls: nat)
  {
    sc.status(statusCalls).res == EdlSuccess && sc.status(statusCalls).status.availableDataPackets >= MinimumDataPacketsToRead
  }

  lemma NoticesAreQuiet(status: DeviceStatus, answer: ReadAnswer)
    ensures Tally(Advisories(status), IsPoll) == 0 && Tally(Advisories(status), IsRead) == 0
    ensures Tally(Shortfall(answer), IsPoll) == 0 && Tally(Shortfall(answer), IsRead) == 0
  {
    var overflow := if status.bufferOverflowFlag then [Notify(BufferOverflowNotice)] else [];
    var lost := if status.lostDataFlag then [Notify(LostDataNotice)] else [];
    TallyAppend(overflow, lost, IsPoll);
    TallyAppend(overflow, lost, IsRead);
  }

  /** One iteration queries the status once and reads at most once. */
  lemma IterationTally(sc: Script, statusCalls: nat, readCalls: nat)
    ensures var it := Iteration(sc, statusCalls, readCalls);
      && Tally(it.events, IsPoll) == 1
      && Tally(it.events, IsRead) == (if Reads(sc, statusCalls) then 1 else 0)
      && it.readCalls == readCalls + (if Reads(sc, statusCalls) then 1 else 0)
  {
    var reply := sc.status(statusCalls);
    if reply.res == EdlSuccess {
      var answer := sc.read(readCalls);
      NoticesAreQuiet(reply.status, answer);
      var polled := [GetStatus] + Advisories(reply.status);
      TallyAppend([GetStatus], Advisories(reply.status), IsPoll);
      TallyAppend([GetStatus], Advisories(reply.status), IsRead);
      var available := reply.status.availableDataPackets;
      if available >= MinimumDataPacketsToRead {
        TallyAppend(polled, [Read(available)], IsPoll);
        TallyAppend(polled, [Read(available)], IsRead);
        TallyAppend(polled + [Read(available)], Shortfall(answer), IsPoll);
        TallyAppend(polled + [Read(available)], Shortfall(answer), IsRead);
      } else {
        TallyAppend(polled, [Wait(Backoff)], IsPoll);
        TallyAppend(polled, [Wait(Backoff)], IsRead);
      }
    }
  }

  /** One iteration moves the call counters on and appends the samples its
      read delivers, if it reads; a run that has ended stays as it is. */
  lemma AdvanceCalls(sc: Script, run: Run)
    ensures var next := Advance(sc, run);
      && (run.end != Completed ==> next == run)
      && (run.end == Completed ==>
            && next.statusCalls == run.statusCalls + 1
            && next.readCalls == run.readCalls + (if Reads(sc, run.statusCalls) then 1 else 0)
            && next.values == run.values + (if Reads(sc, run.statusCalls) then Delivered(sc.read(run.readCalls)) else []))
  {
  }

  /** One iteration of a run still going traces one query, and one read
      exactly when it reads. */
  lemma AdvanceCounters(sc: Script, run: Run)
    ensures var next := Advance(sc, run);
      run.end == Completed ==>
        && Tally(next.events, IsPoll) == Tally(run.events, IsPoll) + 1
        && Tally(next.events, IsRead) == Tally(run.events, IsRead) + (if Reads(sc, run.statusCalls) then 1 else 0)
  {
    if run.end == Completed {
      var it := Iteration(sc, run.statusCalls, run.readCalls);
      IterationTally(sc, run.statusCalls, run.readCalls);
      TallyAppend(run.events, it.events, IsPoll);
      TallyAppend(run.events, it.events, IsRead);
    }
  }

  /** The read counter never goes back. */
  lemma {:induction false} ReadsGrow(sc: Script, n: nat, run: Run)
    ensures run.readCalls <= Repeat(sc, n, run).readCalls
    decreases n
  {
    if n > 0 {
      AdvanceCalls(sc, run);
      ReadsGrow(sc, n - 1, Advance(sc, run));
    }
  }

  /** Everything the loop appends to the file is what its reads delivered,
      read after read, each contributing readPacketsNum packets, whatever the
      read was asked for; a read answering not-connected contributes nothing. */
  lemma {:induction false} WrittenSamples(sc: Script, n: nat, run: Run)
    ensures var out := Repeat(sc, n, run);
      out.values == run.values + Written(sc, run.readCalls, out.readCalls)
    decreases n
  {
    if n == 0 {
      assert Written(sc, run.readCalls, run.readCalls) == [];
    } else if run.end != Completed {
      Ended(sc, n, run);
      assert Written(sc, run.readCalls, run.readCalls) == [];
    } else {
      var next := Advance(sc, run);
      var out := Repeat(sc, n - 1, next);
      WrittenSamples(sc, n - 1, next);
      ReadsGrow(sc, n - 1, next);
      AdvanceCalls(sc, run);
      if Reads(sc, run.statusCalls) {
        var delivered, later := Delivered(sc.read(run.readCalls)), Written(sc, next.readCalls, out.readCalls);
        assert Written(sc, run.readCalls, out.readCalls) == delivered + later;
        assert out.values == (run.values + delivered) + later;
      } else {
        assert next.values == run.values && next.readCalls == run.readCalls;
      }
    }
  }

  /** The samples written by a range of reads number ChannelNum per packet read. */
  lemma {:induction false} WrittenLength(sc: Script, from: nat, to: nat)
    ensures |Written(sc, from, to)| == PacketsRead(sc, from, to) * ChannelNum
    decreases if from < to then to - from else 0
  {
    if from < to {
      WrittenLength(sc, from + 1, to);
      var answer := sc.read(from);
      var k := if answer.res == EdlDeviceNotConnectedError then 0 else answer.readPacketsNum;
      var rest := PacketsRead(sc, from + 1, to);
      assert Written(sc, from, to) == Delivered(answer) + Written(sc, from + 1, to);
      assert PacketsRead(sc, from, to) == k + rest;
      assert |Delivered(answer)| == k * ChannelNum;
    }
  }

  /** Threshold gating: if no status in the window reports at least
      MinimumDataPacketsToRead packets, readData is never called, no Read
      event is traced and nothing is written. */
  lemma {:induction false} BelowThresholdNeverReads(sc: Script, n: nat, run: Run)
    requires forall i :: run.statusCalls <= i < run.statusCalls + n ==>
      sc.status(i).status.availableDataPackets < MinimumDataPacketsToRead
    ensures var out := Repeat(sc, n, run);
      && out.readCalls == run.readCalls
      && out.values == run.values
      && Tally(out.events, IsRead) == Tally(run.events, IsRead)
      && (out.end == NotConnected ==> run.end == NotConnected)
    decreases n
  {
    if n > 0 {
      if run.end != Completed {
        Ended(sc, n, run);
      } else {
        var next := Advance(sc, run);
        AdvanceCounters(sc, run);
        AdvanceCalls(sc, run);
        BelowThresholdNeverReads(sc, n - 1, next);
      }
    }
  }

  /** The loop stops at the first fatal reply and only there: every status
      query before the last succeeded, every read before the last was
      answered by a connected device, a status failure ends the run with
      that status's code, and a not-connected read ends it with that code,
      the read being the last event, with nothing written for it. */
  lemma {:induction false} StopsAtFirstFatal(sc: Script, n: nat, run: Run)
    requires run.end == Completed
    ensures var out := Repeat(sc, n, run);
      && out.end != PurgeFailed
      && (out.end == StatusFailed ==>
            && out.statusCalls > run.statusCalls
            && out.res == sc.status(out.statusCalls - 1).res && out.res != EdlSuccess)
      && (out.end == NotConnected ==>
            && out.readCalls > run.readCalls && out.statusCalls > run.statusCalls
            && Reads(sc, out.statusCalls - 1)
            && out.res == sc.read(out.readCalls - 1).res == EdlDeviceNotConnectedError
            && |out.events| > 0 && out.events[|out.events| - 1].Read?)
      && (forall i :: run.statusCalls <= i < out.statusCalls - (if out.end == StatusFailed then 1 else 0) ==>
            sc.status(i).res == EdlSuccess)
      && (forall j :: run.readCalls <= j < out.readCalls - (if out.end == NotConnected then 1 else 0) ==>
            sc.read(j).res != EdlDeviceNotConnectedError)
    decreases n
  {
    if n > 0 {
      var next := Advance(sc, run);
      AdvanceCalls(sc, run);
      if next.end == Completed {
        StopsAtFirstFatal(sc, n - 1, next);
      } else {
        Ended(sc, n - 1, next);
      }
    }
  }

  /** Without a fatal reply in the window, the loop runs every iteration:
      exactly n status queries. */
  lemma {:induction false} NoFatalReplyCompletes(sc: Script, n: nat, run: Run)
    requires run.end == Completed
    requires forall i :: run.statusCalls <= i < run.statusCalls + n ==> sc.status(i).res == EdlSuccess
    requires forall j :: run.readCalls <= j < run.readCalls + n ==> sc.read(j).res != EdlDeviceNotConnectedError
    ensures Repeat(sc, n, run).end == Completed && Repeat(sc, n, run).statusCalls == run.statusCalls + n
    decreases n
  {
    if n > 0 {
      AdvanceCalls(sc, run);
      NoFatalReplyCompletes(sc, n - 1, Advance(sc, run));
    }
  }

  /** A run that completes returns the code of the last iteration's last
      call: the read's code if it read (possibly not-enough-data), else the
      status query's success. */
  lemma {:induction false} LastResult(sc: Script, n: nat, run: Run)
    requires run.end == Completed && n > 0
    ensures var out := Repeat(sc, n, run);
      out.end == Completed ==>
        && out.statusCalls == run.statusCalls + n
        && (if Reads(sc, out.statusCalls - 1) then out.readCalls > 0 && out.res == sc.read(out.readCalls - 1).res
            else out.res == EdlSuccess)
    decreases n
  {
    var next := Advance(sc, run);
    AdvanceCalls(sc, run);
    if n == 1 {
    } else if next.end == Completed {
      LastResult(sc, n - 1, next);
    } else {
      Ended(sc, n - 1, next);
    }
  }

  // ---------------------------------------------------------------------
  // The advisory flags.

  /** The same script with both advisory flags cleared in every status. */
  function Unflagged(sc: Script): Script
  {
    sc.(status := (i: nat) => var r := sc.status(i); r.(status := r.status.(bufferOverflowFlag := false, lostDataFlag := false)))
  }

  predicate IsAdvisory(e: Event)
  {
    e == Notify(BufferOverflowNotice) || e == Notify(LostDataNotice)
  }

  /** The events without the advisory notices. */
  function Quiet(events: seq<Event>): (q: seq<Event>)
    ensures forall e | e in q :: !IsAdvisory(e)
  {
    if events == [] then [] else (if IsAdvisory(events[0]) then [] else [events[0]]) + Quiet(events[1..])
  }

  lemma {:induction false} QuietAppend(a: seq<Event>, b: seq<Event>)
    ensures Quiet(a + b) == Quiet(a) + Quiet(b)
  {
    if a == [] {
      assert a + b == b;
    } else {
      assert (a + b)[1..] == a[1..] + b;
      QuietAppend(a[1..], b);
    }
  }

  /** Two runs that differ at most in their advisory notices. */
  ghost predicate Alike(a: Run, b: Run)
  {
    a.res == b.res && a.statusCalls == b.statusCalls && a.readCalls == b.readCalls &&
    a.values == b.values && a.end == b.end && Quiet(a.events) == Quiet(b.events)
  }

  lemma QuietAdvisories(status: DeviceStatus)
    ensures Quiet(Advisories(status)) == []
  {
    var overflow := if status.bufferOverflowFlag then [Notify(BufferOverflowNotice)] else [];
    var lost := if status.lostDataFlag then [Notify(LostDataNotice)] else [];
    QuietAppend(overflow, lost);
  }

  /** One iteration with and without the flags: the same effect, up to the
      advisory notices. */
  lemma IterationAlike(sc: Script, statusCalls: nat, readCalls: nat)
    ensures Alike(Iteration(sc, statusCalls, readCalls), Iteration(Unflagged(sc), statusCalls, readCalls))
  {
    var sc' := Unflagged(sc);
    var it, it' := Iteration(sc, statusCalls, readCalls), Iteration(sc', statusCalls, readCalls);
    var reply := sc.status(statusCalls);
    var quiet := reply.status.(bufferOverflowFlag := false, lostDataFlag := false);
    assert sc'.status(statusCalls) == reply.(status := quiet);
    assert sc'.read == sc.read;
    if reply.res != EdlSuccess {
      assert it' == it;
    } else {
      var available := reply.status.availableDataPackets;
      var advisories := Advisories(reply.status);
      QuietAdvisories(reply.status);
      assert Advisories(quiet) == [];
      var tail := if available < MinimumDataPacketsToRead then [Wait(Backoff)]
        else [Read(available)] + if sc.read(readCalls).res == EdlDeviceNotConnectedError then [] else Shortfall(sc.read(readCalls));
      assert it.events == [GetStatus] + advisories + tail;
      assert it' == it.(events := [GetStatus] + tail);
      QuietAround([GetStatus], advisories, tail);
    }
  }

  lemma QuietAround(front: seq<Event>, middle: seq<Event>, back: seq<Event>)
    requires Quiet(middle) == []
    ensures Quiet(front + middle + back) == Quiet(front + back)
  {
    QuietAppend(front + middle, back);
    QuietAppend(front, middle);
    QuietAppend(front, back);
  }

  lemma AdvanceAlike(sc: Script, a: Run, b: Run)
    requires Alike(a, b)
    ensures Alike(Advance(sc, a), Advance(Unflagged(sc), b))
  {
    if a.end == Completed {
      var it, it' := Iteration(sc, a.statusCalls, a.readCalls), Iteration(Unflagged(sc), a.statusCalls, a.readCalls);
      IterationAlike(sc, a.statusCalls, a.readCalls);
      QuietAppend(a.events, it.events);
      QuietAppend(b.events, it'.events);
    }
  }

  /** The buffer-overflow and lost-data flags change nothing but the notices
      the loop reports: not which calls are made, what is written, the code
      returned or how the run ends. */
  lemma {:induction false} FlagsOnlyAdvise(sc: Script, n: nat, a: Run, b: Run)
    requires Alike(a, b)
    ensures Alike(Repeat(sc, n, a), Repeat(Unflagged(sc), n, b))
    decreases n
  {
    if n > 0 {
      AdvanceAlike(sc, a, b);
      FlagsOnlyAdvise(sc, n - 1, Advance(sc, a), Advance(Unflagged(sc), b));
    }
  }

  // ---------------------------------------------------------------------
  // Layout of the samples a read delivers.

  /** Packet p of a data vector: ChannelNum consecutive values, channel 0
      (voltage) first. */
  function Packet(data: seq<Float>, p: nat): seq<Float>
  {
    if (p + 1) * ChannelNum <= |data| then data[p * ChannelNum .. (p + 1) * ChannelNum] else []
  }

  /** The first k packets of a data vector, packet after packet. */
  function Packets(data: seq<Float>, k: nat): seq<Float>
  {
    if k == 0 then [] else Packets(data, k - 1) + Packet(data, k - 1)
  }

  /** The samples a read delivers are its packets in packet-major,
      channel-minor order. */
  lemma {:induction false} PacketMajor(data: seq<Float>, k: nat)
    requires k * ChannelNum <= |data|
    ensures Packets(data, k) == data[..k * ChannelNum]
    ensures forall p :: 0 <= p < k ==> |Packet(data, p)| == ChannelNum
  {
    if k > 0 {
      PacketFits(k - 1, k);
      assert (k - 1) * ChannelNum <= |data|;
      PacketMajor(data, k - 1);
      assert data[..k * ChannelNum] == data[..(k - 1) * ChannelNum] + data[(k - 1) * ChannelNum .. k * ChannelNum];
      forall p | 0 <= p < k
        ensures |Packet(data, p)| == ChannelNum
      {
        PacketFits(p, k);
      }
    }
  }

  // ---------------------------------------------------------------------
  // readAndSaveSomeData as a whole.

  /** readAndSaveSomeData returns success only when it purged and ran its
      loop to the end; every early return carries an error code. A purge
      failure returns before any status query, and a not-connected ending
      returns that code. (That this ending, and only this one, closes the
      file is stated by ReadAndSaveSomeData.) */
  lemma AcquireEnds(sc: Script, purgeCalls: nat, statusCalls: nat, readCalls: nat)
    ensures var run := Acquire(sc, purgeCalls, statusCalls, readCalls);
      && (run.end == PurgeFailed <==> sc.purge(purgeCalls) != EdlSuccess)
      && (run.end == PurgeFailed ==> run.statusCalls == statusCalls && run.readCalls == readCalls && run.events == [Wait(SettleDelay), Purge])
      && (run.end != Completed ==> run.res != EdlSuccess)
      && (run.end == NotConnected ==> run.res == EdlDeviceNotConnectedError)
  {
    if sc.purge(purgeCalls) == EdlSuccess {
      StopsAtFirstFatal(sc, PollIterations, Fresh(statusCalls, readCalls));
    }
  }

  /** The events the poll loop can trace. */
  predicate LoopEvent(e: Event)
  {
    e.GetStatus? || e.Read? || e.Wait? || e.Notify?
  }

  lemma AdvanceEvents(sc: Script, run: Run)
    requires forall e | e in run.events :: LoopEvent(e)
    ensures forall e | e in Advance(sc, run).events :: LoopEvent(e)
  {
    if run.end == Completed {
      var reply := sc.status(run.statusCalls);
      var overflow := if reply.status.bufferOverflowFlag then [Notify(BufferOverflowNotice)] else [];
      var lost := if reply.status.lostDataFlag then [Notify(LostDataNotice)] else [];
      assert Advisories(reply.status) == overflow + lost;
    }
  }

  /** The poll loop only queries the status, reads, waits and reports: it
      never sends a command, purges or disconnects. */
  lemma {:induction false} LoopEventKinds(sc: Script, n: nat, run: Run)
    requires forall e | e in run.events :: LoopEvent(e)
    ensures forall e | e in Repeat(sc, n, run).events :: LoopEvent(e)
    decreases n
  {
    if n > 0 {
      AdvanceEvents(sc, run);
      LoopEventKinds(sc, n - 1, Advance(sc, run));
    }
  }
}

