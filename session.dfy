/** The entry point of caller.cpp: detect and connect the device, run the
    three configuration phases, open the data file, acquire, close the file,
    and disconnect with retries; the exit code is 0 only when every phase
    succeeded. */
module Session {
  import opened Edl
  import opened Storage
  import opened Configuration
  import opened Acquisition
  import opened LoopProperties

  /** How many times main tries to disconnect, one millisecond apart. */
  const DisconnectAttempts: nat := 1000

  /** The pause after a failed disconnection attempt, in milliseconds. */
  const RetryDelay: nat := 1

  /** The effect of the disconnection loop: the code left in res, how many
      times disconnectDevice was called and the events traced. */
  datatype Teardown = Teardown(res: ErrorCode, attempts: nat, events: seq<Event>)

  /** The events of k failed disconnection attempts: each a call followed
      by a pause. */
  function Failures(k: nat): (es: seq<Event>)
    ensures |es| == 2 * k
  {
    seq(2 * k, i => if i % 2 == 0 then Disconnect else Wait(RetryDelay))
  }

  /** At most n disconnection attempts, the first taking reply from of the
      script, with res holding last on entry. */
  function Retry(sc: Script, from: nat, n: nat, last: ErrorCode): Teardown
    decreases n, last
  {
    if n == 0 then Teardown(last, 0, [])
    else
      var r := sc.disconnect(from);
      if r == EdlSuccess then Teardown(r, 1, [Disconnect])
      else
        var t := Retry(sc, from + 1, n - 1, r);
        Teardown(t.res, t.attempts + 1, [Disconnect, Wait(RetryDelay)] + t.events)
  }

  /** The disconnection loop of main: up to DisconnectAttempts calls of
      disconnectDevice, stopping at the first success, pausing after every
      failure. res is the code main holds when the loop starts. */
  method DisconnectWithRetry(edl: Device, res0: ErrorCode) returns (res: ErrorCode)
    modifies edl`disconnectCalls, edl`trace
    ensures var t := Retry(edl.script, old(edl.disconnectCalls), DisconnectAttempts, res0);
      && res == t.res
      && edl.disconnectCalls == old(edl.disconnectCalls) + t.attempts
      && edl.trace == old(edl.trace) + t.events
  {
    ghost var from, trace0 := edl.disconnectCalls, edl.trace;
    ghost var done: seq<Event> := [];
    res := res0;
    var c: nat := 0;
    while c < DisconnectAttempts
      invariant c <= DisconnectAttempts
      invariant edl.disconnectCalls == from + c && edl.trace == trace0 + done
      invariant OnTrack(edl.script, from, res0, c, done, res)
    {
      ghost var last, expected := res, edl.script.disconnect(edl.disconnectCalls);
      RetryStep(edl.script, from, res0, c, done, last);
      res := Attempt(edl, edl.disconnectCalls, expected);
      if res == EdlSuccess {
        Associative(trace0, done, [Disconnect]);
        return;
      }
      Associative(trace0, done, [Disconnect, Wait(RetryDelay)]);
      done := done + [Disconnect, Wait(RetryDelay)];
      c := c + 1;
    }
    RetryDone(edl.script, from, res0, done, res);
  }

  /** One disconnection attempt, followed by a pause if it failed; it is
      attempt number at, and reply is the answer the script holds for it. */
  method Attempt(edl: Device, ghost at: nat, ghost reply: ErrorCode) returns (res: ErrorCode)
    requires edl.disconnectCalls == at && reply == edl.script.disconnect(at)
    modifies edl`disconnectCalls, edl`trace
    ensures res == reply && edl.disconnectCalls == old(edl.disconnectCalls) + 1
    ensures edl.trace == old(edl.trace) + if res == EdlSuccess then [Disconnect] else [Disconnect, Wait(RetryDelay)]
  {
    res := edl.DisconnectDevice();
    if res != EdlSuccess {
      edl.Sleep(RetryDelay);
    }
  }

  /** After k failed attempts that traced done, with res holding last, the
      remaining attempts complete the whole disconnection loop. */
  ghost predicate OnTrack(sc: Script, from: nat, res0: ErrorCode, k: nat, done: seq<Event>, last: ErrorCode)
  {
    k <= DisconnectAttempts &&
    var rest := Retry(sc, from + k, DisconnectAttempts - k, last);
    Retry(sc, from, DisconnectAttempts, res0) == Teardown(rest.res, k + rest.attempts, done + rest.events)
  }

  /** One attempt on track: a success ends the loop with the call traced,
      and a failure keeps the loop on track with one more call and pause. */
  lemma RetryStep(sc: Script, from: nat, res0: ErrorCode, k: nat, done: seq<Event>, last: ErrorCode)
    requires k < DisconnectAttempts && OnTrack(sc, from, res0, k, done, last)
    ensures var reply := sc.disconnect(from + k);
      && (reply == EdlSuccess ==> Retry(sc, from, DisconnectAttempts, res0) == Teardown(EdlSuccess, k + 1, done + [Disconnect]))
      && (reply != EdlSuccess ==> OnTrack(sc, from, res0, k + 1, done + [Disconnect, Wait(RetryDelay)], reply))
  {
    var reply := sc.disconnect(from + k);
    if reply != EdlSuccess {
      Associative(done, [Disconnect, Wait(RetryDelay)], Retry(sc, from + k + 1, DisconnectAttempts - k - 1, reply).events);
    }
  }

  /** On track after all the attempts: the loop is complete. */
  lemma RetryDone(sc: Script, from: nat, res0: ErrorCode, done: seq<Event>, last: ErrorCode)
    requires OnTrack(sc, from, res0, DisconnectAttempts, done, last)
    ensures Retry(sc, from, DisconnectAttempts, res0) == Teardown(last, DisconnectAttempts, done)
  {
  }

  /** The attempts stop at the first success: if the first j replies fail and
      reply j succeeds, exactly j + 1 attempts are made, and the loop ends
      with success. */
  lemma {:induction false} RetryStopsAtFirstSuccess(sc: Script, from: nat, n: nat, last: ErrorCode, j: nat)
    requires j < n
    requires forall i :: from <= i < from + j ==> sc.disconnect(i) != EdlSuccess
    requires sc.disconnect(from + j) == EdlSuccess
    ensures Retry(sc, from, n, last) == Teardown(EdlSuccess, j + 1, Failures(j) + [Disconnect])
    decreases n
  {
    if j > 0 {
      RetryStopsAtFirstSuccess(sc, from + 1, n - 1, sc.disconnect(from), j - 1);
      FailuresFront(j - 1);
      assert [Disconnect, Wait(RetryDelay)] + (Failures(j - 1) + [Disconnect]) == Failures(j) + [Disconnect];
    }
  }

  /** One more failure at the front. */
  lemma FailuresFront(k: nat)
    ensures [Disconnect, Wait(RetryDelay)] + Failures(k) == Failures(k + 1)
  {
    assert forall i :: 0 <= i < 2 * k ==> Failures(k + 1)[i + 2] == Failures(k)[i];
  }

  /** If every attempt fails, all n are made, each followed by a pause, and
      the loop ends with the last failure's code. */
  lemma {:induction false} RetryExhausted(sc: Script, from: nat, n: nat, last: ErrorCode)
    requires n > 0
    requires forall i :: from <= i < from + n ==> sc.disconnect(i) != EdlSuccess
    ensures Retry(sc, from, n, last) == Teardown(sc.disconnect(from + n - 1), n, Failures(n))
    decreases n
  {
    FailuresFront(n - 1);
    if n > 1 {
      RetryExhausted(sc, from + 1, n - 1, sc.disconnect(from));
    }
  }

  /** The loop never makes more than n attempts, and for n > 0 it ends with
      success exactly when one of the n replies is a success. */
  lemma {:induction false} RetrySucceedsIff(sc: Script, from: nat, n: nat, last: ErrorCode)
    requires n > 0
    ensures var t := Retry(sc, from, n, last);
      && 1 <= t.attempts <= n
      && (t.res == EdlSuccess <==> exists i :: from <= i < from + n && sc.disconnect(i) == EdlSuccess)
    decreases n
  {
    if sc.disconnect(from) != EdlSuccess && n > 1 {
      RetrySucceedsIff(sc, from + 1, n - 1, sc.disconnect(from));
      var t := Retry(sc, from + 1, n - 1, sc.disconnect(from));
      if t.res == EdlSuccess {
        var i :| from + 1 <= i < from + n && sc.disconnect(i) == EdlSuccess;
      } else {
        forall i | from <= i < from + n
          ensures sc.disconnect(i) != EdlSuccess
        {
          if i > from {
            assert !(from + 1 <= i < from + 1 + (n - 1) && sc.disconnect(i) == EdlSuccess);
          }
        }
      }
    }
  }

  // ---------------------------------------------------------------------
  // The whole session.

  /** What a run of main leaves behind: the exit code, the events traced,
      whether data.dat was opened, what was written to it and how many times
      it was closed. */
  datatype Outcome = Outcome(exit: int, events: seq<Event>, fileOpened: bool, values: seq<Float>, closes: nat)

  /** The calls main makes before it opens the data file, once the device
      is connected. */
  function Setup(): seq<Event>
  {
    [Detect, Connect] + SetupCalls()
  }

  /** A run of main against a scripted device. */
  function MainOutcome(sc: Script): (o: Outcome)
    ensures o.exit == 0 || o.exit == -1
    ensures o.closes <= 1
    ensures !o.fileOpened ==> o.exit == -1 && o.values == [] && o.closes == 0
  {
    if sc.detect != EdlSuccess then Outcome(-1, [Detect], false, [], 0)
    else if sc.connect != EdlSuccess then Outcome(-1, [Detect, Connect], false, [], 0)
    else
      var run := Acquire(sc, 0, 0, 0);
      if run.res != EdlSuccess then
        Outcome(-1, Setup() + run.events, true, run.values, if run.end == NotConnected then 1 else 0)
      else
        var t := Retry(sc, 0, DisconnectAttempts, run.res);
        Outcome(if t.res == EdlSuccess then 0 else -1, Setup() + run.events + t.events, true, run.values, 1)
  }

  /** main, against a device that answers from the script. The file handle
      is null until data.dat is opened. */
  method RunMain(sc: Script) returns (exit: int, edl: Device, f: DataFile?)
    ensures var o := MainOutcome(sc);
      && exit == o.exit && edl.trace == o.events
      && (f != null) == o.fileOpened
      && (f != null ==> f.contents == o.values && f.closes == o.closes && f.open == (o.closes == 0))
  {
    edl := new Device(sc);
    f := null;
    var res := edl.DetectDevices();
    if res != EdlSuccess {
      return -1, edl, f;
    }
    res := edl.ConnectDevice();
    if res != EdlSuccess {
      return -1, edl, f;
    }
    ConfigureWorkingModality(edl);
    CompensateDigitalOffset(edl);
    SetTriangularProtocol(edl);
    assert edl.trace == Setup();
    f := new DataFile.Open();
    res := ReadAndSaveSomeData(edl, f);
    AcquireEnds(sc, 0, 0, 0);
    if res != EdlSuccess {
      return -1, edl, f;
    }
    f.Close();
    res := DisconnectWithRetry(edl, res);
    if res != EdlSuccess {
      return -1, edl, f;
    }
    return 0, edl, f;
  }

  // ---------------------------------------------------------------------
  // Properties of a whole run of main.

  /** The disconnection loop only disconnects and waits. */
  lemma {:induction false} RetryEventKinds(sc: Script, from: nat, n: nat, last: ErrorCode)
    ensures forall e | e in Retry(sc, from, n, last).events :: e == Disconnect || e.Wait?
    decreases n
  {
    if n > 0 && sc.disconnect(from) != EdlSuccess {
      RetryEventKinds(sc, from + 1, n - 1, sc.disconnect(from));
    }
  }

  /** main exits with 0 exactly when the device was detected and connected,
      readAndSaveSomeData purged and ran all its iterations with success
      returned by the last one, and one of the DisconnectAttempts
      disconnection attempts succeeded. */
  lemma MainSucceedsIff(sc: Script)
    ensures var run := Poll(sc, 0, 0);
      MainOutcome(sc).exit == 0 <==>
        && sc.detect == EdlSuccess && sc.connect == EdlSuccess && sc.purge(0) == EdlSuccess
        && run.end == Completed && run.res == EdlSuccess
        && exists i :: 0 <= i < DisconnectAttempts && sc.disconnect(i) == EdlSuccess
  {
    AcquireEnds(sc, 0, 0, 0);
    RetrySucceedsIff(sc, 0, DisconnectAttempts, EdlSuccess);
  }

  /** Everything main traces after the configuration, once connected. */
  function Tail(sc: Script): seq<Event>
  {
    var run := Acquire(sc, 0, 0, 0);
    run.events + if run.res == EdlSuccess then Retry(sc, 0, DisconnectAttempts, run.res).events else []
  }

  lemma TailShape(sc: Script)
    requires sc.detect == EdlSuccess && sc.connect == EdlSuccess
    ensures MainOutcome(sc).events == Setup() + Tail(sc)
    ensures forall e | e in Tail(sc) :: !e.Command?
    ensures Acquire(sc, 0, 0, 0).res != EdlSuccess ==> Disconnect !in Tail(sc)
  {
    var run := Acquire(sc, 0, 0, 0);
    if sc.purge(0) == EdlSuccess {
      LoopEventKinds(sc, PollIterations, Fresh(0, 0));
    }
    assert forall e | e in run.events :: !e.Command? && e != Disconnect;
    RetryEventKinds(sc, 0, DisconnectAttempts, run.res);
  }

  lemma SetupKinds()
    ensures forall e | e in Setup() :: e == Detect || e == Connect || e.Command? || e.Wait?
  {
    assert Setup() == [Detect, Connect] + ConfigureCalls() + CompensateCalls() + TriangularCalls();
  }

  /** The configuration phases come first and in order: once the device is
      connected the trace starts with detection, connection and every
      configuration command, and no command is sent after them. */
  lemma ConfigurationFirst(sc: Script)
    requires sc.detect == EdlSuccess && sc.connect == EdlSuccess
    ensures var events := MainOutcome(sc).events;
      && |Setup()| <= |events| && events[..|Setup()|] == Setup()
      && forall i :: |Setup()| <= i < |events| ==> !events[i].Command?
  {
    TailShape(sc);
    CommandsFirst(MainOutcome(sc).events, Setup(), Tail(sc));
  }

  lemma CommandsFirst(events: seq<Event>, setup: seq<Event>, tail: seq<Event>)
    requires events == setup + tail && forall e | e in tail :: !e.Command?
    ensures |setup| <= |events| && events[..|setup|] == setup
    ensures forall i :: |setup| <= i < |events| ==> !events[i].Command?
  {
    assert events[..|setup|] == setup;
    forall i | |setup| <= i < |events|
      ensures !events[i].Command?
    {
      assert events[i] == tail[i - |setup|];
    }
  }

  /** When readAndSaveSomeData fails, main stops at once: it neither closes
      the file nor disconnects the device. */
  lemma FailedMainKeepsDevice(sc: Script)
    requires sc.detect == EdlSuccess && sc.connect == EdlSuccess
    requires Acquire(sc, 0, 0, 0).res != EdlSuccess
    ensures var run, o := Acquire(sc, 0, 0, 0), MainOutcome(sc);
      && o.exit == -1 && o.fileOpened && o.values == run.values
      && o.closes == (if run.end == NotConnected then 1 else 0)
      && Disconnect !in o.events
  {
    TailShape(sc);
    SetupKinds();
    var events := MainOutcome(sc).events;
    assert events == Setup() + Tail(sc);
    assert Disconnect !in Setup();
  }

  /** A failed purge makes main fail right after it: no status query, the
      file opened but never written or closed. */
  lemma PurgeFailureStopsMain(sc: Script)
    requires sc.detect == EdlSuccess && sc.connect == EdlSuccess && sc.purge(0) != EdlSuccess
    ensures MainOutcome(sc) == Outcome(-1, Setup() + [Wait(SettleDelay), Purge], true, [], 0)
  {
    AcquireEnds(sc, 0, 0, 0);
  }

  /** A failed status query makes main fail without closing the file. */
  lemma StatusFailureLeavesFileOpen(sc: Script)
    requires sc.detect == EdlSuccess && sc.connect == EdlSuccess
    requires Acquire(sc, 0, 0, 0).end == StatusFailed
    ensures var o := MainOutcome(sc);
      && o.exit == -1 && o.fileOpened && o.closes == 0
      && o.values == Acquire(sc, 0, 0, 0).values
      && Disconnect !in o.events
  {
    AcquireEnds(sc, 0, 0, 0);
    TailShape(sc);
    SetupKinds();
  }

  /** A read that finds the device disconnected: readAndSaveSomeData closes
      the file and returns at once, the read being the last call made, and
      main fails without closing the file a second time or disconnecting. */
  lemma NotConnectedClosesOnce(sc: Script)
    requires sc.detect == EdlSuccess && sc.connect == EdlSuccess
    requires Acquire(sc, 0, 0, 0).end == NotConnected
    ensures var o := MainOutcome(sc);
      && o.exit == -1 && o.closes == 1
      && |o.events| > 0 && o.events[|o.events| - 1].Read?
      && Disconnect !in o.events
  {
    AcquireEnds(sc, 0, 0, 0);
    StopsAtFirstFatal(sc, PollIterations, Fresh(0, 0));
    TailShape(sc);
    SetupKinds();
  }

  /** If the last iteration of the loop reads and gets fewer packets than
      it asked for, readAndSaveSomeData returns the not-enough-data code and
      main fails, although every packet read was written: the file is left
      open and the device connected. */
  lemma PartialFinalReadFailsMain(sc: Script)
    requires sc.detect == EdlSuccess && sc.connect == EdlSuccess && sc.purge(0) == EdlSuccess
    requires Poll(sc, 0, 0).end == Completed && Reads(sc, PollIterations - 1)
    requires Poll(sc, 0, 0).readCalls > 0 && sc.read(Poll(sc, 0, 0).readCalls - 1).res == EdlNotEnoughAvailableDataError
    ensures var o := MainOutcome(sc);
      o.exit == -1 && o.closes == 0 && Disconnect !in o.events
  {
    var poll := Poll(sc, 0, 0);
    LastResult(sc, PollIterations, Fresh(0, 0));
    assert poll.res == EdlNotEnoughAvailableDataError;
    var run := Acquire(sc, 0, 0, 0);
    assert run == Then([Wait(SettleDelay), Purge], [], poll);
    FailedMainKeepsDevice(sc);
  }
}

