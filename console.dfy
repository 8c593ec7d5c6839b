/**
 * The Console component's drivers on top of the hook: the ESP reset sequence, the
 * open and close toolbar buttons, and the "Start reading" loop that forwards what it
 * reads to the terminal.
 */
module Console {
  import opened SerialTypes
  import opened WebSerial
  import opened WebSerialHook

  /** An awaited step of the reset sequence. */
  datatype Step = SetSignals(update: SignalUpdate) | Sleep(ms: nat)

  function Dtr(b: bool): SignalUpdate
  {
    SignalUpdate(Some(b), None, None)
  }

  function Rts(b: bool): SignalUpdate
  {
    SignalUpdate(None, Some(b), None)
  }

  /** resetEsp on an open port: clear DTR, raise RTS, wait 200 ms, drop RTS. */
  const ResetSteps: seq<Step> := [SetSignals(Dtr(false)), SetSignals(Rts(true)), Sleep(200), SetSignals(Rts(false))]

  /** The host rejects one of the three setSignals calls (numbered from 0). */
  predicate Rejects(rejectedAt: Option<nat>)
  {
    rejectedAt.Some? && rejectedAt.value < 3
  }

  /** The steps resetEsp issues before a rejection stops it: every step up to and including the rejected call. */
  function ResetIssued(rejectedAt: Option<nat>): (steps: seq<Step>)
    ensures 1 <= |steps| <= |ResetSteps| && steps == ResetSteps[..|steps|]
    ensures steps[|steps| - 1].SetSignals?
    ensures !Rejects(rejectedAt) ==> steps == ResetSteps
    ensures steps == ResetSteps <==> !Rejects(rejectedAt) || rejectedAt.value == 2
    ensures Rejects(rejectedAt) ==> |steps| == [1, 2, 4][rejectedAt.value]
  {
    match rejectedAt
    case Some(0) => ResetSteps[..1]
    case Some(1) => ResetSteps[..2]
    case _ => ResetSteps
  }

  /** The port call a step makes: a setSignals call, or none for a wait. */
  function StepCalls(step: Step): seq<PortCall>
  {
    if step.SetSignals? then [SetSignalsCall(step.update)] else []
  }

  /** The port calls the steps make, in order: their setSignals calls. */
  function SignalCalls(steps: seq<Step>): (calls: seq<PortCall>)
    ensures |calls| <= |steps|
  {
    if steps == [] then []
    else SignalCalls(steps[..|steps| - 1]) + StepCalls(steps[|steps| - 1])
  }

  /** One more step extends both the steps taken and the port calls they make by what that step does. */
  lemma StepTaken(trace: seq<Step>, calls: seq<PortCall>, steps: seq<Step>, s: Step)
    ensures trace + (steps + [s]) == (trace + steps) + [s]
    ensures calls + SignalCalls(steps + [s]) == (calls + SignalCalls(steps)) + StepCalls(s)
  {
    assert (steps + [s])[..|steps|] == steps;
  }

  /** setSignals calls leave the port's open log as it was: the reset never reopens the port. */
  lemma {:induction false} SignalsKeepOpenLog(calls: seq<PortCall>, steps: seq<Step>)
    ensures OpenLog(calls + SignalCalls(steps)) == OpenLog(calls)
  {
    if steps != [] {
      var init := steps[..|steps| - 1];
      assert calls + SignalCalls(steps) == (calls + SignalCalls(init)) + StepCalls(steps[|steps| - 1]);
      OpenLogAppend(calls + SignalCalls(init), StepCalls(steps[|steps| - 1]));
      SignalsKeepOpenLog(calls, init);
    } else {
      assert calls + SignalCalls(steps) == calls;
    }
  }

  /**
   * The reset issues exactly three setSignals calls, DTR low, RTS high, RTS low, each naming
   * one signal only, and its one wait (200 ms) lies between raising and dropping RTS.
   */
  lemma ResetStepsShape()
    ensures SignalCalls(ResetSteps) == [SetSignalsCall(Dtr(false)), SetSignalsCall(Rts(true)), SetSignalsCall(Rts(false))]
    ensures forall i :: 0 <= i < |ResetSteps| && ResetSteps[i].SetSignals? ==> FieldCount(ResetSteps[i].update) == 1
    ensures forall i :: 0 <= i < |ResetSteps| && ResetSteps[i].Sleep? ==> i == 2 && ResetSteps[i].ms == 200
  {
    var s1, s2, s3 := ResetSteps[..1], ResetSteps[..2], ResetSteps[..3];
    assert s1[..0] == [] && s2[..1] == s1 && s3[..2] == s2 && ResetSteps[..3] == s3;
    assert SignalCalls(s1) == [SetSignalsCall(Dtr(false))];
    assert SignalCalls(s2) == [SetSignalsCall(Dtr(false)), SetSignalsCall(Rts(true))];
    assert SignalCalls(s3) == [SetSignalsCall(Dtr(false)), SetSignalsCall(Rts(true))];
  }

  /** What `if (data) term.write(data)` writes: a Uint8Array, even an empty one, is truthy; undefined is not. */
  function Written(data: Option<Bytes>): (w: seq<Bytes>)
    ensures |w| <= 1
    ensures w != [] <==> data.Some?
    ensures forall c :: c in w ==> data == Some(c)
  {
    if data.Some? then [data.value] else []
  }

  /** The chunks the read loop writes to the terminal: the truthy read() results, in order. */
  function Forwarded(locked: bool, outcomes: seq<ReadOutcome>): (chunks: seq<Bytes>)
    ensures |chunks| <= |outcomes|
  {
    if outcomes == [] then []
    else Forwarded(locked, outcomes[..|outcomes| - 1]) + Written(ReadValue(locked, outcomes[|outcomes| - 1]))
  }

  /** One more read appends what it forwards to what the terminal already holds. */
  lemma ForwardedStep(terminal: seq<Bytes>, locked: bool, outcomes: seq<ReadOutcome>, i: nat)
    requires i < |outcomes|
    ensures terminal + Forwarded(locked, outcomes[..i + 1])
         == (terminal + Forwarded(locked, outcomes[..i])) + Written(ReadValue(locked, outcomes[i]))
  {
    assert outcomes[..i + 1][..i] == outcomes[..i];
  }

  /** The number of host reads that settled with a value rather than rejecting. */
  function Settled(outcomes: seq<ReadOutcome>): nat
  {
    if outcomes == [] then 0
    else Settled(outcomes[..|outcomes| - 1]) + if Resolved(outcomes[|outcomes| - 1]).Some? then 1 else 0
  }

  /** With the reader free, the terminal receives one chunk per read that settled. */
  lemma {:induction false} ForwardedCount(outcomes: seq<ReadOutcome>)
    ensures |Forwarded(false, outcomes)| == Settled(outcomes)
  {
    if outcomes != [] {
      ForwardedCount(outcomes[..|outcomes| - 1]);
    }
  }

  /** With the reader free, a read that settled lands after the chunks of the settled reads before it. */
  lemma {:induction false} ForwardedAt(outcomes: seq<ReadOutcome>, i: nat)
    requires i < |outcomes| && Resolved(outcomes[i]).Some?
    ensures Settled(outcomes[..i]) < Settled(outcomes) == |Forwarded(false, outcomes)|
    ensures Forwarded(false, outcomes)[Settled(outcomes[..i])] == Resolved(outcomes[i]).value
  {
    var n := |outcomes|;
    var init := outcomes[..n - 1];
    assert outcomes[..n - 1] == init;
    ForwardedCount(init);
    ForwardedCount(outcomes);
    if i < n - 1 {
      assert outcomes[..i] == init[..i];
      assert outcomes[i] == init[i];
      ForwardedAt(init, i);
    } else {
      assert outcomes[..i] == init;
    }
  }

  /**
   * With the reader free, every read that settles is forwarded and none other: the
   * terminal receives one chunk per settled read, and the read at position i lands at the
   * position given by the settled reads before it: its chunk, or an empty array at end of stream.
   */
  lemma ForwardedInOrder(outcomes: seq<ReadOutcome>)
    ensures |Forwarded(false, outcomes)| == Settled(outcomes)
    ensures forall i :: 0 <= i < |outcomes| && Resolved(outcomes[i]).Some? ==>
      Settled(outcomes[..i]) < Settled(outcomes)
      && Forwarded(false, outcomes)[Settled(outcomes[..i])] == Resolved(outcomes[i]).value
  {
    ForwardedCount(outcomes);
    forall i | 0 <= i < |outcomes| && Resolved(outcomes[i]).Some?
      ensures Settled(outcomes[..i]) < Settled(outcomes)
      ensures Forwarded(false, outcomes)[Settled(outcomes[..i])] == Resolved(outcomes[i]).value
    {
      ForwardedAt(outcomes, i);
    }
  }

  /** A reader lock held elsewhere makes every read resolve to undefined: nothing reaches the terminal. */
  lemma {:induction false} ForwardedLocked(outcomes: seq<ReadOutcome>)
    ensures Forwarded(true, outcomes) == []
  {
    if outcomes != [] {
      ForwardedLocked(outcomes[..|outcomes| - 1]);
    }
  }

  /** An end-of-stream result is an empty array, which is truthy: it is written to the terminal. */
  lemma ForwardedDone(prefix: seq<ReadOutcome>)
    ensures Forwarded(false, prefix + [Done]) == Forwarded(false, prefix) + [[]]
  {
    assert (prefix + [Done])[..|prefix|] == prefix;
  }

  /**
   * The position of the first read that takes the port's readable stream away; None when
   * every read leaves it in place, as always with the reader lock held elsewhere.
   */
  function FirstLoss(locked: bool, outcomes: seq<ReadOutcome>): (k: Option<nat>)
    ensures k.None? <==> forall i :: 0 <= i < |outcomes| ==> Survives(locked, outcomes[i])
    ensures k.Some? ==>
      && k.value < |outcomes| && !Survives(locked, outcomes[k.value])
      && forall i :: 0 <= i < k.value ==> Survives(locked, outcomes[i])
  {
    if outcomes == [] then None
    else if !Survives(locked, outcomes[0]) then Some(0)
    else
      match FirstLoss(locked, outcomes[1..])
      case None => None
      case Some(j) => Some(j + 1)
  }

  /** How many host results the read loop consumes: all of them, or those up to and including the loss. */
  function Consumed(locked: bool, outcomes: seq<ReadOutcome>): (n: nat)
    ensures n <= |outcomes|
  {
    match FirstLoss(locked, outcomes)
    case Some(j) => j + 1
    case None => |outcomes|
  }

  /** How the "Start reading" handler ends. */
  datatype LoopEnd =
    | Escaped(error: Error)  // openPort rejected before the try: the handler's promise rejects
    | Stopped(error: Error)  // a read rejected inside the try: caught and logged
    | Reading                // every host read given has settled; the loop awaits the next one

  /** How the loop ends on a port that passes read's guard: stopped by the read after a loss, or still reading. */
  function LoopResult(locked: bool, outcomes: seq<ReadOutcome>): (r: LoopEnd)
    ensures r == Reading <==> forall i :: 0 <= i < |outcomes| ==> Survives(locked, outcomes[i])
    ensures r != Reading ==> r == Stopped(ReadNotOpened)
  {
    if FirstLoss(locked, outcomes).Some? then Stopped(ReadNotOpened) else Reading
  }

  /** The Console component: its hook, what it wrote to the terminal, and the reset steps it issued. */
  class View {
    const serial: Hook
    var terminal: seq<Bytes>
    var trace: seq<Step>

    constructor (serial: Hook)
      ensures this.serial == serial && terminal == [] && trace == []
    {
      this.serial := serial;
      terminal, trace := [], [];
    }

    /**
     * resetEsp: nothing unless the hook reports the port open; then the reset steps on
     * the hook's port, which meet a null port with a TypeError.
     */
    method ResetEsp(rejectedAt: Option<nat>) returns (r: Outcome)
      modifies this`trace, serial.port
      ensures serial.port != null ==>
        && serial.port.readable == old(serial.port.readable) && serial.port.writable == old(serial.port.writable)
        && serial.port.readerLocked == old(serial.port.readerLocked)
        && serial.port.writerLocked == old(serial.port.writerLocked)
        && OpenLog(serial.port.calls) == OpenLog(old(serial.port.calls))
      ensures !serial.isOpen ==>
        r == Pass && trace == old(trace) && (serial.port != null ==> serial.port.calls == old(serial.port.calls))
      ensures serial.isOpen && serial.port == null ==> r == Fail(TypeError) && trace == old(trace)
      ensures serial.isOpen && serial.port != null ==>
        && trace == old(trace) + ResetIssued(rejectedAt)
        && serial.port.calls == old(serial.port.calls) + SignalCalls(ResetIssued(rejectedAt))
        && r == if Rejects(rejectedAt) then Fail(HostRejected) else Pass
    {
      if !serial.isOpen {
        return Pass;
      }
      var p := serial.port;
      if p == null {
        return Fail(TypeError);
      }
      r := SendReset(p, rejectedAt);
      SignalsKeepOpenLog(old(p.calls), ResetIssued(rejectedAt));
    }

    /** The body of resetEsp's `if`: each step in turn on port p; a rejected setSignals call ends the sequence. */
    method SendReset(p: SerialPort, rejectedAt: Option<nat>) returns (r: Outcome)
      modifies this`trace, p`calls
      ensures trace == old(trace) + ResetIssued(rejectedAt)
      ensures p.calls == old(p.calls) + SignalCalls(ResetIssued(rejectedAt))
      ensures r == if Rejects(rejectedAt) then Fail(HostRejected) else Pass
    {
      // `issued` holds the steps taken so far.
      ghost var t0, c0, issued := trace, p.calls, [];
      assert trace == t0 + issued && p.calls == c0 + SignalCalls(issued);
      r := Signal(p, Dtr(false), rejectedAt != Some(0));
      StepTaken(t0, c0, issued, SetSignals(Dtr(false)));
      issued := issued + [SetSignals(Dtr(false))];
      if r.Fail? {
        assert issued == ResetSteps[..1] == ResetIssued(rejectedAt);
        return;
      }
      r := Signal(p, Rts(true), rejectedAt != Some(1));
      StepTaken(t0, c0, issued, SetSignals(Rts(true)));
      issued := issued + [SetSignals(Rts(true))];
      if r.Fail? {
        assert issued == ResetSteps[..2] == ResetIssued(rejectedAt);
        return;
      }
      trace := trace + [Sleep(200)];
      StepTaken(t0, c0, issued, Sleep(200));
      issued := issued + [Sleep(200)];
      r := Signal(p, Rts(false), rejectedAt != Some(2));
      StepTaken(t0, c0, issued, SetSignals(Rts(false)));
      issued := issued + [SetSignals(Rts(false))];
      assert ResetIssued(rejectedAt) == ResetSteps;
      assert issued == ResetSteps;
    }

    /** One `await port.setSignals(update)` of the reset: a step of the trace and a call on the port. */
    method Signal(p: SerialPort, update: SignalUpdate, accepted: bool) returns (r: Outcome)
      modifies this`trace, p`calls
      ensures trace == old(trace) + [SetSignals(update)]
      ensures p.calls == old(p.calls) + [SetSignalsCall(update)]
      ensures r == if accepted then Pass else Fail(HostRejected)
    {
      trace := trace + [SetSignals(update)];
      r := p.SetSignals(update, accepted);
    }

    /** The toolbar button shown while open: it calls closePort only if isOpen. */
    method CloseButton(accepted: bool) returns (r: Outcome)
      modifies serial`isOpen, serial.port
      ensures unchanged(serial.ctx)
      ensures !old(serial.isOpen) ==> r == Pass && !serial.isOpen && (serial.port != null ==> unchanged(serial.port))
      ensures old(serial.isOpen) && serial.port == null ==> r == Fail(NoPortSelected) && serial.isOpen
      ensures old(serial.isOpen) && serial.port != null ==>
        && serial.port.calls == old(serial.port.calls) + [CloseCall]
        && serial.port.readerLocked == old(serial.port.readerLocked)
        && serial.port.writerLocked == old(serial.port.writerLocked)
        && (accepted ==> r == Pass && !serial.port.readable && !serial.port.writable && !serial.isOpen)
        && (!accepted ==> && r == Fail(HostRejected) && serial.isOpen
                          && serial.port.readable == old(serial.port.readable)
                          && serial.port.writable == old(serial.port.writable))
    {
      r := Pass;
      if serial.isOpen {
        r := serial.ClosePort(accepted);
      }
    }

    /** The toolbar button shown while closed: it calls openPort only if not isOpen. */
    method OpenButton(accepted: bool) returns (r: Outcome)
      modifies serial`isOpen, serial.ctx`port, serial.ctx`readable, serial.port
      ensures old(serial.isOpen) ==>
        r == Pass && serial.isOpen && unchanged(serial.ctx) && (serial.port != null ==> unchanged(serial.port))
      ensures !old(serial.isOpen) && serial.port == null ==>
        r == Fail(NoPortSelected) && !serial.isOpen && unchanged(serial.ctx)
      ensures !old(serial.isOpen) && serial.port != null && old(serial.port.readable) ==>
        r == Fail(PortAlreadyOpened) && !serial.isOpen && unchanged(serial.ctx) && unchanged(serial.port)
      ensures !old(serial.isOpen) && serial.port != null && !old(serial.port.readable) ==>
        && serial.port.calls == old(serial.port.calls) + [OpenCall(serial.Options())]
        && OpenLog(serial.port.calls) == OpenLog(old(serial.port.calls)) + [serial.Options()]
        && serial.port.readerLocked == old(serial.port.readerLocked)
        && serial.port.writerLocked == old(serial.port.writerLocked)
        && (accepted && !old(serial.port.writable) ==>
              && r == Pass && serial.isOpen && serial.port.readable && serial.port.writable
                         && serial.ctx.port == serial.port && serial.ctx.readable)
        && (!accepted || old(serial.port.writable) ==>
              && r == Fail(HostRejected) && !serial.isOpen && unchanged(serial.ctx)
                          && !serial.port.readable && serial.port.writable == old(serial.port.writable))
    {
      r := Pass;
      if !serial.isOpen {
        ghost var before := if serial.port == null then [] else serial.port.calls;
        r := serial.OpenPort(accepted);
        if serial.port != null && !old(serial.port.readable) {
          OpenLogOpened(before, serial.Options());
        }
      }
    }

    /** One turn of the read loop: `data = await serial.read()`, then `if (data) term.write(data)`. */
    method ReadOnce(o: ReadOutcome) returns (data: Result<Option<Bytes>>)
      modifies this`terminal, serial.ctx.port
      ensures old(serial.ReadGuard()).Fail? ==>
        && data == Err(old(serial.ReadGuard()).error) && terminal == old(terminal)
        && (serial.ctx.port != null ==> unchanged(serial.ctx.port))
      ensures old(serial.ReadGuard()).Pass? ==>
        && data == Ok(ReadValue(old(serial.ctx.port.readerLocked), o))
        && serial.ctx.port.readable == Survives(old(serial.ctx.port.readerLocked), o)
        && serial.ctx.port.readerLocked == old(serial.ctx.port.readerLocked)
        && serial.ctx.port.calls == old(serial.ctx.port.calls) + ReadCalls(old(serial.ctx.port.readerLocked))
        && terminal == old(terminal) + Written(data.value)
    {
      data := serial.Read(o);
      if data.Ok? && data.value.Some? {
        terminal := terminal + [data.value.value];
      }
    }

    /**
     * The `while (true)` loop of the "Start reading" handler on a port that passes read()'s
     * guard. Each truthy result is written to the terminal and a falsy one is skipped. A read
     * that takes the stream away makes the next read() fail its guard, which the catch turns
     * into the end of the loop. `outcomes` are the host's results for successive reads.
     */
    method ForwardAll(outcomes: seq<ReadOutcome>) returns (r: LoopEnd)
      requires serial.ReadGuard().Pass?
      modifies this`terminal, serial.ctx.port
      ensures var locked := old(serial.ctx.port.readerLocked);
        && r == LoopResult(locked, outcomes)
        && serial.ctx.port.readable == FirstLoss(locked, outcomes).None?
        && serial.ctx.port.readerLocked == locked
        && serial.ctx.port.calls == old(serial.ctx.port.calls) + ReadsLog(locked, Consumed(locked, outcomes))
        && terminal == old(terminal) + Forwarded(locked, outcomes[..Consumed(locked, outcomes)])
    {
      var p := serial.ctx.port;
      ghost var locked := p.readerLocked;
      ghost var c0 := p.calls;
      ghost var t0 := terminal;
      var i := 0;
      while i < |outcomes|
        invariant 0 <= i <= |outcomes|
        invariant p.readable && p.readerLocked == locked && p.calls == c0 + ReadsLog(locked, i)
        invariant terminal == t0 + Forwarded(locked, outcomes[..i])
        invariant forall k :: 0 <= k < i ==> Survives(locked, outcomes[k])
      {
        var data := ReadOnce(outcomes[i]);
        ReadsLogStep(c0, locked, i);
        ForwardedStep(t0, locked, outcomes, i);
        i := i + 1;
        if !p.readable {
          // The next turn's read() fails its guard and the catch ends the loop.
          var g := serial.ReadGuard();
          return Stopped(g.error);
        }
      }
      assert outcomes[..i] == outcomes;
      r := Reading;
    }

    /**
     * The read loop as a whole: when read()'s guard fails at once, the first read rejects
     * and the catch ends the loop before anything is written; otherwise it runs as ForwardAll.
     */
    method ReadLoop(outcomes: seq<ReadOutcome>) returns (r: LoopEnd)
      modifies this`terminal, serial.ctx.port
      ensures old(serial.ReadGuard()).Fail? ==>
        && r == Stopped(old(serial.ReadGuard()).error) && terminal == old(terminal)
        && (serial.ctx.port != null ==> unchanged(serial.ctx.port))
      ensures old(serial.ReadGuard()).Pass? ==>
        var locked := old(serial.ctx.port.readerLocked);
        && r == LoopResult(locked, outcomes)
        && serial.ctx.port.readable == FirstLoss(locked, outcomes).None?
        && serial.ctx.port.readerLocked == locked
        && serial.ctx.port.calls == old(serial.ctx.port.calls) + ReadsLog(locked, Consumed(locked, outcomes))
        && terminal == old(terminal) + Forwarded(locked, outcomes[..Consumed(locked, outcomes)])
    {
      var g := serial.ReadGuard();
      if g.Fail? {
        // read() throws before it touches the port.
        return Stopped(g.error);
      }
      r := ForwardAll(outcomes);
    }

    /**
     * The "Start reading" handler: it calls openPort first only when the hook says the
     * port is closed, outside the try, so a rejection there escapes the handler; then it
     * runs the read loop, whose only way out is a rejected read, which is caught.
     */
    method StartReading(openAccepted: bool, outcomes: seq<ReadOutcome>) returns (r: LoopEnd)
      modifies this`terminal, serial`isOpen, serial.ctx`port, serial.ctx`readable, serial.port, serial.ctx.port
      ensures old(serial.isOpen) ==>
        serial.isOpen && serial.ctx.port == old(serial.ctx.port)
        && (serial.port != null ==> OpenLog(serial.port.calls) == OpenLog(old(serial.port.calls)))
      ensures !old(serial.isOpen) && serial.port != null && !old(serial.port.readable) ==>
        OpenLog(serial.port.calls) == OpenLog(old(serial.port.calls)) + [serial.Options()]
      ensures r.Escaped? <==>
        !old(serial.isOpen) && (serial.port == null || old(serial.port.readable) || old(serial.port.writable) || !openAccepted)
      ensures r.Escaped? ==>
        && terminal == old(terminal) && !serial.isOpen && unchanged(serial.ctx)
        && (serial.port != null && old(serial.port.readable) ==> unchanged(serial.port))
        && r.error == if serial.port == null then NoPortSelected
                      else if old(serial.port.readable) then PortAlreadyOpened else HostRejected
      ensures old(serial.isOpen) && old(serial.ReadGuard()).Fail? ==>
        r == Stopped(old(serial.ReadGuard()).error) && terminal == old(terminal)
      ensures old(serial.isOpen) && old(serial.ReadGuard()).Pass? ==>
        var locked := old(serial.ctx.port.readerLocked);
        && r == LoopResult(locked, outcomes)
        && terminal == old(terminal) + Forwarded(locked, outcomes[..Consumed(locked, outcomes)])
      ensures !old(serial.isOpen) && !r.Escaped? ==>
        var locked := old(serial.port.readerLocked);
        && serial.port != null && serial.ctx.port == serial.port && serial.isOpen
        && serial.port.readable == FirstLoss(locked, outcomes).None? && serial.port.readerLocked == locked
        && r == LoopResult(locked, outcomes)
        && terminal == old(terminal) + Forwarded(locked, outcomes[..Consumed(locked, outcomes)])
    {
      if serial.isOpen {
        ghost var before := if serial.ctx.port == null then [] else serial.ctx.port.calls;
        ghost var locked := serial.ctx.port != null && serial.ctx.port.readerLocked;
        ghost var g := serial.ReadGuard();
        r := ReadLoop(outcomes);
        if g.Pass? {
          ReadsKeepOpenLog(before, locked, Consumed(locked, outcomes));
        }
      } else {
        r := OpenThenRead(openAccepted, outcomes);
      }
    }

    /** The handler's path while the hook says the port is closed: openPort, then the read loop if it passed. */
    method OpenThenRead(openAccepted: bool, outcomes: seq<ReadOutcome>) returns (r: LoopEnd)
      requires !serial.isOpen
      modifies this`terminal, serial`isOpen, serial.ctx`port, serial.ctx`readable, serial.port, serial.ctx.port
      ensures serial.port != null && !old(serial.port.readable) ==>
        OpenLog(serial.port.calls) == OpenLog(old(serial.port.calls)) + [serial.Options()]
      ensures r.Escaped? <==>
        serial.port == null || old(serial.port.readable) || old(serial.port.writable) || !openAccepted
      ensures r.Escaped? ==>
        && terminal == old(terminal) && !serial.isOpen && unchanged(serial.ctx)
        && (serial.port != null && old(serial.port.readable) ==> unchanged(serial.port))
        && r.error == if serial.port == null then NoPortSelected
                      else if old(serial.port.readable) then PortAlreadyOpened else HostRejected
      ensures !r.Escaped? ==>
        var locked := old(serial.port.readerLocked);
        && serial.port != null && serial.ctx.port == serial.port && serial.isOpen
        && serial.port.readable == FirstLoss(locked, outcomes).None? && serial.port.readerLocked == locked
        && r == LoopResult(locked, outcomes)
        && terminal == old(terminal) + Forwarded(locked, outcomes[..Consumed(locked, outcomes)])
    {
      ghost var before := if serial.port == null then [] else serial.port.calls;
      var openResult := serial.OpenPort(openAccepted);
      if serial.port != null && !old(serial.port.readable) {
        OpenLogOpened(before, serial.Options());
      }
      if openResult.Fail? {
        return Escaped(openResult.error);
      }
      assert serial.port != null && serial.ctx.port == serial.port && serial.ReadGuard() == Pass;
      ghost var afterOpen := serial.port.calls;
      ghost var locked := serial.port.readerLocked;
      assert locked == old(serial.port.readerLocked);
      r := ReadLoop(outcomes);
      ReadsKeepOpenLog(afterOpen, locked, Consumed(locked, outcomes));
    }
  }

  /** An open call appends its options to the open log. */
  lemma OpenLogOpened(calls: seq<PortCall>, options: SerialOptions)
    ensures OpenLog(calls + [OpenCall(options)]) == OpenLog(calls) + [options]
  {
    assert (calls + [OpenCall(options)])[..|calls|] == calls;
  }
}
