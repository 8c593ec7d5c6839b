/**
 * Whole sessions on freshly mounted hooks: each method builds its own context, ports and
 * hooks, drives them as the page would, and states what the session ends with.
 */
module Scenarios {
  import opened SerialTypes
  import opened WebSerial
  import opened WebSerialHook
  import opened Console

  /** The CP210x bridge whose display id `UsbId.UsbIdExample` works out. */
  const Bridge: UsbInfo := UsbInfo(Some(0x10C4), Some(0xEA60))

  /** Closing keeps the port in the context, so the next read rejects with "port not opened". */
  method ReadAfterClose() returns (r: Result<Option<Bytes>>)
    ensures r == Err(ReadNotOpened)
  {
    var port := new SerialPort(Bridge);
    var ctx := new Context();
    var hook := new Hook(ctx);
    hook.SetPort(port);
    var openResult := hook.OpenPort(true);
    var closeResult := hook.ClosePort(true);
    r := hook.Read(Chunk([0x41]));
  }

  /** Reading before any hook opened a port rejects with "no port selected". */
  method ReadBeforeOpen() returns (r: Result<Option<Bytes>>)
    ensures r == Err(ReadNoPort)
  {
    var ctx := new Context();
    var hook := new Hook(ctx);
    r := hook.Read(Done);
  }

  /**
   * Two hooks, one port: the second hook's own isOpen is false, so its openPort gets as far
   * as the port's readable check and rejects; the port is opened once.
   */
  method SecondHookOpen() returns (r: Outcome, log: seq<SerialOptions>)
    ensures r == Fail(PortAlreadyOpened)
    ensures log == [DefaultOptions]
  {
    var port := new SerialPort(Bridge);
    var ctx := new Context();
    var first := new Hook(ctx);
    var second := new Hook(ctx);
    first.SetPort(port);
    second.SetPort(port);
    var openResult := first.OpenPort(true);
    assert port.readable && port.calls == [OpenCall(DefaultOptions)];
    r := second.OpenPort(true);
    assert port.calls == [OpenCall(DefaultOptions)];
    OpenLogOpened([], DefaultOptions);
    log := OpenLog(port.calls);
  }

  /** Options changed before opening are the ones the port is opened with. */
  method OpenWithChangedOptions() returns (log: seq<SerialOptions>)
    ensures log == [SerialOptions(9600, 255, 8, FlowNone, ParityEven, 1)]
  {
    var port := new SerialPort(Bridge);
    var ctx := new Context();
    var hook := new Hook(ctx);
    hook.SetPort(port);
    hook.SetBaudRate(9600);
    hook.SetParity(ParityEven);
    ghost var options := hook.Options();
    var openResult := hook.OpenPort(true);
    assert port.calls == [OpenCall(options)];
    OpenLogOpened([], options);
    log := OpenLog(port.calls);
  }

  /** Two hooks mounted in one process ask the platform for its ports once, and only the first adopts them. */
  method SharedInitialization() returns (queries: nat, firstSelected: bool, secondSelected: bool)
    ensures queries == 1 && firstSelected && !secondSelected
  {
    var port := new SerialPort(Bridge);
    var serial := new Serial([port]);
    var ctx := new Context();
    var first := new Hook(ctx);
    var second := new Hook(ctx);
    first.Initialize(serial);
    second.Initialize(serial);
    queries := serial.getPortsCalls;
    firstSelected := first.port == port;
    secondSelected := second.port == port;
  }

  /** End of stream on an opened port reads as an empty array, and the reader lock is free again. */
  method ReadEndOfStream() returns (r: Result<Option<Bytes>>, locked: bool)
    ensures r == Ok(Some([])) && !locked
  {
    var port := new SerialPort(Bridge);
    var ctx := new Context();
    var hook := new Hook(ctx);
    hook.SetPort(port);
    var openResult := hook.OpenPort(true);
    r := hook.Read(Done);
    locked := port.readerLocked;
  }

  /** A write the platform rejects still releases the writer, so the next write goes through. */
  method WriteAfterRejectedWrite() returns (first: Outcome, second: Outcome, locked: bool)
    ensures first == Fail(HostRejected) && second == Pass && !locked
  {
    var port := new SerialPort(Bridge);
    var ctx := new Context();
    var hook := new Hook(ctx);
    hook.SetPort(port);
    var openResult := hook.OpenPort(true);
    first := hook.Write([0x0D], false);
    second := hook.Write([0x0D], true);
    locked := port.writerLocked;
  }

  /** The reset button on a console whose port is closed issues nothing. */
  method ResetWhileClosed() returns (r: Outcome, trace: seq<Step>)
    ensures r == Pass && trace == []
  {
    var ctx := new Context();
    var hook := new Hook(ctx);
    var view := new View(hook);
    r := view.ResetEsp(None);
    trace := view.trace;
  }

  /** The reset button on an open port issues the whole sequence, and the port receives the three setSignals calls after its open. */
  method ResetWhileOpen() returns (r: Outcome, trace: seq<Step>, calls: seq<PortCall>)
    ensures r == Pass && trace == ResetSteps
    ensures calls == [OpenCall(DefaultOptions), SetSignalsCall(Dtr(false)), SetSignalsCall(Rts(true)), SetSignalsCall(Rts(false))]
  {
    var port := new SerialPort(Bridge);
    var ctx := new Context();
    var hook := new Hook(ctx);
    hook.SetPort(port);
    var openResult := hook.OpenPort(true);
    var view := new View(hook);
    r := view.ResetEsp(None);
    ResetStepsShape();
    trace := view.trace;
    calls := port.calls;
  }

  /**
   * "Start reading" on a closed port: it opens the port, forwards a chunk, skips a swallowed
   * failure, forwards the empty end-of-stream array, and keeps reading.
   */
  method StartReadingSession() returns (r: LoopEnd, terminal: seq<Bytes>)
    ensures r == Reading && terminal == [[0x4F, 0x4B], []]
  {
    var port := new SerialPort(Bridge);
    var ctx := new Context();
    var hook := new Hook(ctx);
    hook.SetPort(port);
    var view := new View(hook);
    r := view.StartReading(true, SessionOutcomes);
    SessionForwarded();
    assert SessionOutcomes[..3] == SessionOutcomes;
    terminal := view.terminal;
  }

  /** A chunk "OK", a read that fails inside read(), then end of stream. */
  const SessionOutcomes: seq<ReadOutcome> := [Chunk([0x4F, 0x4B]), Throws, Done]

  lemma SessionForwarded()
    ensures FirstLoss(false, SessionOutcomes) == None && Consumed(false, SessionOutcomes) == 3
    ensures Forwarded(false, SessionOutcomes) == [[0x4F, 0x4B], []]
  {
    var outcomes := SessionOutcomes;
    assert outcomes[..2][..1] == outcomes[..1] && outcomes[..1][..0] == [];
    assert Forwarded(false, outcomes[..1]) == [[0x4F, 0x4B]];
    assert Forwarded(false, outcomes[..2]) == [[0x4F, 0x4B]];
    assert outcomes[..|outcomes| - 1] == outcomes[..2];
  }

  /** "Start reading" before a port is chosen: openPort rejects outside the try, so the handler's promise rejects. */
  method StartReadingWithoutPort() returns (r: LoopEnd, terminal: seq<Bytes>)
    ensures r == Escaped(NoPortSelected) && terminal == []
  {
    var ctx := new Context();
    var hook := new Hook(ctx);
    var view := new View(hook);
    r := view.StartReading(true, [Chunk([0x41])]);
    terminal := view.terminal;
  }

  /** A chunk "A", a read that loses the device, and a chunk that never arrives. */
  const LostOutcomes: seq<ReadOutcome> := [Chunk([0x41]), Lost, Chunk([0x42])]

  lemma LostForwarded()
    ensures FirstLoss(false, LostOutcomes) == Some(1) && Consumed(false, LostOutcomes) == 2
    ensures Forwarded(false, LostOutcomes[..2]) == [[0x41]]
  {
    var outcomes := LostOutcomes[..2];
    assert outcomes[..1][..0] == [] && outcomes[..|outcomes| - 1] == outcomes[..1];
    assert Forwarded(false, outcomes[..1]) == [[0x41]];
  }

  /**
   * The device drops out while "Start reading" runs: the chunk before is forwarded, the
   * failed read is swallowed, and the next read finds no readable stream, so the loop stops
   * with "port not opened" while the hook still reports the port open. Pressing "Start
   * reading" again does not reopen the port: it stops at once and writes nothing, and the
   * port was opened once.
   */
  method DeviceLost() returns (r: LoopEnd, again: LoopEnd, terminal: seq<Bytes>, isOpen: bool, log: seq<SerialOptions>)
    ensures r == Stopped(ReadNotOpened) && again == Stopped(ReadNotOpened)
    ensures terminal == [[0x41]] && isOpen
    ensures log == [DefaultOptions]
  {
    var port := new SerialPort(Bridge);
    var ctx := new Context();
    var hook := new Hook(ctx);
    hook.SetPort(port);
    var view := new View(hook);
    assert OpenLog(port.calls) == [];
    r := view.StartReading(true, LostOutcomes);
    LostForwarded();
    assert view.terminal == [] + [[0x41]];
    again := view.StartReading(true, [Chunk([0x43])]);
    terminal := view.terminal;
    isOpen := hook.isOpen;
    log := OpenLog(port.calls);
  }
}
