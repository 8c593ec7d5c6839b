/**
 * The useWebSerial hook: the process-wide webSerialContext, and the state one hook
 * instance keeps (selected port, port list, open flag, line options, output-signal flags)
 * with the operations it returns. React state setters are plain field assignments.
 */
module WebSerialHook {
  import opened SerialTypes
  import opened WebSerial

  /** webSerialContext: shared by every hook in the process. */
  class Context {
    var initialized: bool
    var port: SerialPort?
    var ports: seq<SerialPort>
    /** Whether a readable stream of the opened port was stored. */
    var readable: bool

    constructor ()
      ensures !initialized && port == null && ports == [] && !readable
    {
      initialized, port, ports, readable := false, null, [], false;
    }
  }

  /** The platform has been asked for its ports exactly when initialization has run. */
  predicate QueriedOnce(ctx: Context, serial: Serial)
    reads ctx, serial
  {
    serial.getPortsCalls == if ctx.initialized then 1 else 0
  }

  /** The value read() resolves to once it holds the reader; None stands for undefined. */
  function Resolved(o: ReadOutcome): Option<Bytes>
  {
    match o
    case Chunk(v) => Some(v)
    case Done => Some([])
    case Throws => None
    case Lost => None
  }

  /** Whether the port still has its readable stream after a read with the reader lock `locked` beforehand. */
  function Survives(locked: bool, o: ReadOutcome): (s: bool)
    ensures !s ==> !locked && Resolved(o).None?
  {
    locked || !o.Lost?
  }

  /** The value read() resolves to on an opened port whose reader lock is `locked` beforehand. */
  function ReadValue(locked: bool, o: ReadOutcome): Option<Bytes>
  {
    if locked then None else Resolved(o)
  }

  /** The calls read() makes on an opened port: getReader alone when it throws, else getReader, read, releaseLock. */
  function ReadCalls(locked: bool): seq<PortCall>
  {
    if locked then [GetReaderCall] else [GetReaderCall, ReaderReadCall, ReleaseReaderCall]
  }

  /** The calls n successive reads make on an opened port whose reader lock stays `locked`. */
  function ReadsLog(locked: bool, n: nat): (calls: seq<PortCall>)
    ensures |calls| == n * |ReadCalls(locked)|
  {
    if n == 0 then [] else ReadsLog(locked, n - 1) + ReadCalls(locked)
  }

  lemma ReadsLogStep(calls: seq<PortCall>, locked: bool, n: nat)
    ensures calls + ReadsLog(locked, n + 1) == (calls + ReadsLog(locked, n)) + ReadCalls(locked)
  {
  }

  /** A read leaves the port's open log as it was. */
  lemma ReadKeepsOpenLog(calls: seq<PortCall>, locked: bool)
    ensures OpenLog(calls + ReadCalls(locked)) == OpenLog(calls)
  {
    OpenLogAppend(calls, ReadCalls(locked));
  }

  /** Any number of reads leaves the port's open log as it was: reading never reopens. */
  lemma {:induction false} ReadsKeepOpenLog(calls: seq<PortCall>, locked: bool, n: nat)
    ensures OpenLog(calls + ReadsLog(locked, n)) == OpenLog(calls)
  {
    if n == 0 {
      assert calls + ReadsLog(locked, n) == calls;
    } else {
      assert calls + ReadsLog(locked, n) == (calls + ReadsLog(locked, n - 1)) + ReadCalls(locked);
      ReadKeepsOpenLog(calls + ReadsLog(locked, n - 1), locked);
      ReadsKeepOpenLog(calls, locked, n - 1);
    }
  }

  class Hook {
    const ctx: Context
    var port: SerialPort?
    var ports: seq<SerialPort>
    var isOpen: bool

    var baudRate: nat
    var bufferSize: nat
    var dataBits: nat
    var stopBits: nat
    var flowControl: FlowControl
    var parity: Parity

    var dataTerminalReady: bool
    var requestToSend: bool
    var breakSignal: bool

    /** Mounting the hook: every state starts at its initial value; the port list starts as the context's. */
    constructor (ctx: Context)
      ensures this.ctx == ctx
      ensures port == null && ports == ctx.ports && !isOpen
      ensures Options() == DefaultOptions
      ensures !dataTerminalReady && !requestToSend && !breakSignal
    {
      this.ctx := ctx;
      port, ports, isOpen := null, ctx.ports, false;
      baudRate, bufferSize, dataBits, stopBits := 115200, 255, 8, 1;
      flowControl, parity := FlowNone, ParityNone;
      dataTerminalReady, requestToSend, breakSignal := false, false, false;
    }

    /** The options object openPort hands to port.open. */
    function Options(): SerialOptions
      reads this`baudRate, this`bufferSize, this`dataBits, this`flowControl, this`parity, this`stopBits
    {
      SerialOptions(baudRate, bufferSize, dataBits, flowControl, parity, stopBits)
    }

    /** The checks read() makes before it touches the context's port. */
    function ReadGuard(): Outcome
      reads ctx, ctx.port
    {
      if ctx.port == null then Fail(ReadNoPort)
      else if !ctx.port.readable then Fail(ReadNotOpened)
      else Pass
    }

    /**
     * The one-shot effect: it queries the platform only if the context is not yet
     * initialized, and adopts a non-empty port list, selecting its first port.
     */
    method Initialize(serial: Serial)
      modifies ctx`initialized, ctx`ports, this`ports, this`port, serial`getPortsCalls
      ensures ctx.initialized
      ensures old(QueriedOnce(ctx, serial)) ==> QueriedOnce(ctx, serial)
      ensures old(ctx.initialized) ==>
        serial.getPortsCalls == old(serial.getPortsCalls) && ctx.ports == old(ctx.ports)
        && ports == old(ports) && port == old(port)
      ensures !old(ctx.initialized) ==> serial.getPortsCalls == old(serial.getPortsCalls) + 1
      ensures !old(ctx.initialized) && |serial.authorized| >= 1 ==>
        ctx.ports == serial.authorized && ports == serial.authorized && port == serial.authorized[0]
      ensures !old(ctx.initialized) && |serial.authorized| == 0 ==>
        ctx.ports == old(ctx.ports) && ports == old(ports) && port == old(port)
    {
      if ctx.initialized {
        return;
      }
      ctx.initialized := true;
      var found := serial.GetPorts();
      if |found| >= 1 {
        ctx.ports := found;
        ports := found;
        port := found[0];
      }
    }

    /** requestPort: the user's choice becomes the selected port; a cancelled prompt rejects. */
    method RequestPort(choice: Option<SerialPort>) returns (r: Outcome)
      modifies this`port
      ensures choice.Some? ==> r == Pass && port == choice.value
      ensures choice.None? ==> r == Fail(HostRejected) && port == old(port)
    {
      match choice
      case Some(p) =>
        port := p;
        r := Pass;
      case None =>
        r := Fail(HostRejected);
    }

    method SetPort(p: SerialPort?)
      modifies this`port
      ensures port == p
    {
      port := p;
    }

    /**
     * openPort: rejects without touching anything when no port is selected or the port
     * already has a readable stream; otherwise opens it with the current options and only
     * after the platform accepts stores the port and its stream in the context and sets isOpen.
     */
    method OpenPort(accepted: bool) returns (r: Outcome)
      modifies this`isOpen, ctx`port, ctx`readable, port
      ensures port == null ==> r == Fail(NoPortSelected) && isOpen == old(isOpen) && unchanged(ctx)
      ensures port != null && old(port.readable) ==>
        r == Fail(PortAlreadyOpened) && isOpen == old(isOpen) && unchanged(ctx) && unchanged(port)
      ensures port != null && !old(port.readable) ==>
        && port.calls == old(port.calls) + [OpenCall(Options())]
        && port.readerLocked == old(port.readerLocked) && port.writerLocked == old(port.writerLocked)
        && (accepted && !old(port.writable) ==>
              && r == Pass && port.readable && port.writable
              && ctx.port == port && ctx.readable && isOpen)
        && (!accepted || old(port.writable) ==>
              && r == Fail(HostRejected) && !port.readable && port.writable == old(port.writable)
              && isOpen == old(isOpen) && unchanged(ctx))
    {
      var p := port;
      if p == null {
        return Fail(NoPortSelected);
      }
      if p.readable {
        return Fail(PortAlreadyOpened);
      }
      r := p.Open(Options(), accepted);
      if r.Fail? {
        return;
      }
      ctx.port := p;
      ctx.readable := p.readable;
      isOpen := true;
    }

    /** closePort: closes the selected port; the context keeps its port and stream. */
    method ClosePort(accepted: bool) returns (r: Outcome)
      modifies this`isOpen, port
      ensures ctx.port == old(ctx.port) && ctx.readable == old(ctx.readable)
      ensures port == null ==> r == Fail(NoPortSelected) && isOpen == old(isOpen)
      ensures port != null ==>
        && port.calls == old(port.calls) + [CloseCall]
        && port.readerLocked == old(port.readerLocked) && port.writerLocked == old(port.writerLocked)
        && (accepted ==> r == Pass && !port.readable && !port.writable && !isOpen)
        && (!accepted ==> r == Fail(HostRejected) && port.readable == old(port.readable)
                          && port.writable == old(port.writable) && isOpen == old(isOpen))
    {
      var p := port;
      if p == null {
        return Fail(NoPortSelected);
      }
      r := p.Close(accepted);
      if r.Fail? {
        return;
      }
      isOpen := false;
    }

    /**
     * read: rejects when the context holds no port or that port is not readable;
     * otherwise takes the reader, reads once and releases the lock whatever happens.
     * A locked stream or a failed read is swallowed and resolves to undefined (None);
     * end of stream resolves to an empty array. A fatal read error also takes the port's
     * readable stream, so the guard fails from the next read on.
     */
    method Read(o: ReadOutcome) returns (r: Result<Option<Bytes>>)
      modifies ctx.port
      ensures old(ReadGuard()).Fail? ==> r == Err(old(ReadGuard()).error)
      ensures ctx.port != null && !old(ctx.port.readable) ==> unchanged(ctx.port)
      ensures old(ReadGuard()).Pass? ==>
        && ctx.port.readable == Survives(old(ctx.port.readerLocked), o)
        && ctx.port.writable == old(ctx.port.writable)
        && ctx.port.readerLocked == old(ctx.port.readerLocked)
        && ctx.port.writerLocked == old(ctx.port.writerLocked)
        && r == Ok(ReadValue(old(ctx.port.readerLocked), o))
        && ctx.port.calls == old(ctx.port.calls) + ReadCalls(old(ctx.port.readerLocked))
    {
      var p := ctx.port;
      if p == null {
        return Err(ReadNoPort);
      }
      if !p.readable {
        return Err(ReadNotOpened);
      }
      var got := p.GetReader();
      if got.Fail? {
        return Ok(None);
      }
      var settled := p.ReaderRead(o);
      p.ReleaseReader();
      match settled
      case Done => r := Ok(Some([]));
      case Chunk(v) => r := Ok(Some(v));
      case Throws => r := Ok(None);
      case Lost => r := Ok(None);
    }

    /**
     * write: takes the writer of the context's port, writes, and releases the lock whether
     * or not the write succeeds. A missing port, stream or a locked stream throws before any lock is taken.
     */
    method Write(data: Bytes, accepted: bool) returns (r: Outcome)
      modifies ctx.port
      ensures ctx.port == null ==> r == Fail(TypeError)
      ensures ctx.port != null && !old(ctx.port.writable) ==> r == Fail(TypeError) && unchanged(ctx.port)
      ensures ctx.port != null && old(ctx.port.writable) ==>
        && ctx.port.readable == old(ctx.port.readable) && ctx.port.writable
        && ctx.port.readerLocked == old(ctx.port.readerLocked)
        && ctx.port.writerLocked == old(ctx.port.writerLocked)
        && (old(ctx.port.writerLocked) ==>
              r == Fail(TypeError) && ctx.port.calls == old(ctx.port.calls) + [GetWriterCall])
        && (!old(ctx.port.writerLocked) ==>
              && r == (if accepted then Pass else Fail(HostRejected))
              && ctx.port.calls == old(ctx.port.calls) + [GetWriterCall, WriterWriteCall(data), ReleaseWriterCall])
    {
      var p := ctx.port;
      if p == null || !p.writable {
        return Fail(TypeError);
      }
      r := p.GetWriter();
      if r.Fail? {
        return;
      }
      r := p.WriterWrite(data, accepted);
      p.ReleaseWriter();
    }

    method SetBaudRate(v: nat)
      modifies this`baudRate
      ensures Options() == old(Options()).(baudRate := v)
    {
      baudRate := v;
    }

    method SetBufferSize(v: nat)
      modifies this`bufferSize
      ensures Options() == old(Options()).(bufferSize := v)
    {
      bufferSize := v;
    }

    method SetDataBits(v: nat)
      modifies this`dataBits
      ensures Options() == old(Options()).(dataBits := v)
    {
      dataBits := v;
    }

    method SetStopBits(v: nat)
      modifies this`stopBits
      ensures Options() == old(Options()).(stopBits := v)
    {
      stopBits := v;
    }

    method SetFlowControl(v: FlowControl)
      modifies this`flowControl
      ensures Options() == old(Options()).(flowControl := v)
    {
      flowControl := v;
    }

    method SetParity(v: Parity)
      modifies this`parity
      ensures Options() == old(Options()).(parity := v)
    {
      parity := v;
    }

    /** The signal setters only update the hook's flag; no port is told. */
    method SetDataTerminalReady(v: bool)
      modifies this`dataTerminalReady
      ensures dataTerminalReady == v
    {
      dataTerminalReady := v;
    }

    method SetRequestToSend(v: bool)
      modifies this`requestToSend
      ensures requestToSend == v
    {
      requestToSend := v;
    }

    method SetBreak(v: bool)
      modifies this`breakSignal
      ensures breakSignal == v
    {
      breakSignal := v;
    }
  }

  /** The initial options satisfy the baud-rate, data-bits and stop-bits annotations. */
  lemma DefaultsConventional()
    ensures Conventional(DefaultOptions)
  {
  }
}
