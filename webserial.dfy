/** The platform objects the hook talks to: a SerialPort and navigator.serial. */
module WebSerial {
  import opened SerialTypes

  /** A call the session made on a port or on one of its stream's reader or writer. */
  datatype PortCall =
    | OpenCall(options: SerialOptions)
    | CloseCall
    | SetSignalsCall(update: SignalUpdate)
    | GetReaderCall
    | ReaderReadCall
    | ReleaseReaderCall
    | GetWriterCall
    | WriterWriteCall(data: Bytes)
    | ReleaseWriterCall

  /** The options passed to open, in call order: one entry per open call, each one an open call's options. */
  function OpenLog(calls: seq<PortCall>): (log: seq<SerialOptions>)
    ensures |log| <= |calls|
    ensures forall o :: o in log ==> OpenCall(o) in calls
  {
    if calls == [] then []
    else
      var last := calls[|calls| - 1];
      OpenLog(calls[..|calls| - 1]) + if last.OpenCall? then [last.options] else []
  }

  /** Appending calls other than open leaves the open log as it was. */
  lemma {:induction false} OpenLogAppend(calls: seq<PortCall>, more: seq<PortCall>)
    requires forall i :: 0 <= i < |more| ==> !more[i].OpenCall?
    ensures OpenLog(calls + more) == OpenLog(calls)
    decreases |more|
  {
    if more != [] {
      var m := more[..|more| - 1];
      var all := calls + more;
      assert all[..|all| - 1] == calls + m;
      assert !all[|all| - 1].OpenCall?;
      assert OpenLog(all) == OpenLog(calls + m);
      OpenLogAppend(calls, m);
    } else {
      assert calls + more == calls;
    }
  }

  /**
   * A serial port as WebSerial presents it. `readable` and `writable` stand for the
   * presence of the port's streams; `readerLocked` and `writerLocked` for their locks.
   */
  class SerialPort {
    const info: UsbInfo
    var readable: bool
    var writable: bool
    var readerLocked: bool
    var writerLocked: bool
    var calls: seq<PortCall>

    constructor (info: UsbInfo)
      ensures this.info == info
      ensures !readable && !writable && !readerLocked && !writerLocked && calls == []
    {
      this.info := info;
      readable, writable := false, false;
      readerLocked, writerLocked := false, false;
      calls := [];
    }

    /**
     * port.open(options): the platform refuses a port that is still open, which it is
     * while either stream exists, also after a lost device took only the readable one.
     */
    method Open(options: SerialOptions, accepted: bool) returns (r: Outcome)
      modifies this
      ensures calls == old(calls) + [OpenCall(options)]
      ensures r == if accepted && !old(readable) && !old(writable) then Pass else Fail(HostRejected)
      ensures readable == (old(readable) || r.Pass?) && writable == (old(writable) || r.Pass?)
      ensures readerLocked == old(readerLocked) && writerLocked == old(writerLocked)
    {
      calls := calls + [OpenCall(options)];
      if accepted && !readable && !writable {
        readable, writable := true, true;
        r := Pass;
      } else {
        r := Fail(HostRejected);
      }
    }

    /** port.close(). */
    method Close(accepted: bool) returns (r: Outcome)
      modifies this
      ensures calls == old(calls) + [CloseCall]
      ensures r == if accepted then Pass else Fail(HostRejected)
      ensures accepted ==> !readable && !writable
      ensures !accepted ==> readable == old(readable) && writable == old(writable)
      ensures readerLocked == old(readerLocked) && writerLocked == old(writerLocked)
    {
      calls := calls + [CloseCall];
      if accepted {
        readable, writable := false, false;
        r := Pass;
      } else {
        r := Fail(HostRejected);
      }
    }

    /** port.readable.getReader(): throws when the stream is already locked. */
    method GetReader() returns (r: Outcome)
      requires readable
      modifies this
      ensures calls == old(calls) + [GetReaderCall]
      ensures r == if old(readerLocked) then Fail(TypeError) else Pass
      ensures readerLocked
      ensures readable == old(readable) && writable == old(writable) && writerLocked == old(writerLocked)
    {
      calls := calls + [GetReaderCall];
      if readerLocked {
        r := Fail(TypeError);
      } else {
        readerLocked := true;
        r := Pass;
      }
    }

    /**
     * port.setSignals(update): the host decides whether it accepts; the streams and
     * their locks are not touched.
     */
    method SetSignals(update: SignalUpdate, accepted: bool) returns (r: Outcome)
      modifies this`calls
      ensures calls == old(calls) + [SetSignalsCall(update)]
      ensures r == if accepted then Pass else Fail(HostRejected)
    {
      calls := calls + [SetSignalsCall(update)];
      r := if accepted then Pass else Fail(HostRejected);
    }

    /**
     * reader.read(): the host decides how it settles. A fatal error (Lost) takes the
     * readable stream away; the lock stays with the reader until it is released.
     */
    method ReaderRead(o: ReadOutcome) returns (r: ReadOutcome)
      requires readerLocked
      modifies this
      ensures r == o
      ensures calls == old(calls) + [ReaderReadCall]
      ensures readable == (old(readable) && !o.Lost?) && writable == old(writable)
      ensures readerLocked && writerLocked == old(writerLocked)
    {
      calls := calls + [ReaderReadCall];
      if o.Lost? {
        readable := false;
      }
      r := o;
    }

    /** reader.releaseLock(). */
    method ReleaseReader()
      modifies this
      ensures calls == old(calls) + [ReleaseReaderCall]
      ensures !readerLocked
      ensures readable == old(readable) && writable == old(writable) && writerLocked == old(writerLocked)
    {
      calls := calls + [ReleaseReaderCall];
      readerLocked := false;
    }

    /** port.writable.getWriter(): throws when the stream is already locked. */
    method GetWriter() returns (r: Outcome)
      requires writable
      modifies this
      ensures calls == old(calls) + [GetWriterCall]
      ensures r == if old(writerLocked) then Fail(TypeError) else Pass
      ensures writerLocked
      ensures readable == old(readable) && writable == old(writable) && readerLocked == old(readerLocked)
    {
      calls := calls + [GetWriterCall];
      if writerLocked {
        r := Fail(TypeError);
      } else {
        writerLocked := true;
        r := Pass;
      }
    }

    /** writer.write(data): the host decides whether it accepts the bytes. */
    method WriterWrite(data: Bytes, accepted: bool) returns (r: Outcome)
      requires writerLocked
      modifies this
      ensures calls == old(calls) + [WriterWriteCall(data)]
      ensures r == if accepted then Pass else Fail(HostRejected)
      ensures readable == old(readable) && writable == old(writable)
      ensures writerLocked && readerLocked == old(readerLocked)
    {
      calls := calls + [WriterWriteCall(data)];
      r := if accepted then Pass else Fail(HostRejected);
    }

    /** writer.releaseLock(). */
    method ReleaseWriter()
      modifies this
      ensures calls == old(calls) + [ReleaseWriterCall]
      ensures !writerLocked
      ensures readable == old(readable) && writable == old(writable) && readerLocked == old(readerLocked)
    {
      calls := calls + [ReleaseWriterCall];
      writerLocked := false;
    }
  }

  /** navigator.serial: the ports the user has already authorized, and how often they were asked for. */
  class Serial {
    const authorized: seq<SerialPort>
    var getPortsCalls: nat

    constructor (authorized: seq<SerialPort>)
      ensures this.authorized == authorized && getPortsCalls == 0
    {
      this.authorized := authorized;
      getPortsCalls := 0;
    }

    /** navigator.serial.getPorts(). */
    method GetPorts() returns (ports: seq<SerialPort>)
      modifies this`getPortsCalls
      ensures ports == authorized
      ensures getPortsCalls == old(getPortsCalls) + 1
    {
      getPortsCalls := getPortsCalls + 1;
      ports := authorized;
    }
  }
}
