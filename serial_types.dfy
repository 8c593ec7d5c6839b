/** Values shared by the WebSerial session model: errors, line options, signal updates, host results. */
module SerialTypes {

  type Byte = b: int | 0 <= b < 256

  /** A Uint8Array. */
  type Bytes = seq<Byte>

  datatype Option<+T> = None | Some(value: T)

  /** Why a promise rejected. */
  datatype Error =
    | NoPortSelected     // thrown by openPort and closePort when no port is selected
    | PortAlreadyOpened  // thrown by openPort when the port's readable stream exists
    | ReadNoPort         // thrown by read when the context holds no port
    | ReadNotOpened      // thrown by read when the context's port has no readable stream
    | TypeError          // a member of null or undefined was used, or a stream was already locked
    | HostRejected       // the platform rejected the call (a DOMException)

  /** The settled state of an awaited call that yields nothing. */
  datatype Outcome = Pass | Fail(error: Error)

  /** The settled state of an awaited call that yields a value. */
  datatype Result<+T> = Ok(value: T) | Err(error: Error)

  datatype Parity = ParityNone | ParityEven | ParityOdd

  datatype FlowControl = FlowNone | FlowHardware

  /** The options object handed to SerialPort.open. */
  datatype SerialOptions = SerialOptions(
    baudRate: nat,
    bufferSize: nat,
    dataBits: nat,
    flowControl: FlowControl,
    parity: Parity,
    stopBits: nat)

  /** The baud rates the hook's type annotation lists. */
  const BaudRates: set<nat> := {1200, 2400, 4800, 9600, 14400, 31250, 38400, 56000, 57600, 76800, 115200}

  /**
   * Options within the hook's type annotations: BaudRatesType, DataBitsType and StopBitsType.
   * The buffer size is annotated as a plain Number, so it is not constrained here.
   */
  predicate Conventional(o: SerialOptions)
  {
    o.baudRate in BaudRates && o.dataBits in {7, 8} && o.stopBits in {1, 2}
  }

  /** The initial values of the six line-configuration states. */
  const DefaultOptions: SerialOptions := SerialOptions(115200, 255, 8, FlowNone, ParityNone, 1)

  /** The argument of SerialPort.setSignals: a field that is None is not mentioned. */
  datatype SignalUpdate = SignalUpdate(
    dataTerminalReady: Option<bool>,
    requestToSend: Option<bool>,
    breakSignal: Option<bool>)

  /** Number of fields an update mentions. */
  function FieldCount(u: SignalUpdate): (n: nat)
    ensures n <= 3
    ensures n == 0 <==> u == SignalUpdate(None, None, None)
  {
    (if u.dataTerminalReady.Some? then 1 else 0)
    + (if u.requestToSend.Some? then 1 else 0)
    + (if u.breakSignal.Some? then 1 else 0)
  }

  /** How the host settles one reader.read() call. */
  datatype ReadOutcome =
    | Chunk(bytes: Bytes)  // { value, done: false }
    | Done                 // { done: true }
    | Throws               // the read promise rejects; the stream stays usable
    | Lost                 // the read promise rejects with a fatal error and the port drops its readable stream, as when the device is unplugged

  /** What SerialPort.getInfo() reports; a port that is not a USB device reports neither id. */
  datatype UsbInfo = UsbInfo(usbVendorId: Option<nat>, usbProductId: Option<nat>)
}
