# WebSerial session model

A Dafny model of the serial-session core of a browser serial terminal. The model has three parts.

The `useWebSerial` hook (`src/components/react-webserial-hook.js`) contains:
- the process-wide `webSerialContext`;
- the state one hook instance keeps;
- `openPort`, `closePort`, `read` and `write`;
- the one-shot initialization effect;
- `requestPort` and the setters;
- the `portInfo` display-id formatter.

The `Console` component (`src/components/Console.jsx`) drives the hook with:
- the ESP reset sequence `resetEsp`;
- the two toolbar buttons that open and close the port;
- the "Start reading" handler, which forwards what it reads to the terminal.

The WebSerial platform objects the hook calls (a `SerialPort` with its streams' reader and writer locks, and `navigator.serial`) are modelled as classes. The calls the session makes on a port and on its stream's reader and writer are recorded, in order, in that port's call log: `open`, `close`, `setSignals`, `getReader`, `read`, `releaseLock`, `getWriter` and `write`. `getInfo` is not logged: it only reads the port's fixed USB ids, which are the port's `info` field. The host's answers are parameters of the methods that receive them:
- whether `open`, `close`, `write` or a `setSignals` call is accepted;
- how each `reader.read()` settles: a chunk, end of stream, a rejection, or a fatal rejection that takes the port's readable stream away, as when the device is unplugged;
- which port the user picks in the `requestPort` prompt.

Modules, one file each:

- `SerialTypes` (`serial_types.dfy`): errors, line options and their defaults, signal updates, host results.
- `UsbId` (`usb_id.dfy`): `portInfo` as pure functions. It covers `toString(16)`, `padStart` and the `vvvv:pppp` id, and proves that the id parses back to its two numbers.
- `WebSerial` (`webserial.dfy`): `SerialPort` and `Serial` (navigator.serial), with the call log and the open log derived from it.
- `WebSerialHook` (`webserial_hook.dfy`): `Context` (webSerialContext) and `Hook` (one hook instance) and their methods.
- `Console` (`console.dfy`): `View` (the Console component). It has the reset trace, the button guards, the read loop, and the specification functions of the loop's terminal output.
- `Scenarios` (`scenarios.dfy`): whole sessions on freshly built hooks, with the result each one ends with.

Three behaviours of the code shape the model:
- **Setters do not validate.** The hook's setters are plain React state setters. They accept any value of its type, also while the port is open, and the next `openPort` passes whatever the states then hold. The model's setters do the same. `Conventional` records the ranges of the type annotations `BaudRatesType`, `DataBitsType` and `StopBitsType` (react-webserial-hook.js:4-6). The buffer size is annotated as a plain `Number` (react-webserial-hook.js:67), so `Conventional` leaves it unconstrained. `DefaultsConventional` shows that the defaults lie inside these ranges.
- **An `openPort` rejection escapes the "Start reading" handler.** In the handler, `openPort` is awaited before the `try` (Console.jsx:137-139). A rejection there leaves the handler uncaught. Only rejections of `read` inside the `while` loop are caught. `LoopEnd.Escaped` and `LoopEnd.Stopped` keep the two apart.
- **`read` swallows failures after its guard.** A rejected `reader.read()` and a locked stream are both swallowed inside `read`, which resolves to `undefined`. The read loop only ends through the guards at the top of `read`: no port in the context, or a port without a readable stream. A read that loses the device is swallowed too, but it takes the port's readable stream away, so the next turn's `read` fails its guard and the loop ends. `hook.isOpen` still says the port is open after that.

## Model

| member | source | states |
|---|---|---|
| UsbId.HexDigit | src/components/react-webserial-hook.js:161-163 | The digit `toString(16)` writes for a value below 16 is a lowercase hex digit whose value is that number, never ':' |
| UsbId.ToHex | src/components/react-webserial-hook.js:161-163 | `toString(16)` of a non-negative integer is non-empty, all lowercase hex digits, and has no leading zero unless it is "0" |
| UsbId.PadStart | src/components/react-webserial-hook.js:161-163 | `padStart(width, fill)` has length max(width, \|s\|), ends with s, and every character before s is the fill |
| UsbId.UsbIdText | src/components/react-webserial-hook.js:161-163 | The usbId text: each id in lowercase hex, zero-padded to four digits, joined by ':'. Its properties are the lemmas UsbIdRoundTrip, UsbIdShape and UsbIdInjective |
| UsbId.PortInfo | src/components/react-webserial-hook.js:155-165 | portInfo succeeds exactly when both ids are present and otherwise throws a TypeError. It returns both ids unchanged, and its usbId parses back to them. For 16-bit ids the usbId is 9 characters: four hex digits worth the vendor id, ':' at index 4, four hex digits worth the product id |
| UsbId.ToHexRoundTrip | src/components/react-webserial-hook.js:161-163 | Reading `toString(16)` back as hex gives the original number |
| UsbId.ParseHexPadded | src/components/react-webserial-hook.js:161-163 | Zero-padding a hex string keeps it hex and keeps its value |
| UsbId.UsbIdRoundTrip | src/components/react-webserial-hook.js:161-163 | Splitting the usbId at its first ':' and reading both halves as hex gives the vendor and product ids back, whatever their size |
| UsbId.UsbIdShape | src/components/react-webserial-hook.js:161-163 | For 16-bit ids the usbId is exactly nine characters: four hex digits of the vendor id, ':', then four hex digits of the product id |
| UsbId.UsbIdInjective | src/components/react-webserial-hook.js:161-163 | Different id pairs never share a usbId |
| UsbId.UsbIdExample | src/components/react-webserial-hook.js:161-163 | Vendor 0x10C4 with product 0xEA60 gives "10c4:ea60" |
| WebSerial.OpenLog | src/components/react-webserial-hook.js:176-183 | The options passed to a port's open calls, in call order. It has at most one entry per logged call, and each entry is the options of an open call in the log |
| WebSerial.OpenLogAppend | src/components/react-webserial-hook.js:176-183 | Calls other than open, appended to a port's call log, leave the list of options passed to open as it was |
| WebSerial.SerialPort.constructor | src/components/react-webserial-hook.js:132-138 | A port as the platform hands it over: its USB ids fixed, no streams, no locks, and no calls logged |
| WebSerial.SerialPort.Open | src/components/react-webserial-hook.js:176-183 | port.open is logged with its options. It succeeds only if the host accepts and the port has neither stream, so a port that lost only its readable stream is refused; success creates both streams and leaves the locks alone |
| WebSerial.SerialPort.Close | src/components/react-webserial-hook.js:196 | port.close is logged; once accepted, both streams are gone; a rejection changes nothing else |
| WebSerial.SerialPort.SetSignals | src/components/Console.jsx:71-74 | setSignals is logged with its argument and settles as the host decides. It touches neither stream nor lock |
| WebSerial.SerialPort.GetReader | src/components/react-webserial-hook.js:213 | getReader on a locked stream throws a TypeError; otherwise it takes the lock. It is logged either way |
| WebSerial.SerialPort.ReaderRead | src/components/react-webserial-hook.js:219 | reader.read settles as the host decides, is logged, and keeps the lock. A fatal rejection takes the readable stream away; any other result leaves the streams alone |
| WebSerial.SerialPort.ReleaseReader | src/components/react-webserial-hook.js:228 | releaseLock frees the reader lock, is logged, and changes no stream |
| WebSerial.SerialPort.GetWriter | src/components/react-webserial-hook.js:241 | getWriter on a locked stream throws a TypeError; otherwise it takes the lock. It is logged either way |
| WebSerial.SerialPort.WriterWrite | src/components/react-webserial-hook.js:243 | writer.write is logged with its bytes, settles as the host decides, and keeps the lock |
| WebSerial.SerialPort.ReleaseWriter | src/components/react-webserial-hook.js:245 | releaseLock frees the writer lock, is logged, and changes no stream |
| WebSerial.Serial.constructor | src/components/react-webserial-hook.js:132 | navigator.serial holds the ports already authorized and has not been queried |
| WebSerial.Serial.GetPorts | src/components/react-webserial-hook.js:132 | getPorts returns the authorized ports and counts one query |
| WebSerialHook.Context.constructor | src/components/react-webserial-hook.js:12-29 | webSerialContext starts uninitialized, with no port, an empty port list and no readable stream |
| WebSerialHook.Hook.constructor | src/components/react-webserial-hook.js:49-93 | A mounted hook has no port and is not open. Its port list is the context's. Its options are 115200 baud, buffer 255, 8 data bits, no flow control, no parity and 1 stop bit. All three signals are false |
| WebSerialHook.Hook.Options | src/components/react-webserial-hook.js:176-183 | The options object openPort passes to port.open, built from the six line states |
| WebSerialHook.Hook.ReadGuard | src/components/react-webserial-hook.js:202-210 | The checks at the top of read: "no port selected" without a port in the context, "port not opened" when that port has no readable stream |
| WebSerialHook.Hook.Initialize | src/components/react-webserial-hook.js:125-139 | The effect sets `initialized`. It queries the platform only when the context was not yet initialized, so the platform is queried at most once per process. A non-empty result is stored in the context and the state, and its first port becomes the selected port. Otherwise nothing changes |
| WebSerialHook.Hook.RequestPort | src/components/react-webserial-hook.js:145-149 | The port the user picks becomes the selected port; a cancelled prompt rejects and keeps the old selection |
| WebSerialHook.Hook.SetPort | src/components/react-webserial-hook.js:49 | setPort selects the given port |
| WebSerialHook.Hook.OpenPort | src/components/react-webserial-hook.js:167-189 | With no port: "No port selected", nothing changes. With a port that already has a readable stream: "Port already opened", nothing changes. Otherwise, also when only a writable stream is left, the port is opened with exactly the six current options. Only when the host accepts and no writable stream remains are the context's port and stream and isOpen set; a rejection fails with the host's error, leaves no readable stream, and leaves isOpen and the context alone |
| WebSerialHook.Hook.ClosePort | src/components/react-webserial-hook.js:191-199 | With no port: "No port selected". Otherwise the port is closed and, once that succeeds, isOpen is cleared. The context keeps its port and stream either way |
| WebSerialHook.Hook.Read | src/components/react-webserial-hook.js:201-233 | read rejects with "no port selected" or "port not opened" when its guard fails, and then touches nothing. Otherwise it makes getReader, read and releaseLock, or only getReader when the stream is locked, and leaves the lock as it found it. It resolves to the chunk, to an empty array at end of stream, or to undefined when the lock was taken or the read failed. The readable stream survives unless the read it made was fatal |
| WebSerialHook.Hook.Write | src/components/react-webserial-hook.js:239-247 | write throws a TypeError without a port or stream, or when the writer is locked. Otherwise it makes getWriter, write and releaseLock, and the writer lock ends as it began, whether the write is accepted or rejected |
| WebSerialHook.Hook.SetBaudRate | src/components/react-webserial-hook.js:64 | Changes the baud rate option and no other |
| WebSerialHook.Hook.SetBufferSize | src/components/react-webserial-hook.js:69 | Changes the buffer size option and no other |
| WebSerialHook.Hook.SetDataBits | src/components/react-webserial-hook.js:74 | Changes the data bits option and no other |
| WebSerialHook.Hook.SetStopBits | src/components/react-webserial-hook.js:79 | Changes the stop bits option and no other |
| WebSerialHook.Hook.SetFlowControl | src/components/react-webserial-hook.js:84 | Changes the flow control option and no other |
| WebSerialHook.Hook.SetParity | src/components/react-webserial-hook.js:89 | Changes the parity option and no other |
| WebSerialHook.Hook.SetDataTerminalReady | src/components/react-webserial-hook.js:91 | Sets the DTR flag; no port is told |
| WebSerialHook.Hook.SetRequestToSend | src/components/react-webserial-hook.js:92 | Sets the RTS flag; no port is told |
| WebSerialHook.Hook.SetBreak | src/components/react-webserial-hook.js:93 | Sets the break flag; no port is told |
| WebSerialHook.Resolved | src/components/react-webserial-hook.js:219-232 | The value read resolves to once it holds the reader: the chunk, an empty array at end of stream, undefined when the read rejects |
| WebSerialHook.Survives | src/components/react-webserial-hook.js:212-232 | A read loses the readable stream only if it reached reader.read, so the reader lock was free, and the read rejected, so it resolves to undefined |
| WebSerialHook.ReadValue | src/components/react-webserial-hook.js:212-232 | The value read resolves to on an opened port: undefined when getReader throws on a locked stream, otherwise Resolved |
| WebSerialHook.ReadCalls | src/components/react-webserial-hook.js:212-228 | The calls read makes on an opened port: getReader alone when it throws, otherwise getReader, read and releaseLock |
| WebSerialHook.ReadKeepsOpenLog | src/components/react-webserial-hook.js:212-229 | A read never calls open: the port's open log is unchanged |
| WebSerialHook.ReadsKeepOpenLog | src/components/react-webserial-hook.js:212-229 | Any number of reads leaves the port's open log unchanged |
| WebSerialHook.DefaultsConventional | src/components/react-webserial-hook.js:4-6 | The default options lie within the baud-rate, data-bits and stop-bits types of the hook's annotations |
| Console.ResetIssued | src/components/Console.jsx:69-76 | The steps resetEsp issues are a prefix of the full sequence that ends with the rejected setSignals call: one, two or four steps when the first, second or third call is rejected. The whole sequence is issued exactly when no call is rejected or only the last one is |
| Console.ResetStepsShape | src/components/Console.jsx:71-74 | The reset sequence `ResetSteps` makes exactly three port calls, the setSignals calls DTR low, RTS high, RTS low. Each names one signal, and the one wait, 200 ms, lies between raising and lowering RTS |
| Console.SignalsKeepOpenLog | src/components/Console.jsx:69-76 | setSignals calls leave the port's open log as it was: the reset never reopens the port |
| Console.Forwarded | src/components/Console.jsx:143-148 | The read loop writes at most one chunk per read |
| Console.Written | src/components/Console.jsx:145-146 | One turn of the loop writes at most one chunk: the value read when it is defined, an empty array included, and nothing when it is undefined |
| Console.ForwardedCount | src/components/Console.jsx:143-148 | With the reader free, the terminal receives exactly one chunk per read that settled with a value rather than rejecting |
| Console.ForwardedAt | src/components/Console.jsx:143-148 | With the reader free, a settled read's value lands right after the chunks of the settled reads before it |
| Console.ForwardedInOrder | src/components/Console.jsx:143-148 | With the reader free, the terminal gets one chunk per read that settled with a value. The read at position i delivers its chunk, or an empty array at end of stream, at the position given by the number of settled reads before it |
| Console.ForwardedLocked | src/components/Console.jsx:143-148 | With the reader lock held elsewhere every read resolves to undefined, and nothing reaches the terminal |
| Console.ForwardedDone | src/components/Console.jsx:145-146 | End of stream yields an empty array, which is truthy and so is written to the terminal |
| Console.FirstLoss | src/components/Console.jsx:141-152 | The position of the first read that takes the readable stream away, and None exactly when every read leaves it; with the reader lock held elsewhere no read can, since none reaches reader.read |
| Console.LoopResult | src/components/Console.jsx:141-152 | On a port that passes read's guard, the loop is still reading exactly when no read took the readable stream away; otherwise the next read's guard throws "port not opened" (react-webserial-hook.js:208-210) and the catch ends the loop |
| Console.Consumed | src/components/Console.jsx:141-152 | The number of host results the loop uses: all of them, or those up to and including the first loss |
| Console.View.constructor | src/components/Console.jsx:16-25 | The component starts with its hook, an empty terminal and no reset steps |
| Console.View.ResetEsp | src/components/Console.jsx:69-76 | With isOpen false nothing is issued. Otherwise the reset steps are issued in order on the hook's port up to and including a rejected call: the steps are traced, the setSignals calls are logged on that port, and the method rejects exactly when a call is rejected. A null port throws a TypeError. The port's streams, locks and open log stay as they were |
| Console.View.SendReset | src/components/Console.jsx:71-74 | The body of resetEsp's `if`: the traced steps and the port's new calls are the issued prefix of the sequence and its setSignals calls |
| Console.View.Signal | src/components/Console.jsx:71-74 | One awaited setSignals: one step traced, one call logged on the port, settled as the host decides |
| Console.View.CloseButton | src/components/Console.jsx:112-115 | closePort is called only when isOpen is true; otherwise nothing changes. With a port, close is logged and the locks stay. Once accepted, both streams are gone and isOpen is false; a rejection leaves the streams and isOpen. The context is untouched |
| Console.View.OpenButton | src/components/Console.jsx:124-128 | openPort is called only when isOpen is false; when isOpen is true nothing changes. With no port it fails with "No port selected", and with a port that has a readable stream with "Port already opened", touching nothing. Otherwise, also when only a writable stream is left, the port is opened once with the current options and the locks stay. Once accepted on a port without a writable stream, both streams exist and the context holds the port and its stream; a rejection leaves isOpen and the context alone |
| Console.View.ReadOnce | src/components/Console.jsx:144-148 | One read: a value that is not undefined is written to the terminal, undefined is skipped, and a rejection writes nothing. The readable stream survives unless the read was fatal |
| Console.View.ForwardAll | src/components/Console.jsx:141-152 | On a port that passes read's guard, reads run until one takes the stream away; the next read then fails the guard with "port not opened" and the catch ends the loop. Otherwise every given result is consumed and the loop is still reading. The terminal receives exactly the forwarded chunks of the consumed results in order, the port sees exactly that many reads, and the stream remains exactly when no read lost it |
| Console.View.ReadLoop | src/components/Console.jsx:141-152 | When read's guard fails at once the loop ends, caught, with that error, before anything is written or called. Otherwise it behaves as ForwardAll |
| Console.View.StartReading | src/components/Console.jsx:136-153 | openPort is called only when isOpen is false, and a rejection there escapes the handler with openPort's error, exactly when there is no port, the port has a stream, or the host refuses. An escape writes nothing, leaves isOpen false and the context alone, and for "Port already opened" leaves the port alone too. A port already open is not opened again, and reading never opens it. isOpen stays set. The loop's end and the terminal output are those of ReadLoop from the state after openPort |
| Console.View.OpenThenRead | src/components/Console.jsx:137-152 | The handler's path while isOpen is false: the same escape cases and facts as StartReading; otherwise the context holds the selected port, isOpen is set, and the loop's end, the remaining readable stream and the terminal output are those of the loop from the freshly opened port |
| Console.OpenLogOpened | src/components/react-webserial-hook.js:176-183 | An open call appends exactly its options to the open log |
| Scenarios.ReadAfterClose | src/components/react-webserial-hook.js:191-210 | After open then close, the context still holds the closed port, and read rejects with "port not opened" |
| Scenarios.ReadBeforeOpen | src/components/react-webserial-hook.js:202-206 | Before any open, read rejects with "no port selected" |
| Scenarios.SecondHookOpen | src/components/react-webserial-hook.js:172-174 | A second hook on an already opened port fails with "Port already opened", and the port was opened once |
| Scenarios.OpenWithChangedOptions | src/components/react-webserial-hook.js:176-183 | Options changed before opening are the ones passed to port.open |
| Scenarios.SharedInitialization | src/components/react-webserial-hook.js:125-139 | Two hooks in one process query the platform once, and only the first adopts the port |
| Scenarios.ReadEndOfStream | src/components/react-webserial-hook.js:219-229 | End of stream reads as an empty array and the reader lock is released |
| Scenarios.WriteAfterRejectedWrite | src/components/react-webserial-hook.js:239-247 | A rejected write still releases the writer, so the next write succeeds |
| Scenarios.ResetWhileClosed | src/components/Console.jsx:69-70 | resetEsp on a closed console issues nothing |
| Scenarios.ResetWhileOpen | src/components/Console.jsx:69-76 | resetEsp on an open port issues the whole sequence, and the port's log is its open call followed by the three setSignals calls |
| Scenarios.StartReadingSession | src/components/Console.jsx:136-153 | On a closed port, "Start reading" opens it, forwards a chunk, skips a swallowed failure, forwards the empty end-of-stream array, and keeps reading |
| Scenarios.SessionForwarded | src/components/Console.jsx:143-148 | A chunk, a swallowed failure and end of stream lose nothing, are all consumed, and put the chunk followed by an empty array on the terminal |
| Scenarios.LostForwarded | src/components/Console.jsx:141-152 | A chunk, a fatal read and a further chunk: the loss is at position 1, two results are consumed, and the terminal receives the first chunk only |
| Scenarios.DeviceLost | src/components/react-webserial-hook.js:208-210 | The device drops out during "Start reading": the loop forwards the chunk before, then stops with "port not opened" while isOpen stays true; pressing "Start reading" again stops at once without reopening or writing anything: the port's open log holds the one open with the default options |
| Scenarios.StartReadingWithoutPort | src/components/Console.jsx:136-139 | "Start reading" with no port selected escapes with "No port selected" and writes nothing |

## Left out

- React rendering and re-render semantics. State setters are plain field assignments that take effect at once. The `useEffect` with an empty body (react-webserial-hook.js:95-102) does nothing.
- Promise scheduling. Each awaited call settles before the next statement. The `getPorts().then(...)` callback of the initialization effect runs inside the effect, so no second hook can start between the flag and the callback.
- `useWebSerial` throwing when `navigator.serial` is absent (react-webserial-hook.js:42-44). The model always has a platform.
- A rejection of `getPorts`. In the source it would be an unhandled promise rejection; the model's `GetPorts` always resolves.
- The connect and disconnect listeners (react-webserial-hook.js:104-123). They only forward platform events, and their callbacks drop the port.
- The request filters of `requestPort`: only the chosen port or the cancellation is modelled.
- `console.log` output in `read`, `write` and the read handler.
- `espInfo` (Console.jsx:93-104), which calls into esptool-js.
- The keystroke handler (Console.jsx:59-67), which calls `TextEncoder`.
- The xterm terminal setup, resizing, the popover menus and the status-line display (Console.jsx:30-57, 106-446). The terminal is the sequence of chunks written to it.
- The hardware effect of `setSignals` and of the signal flags. resetEsp's calls are logged on the port and also kept, with its 200 ms wait as a `Sleep(200)` step rather than a delay, in the component's trace of steps.
- The rest of what a lost device does: the model takes only the port's readable stream away, which is all that read's guard looks at. The writable stream and later `close` calls see no effect of the loss, so a later `open` of that port is refused while its writable stream remains.
- Cancelling a read (`reader.cancel()`), which the code never calls.
- The content of platform exceptions (DOMException names). A rejection by the platform is one error, `HostRejected`.
- Console.View.ReadLoop: the `while (true)` loop runs until a read rejects. The model consumes a finite sequence of host results. When none of them takes the stream away it ends in `Reading`, meaning the next read is still pending.
- WebSerialHook.Hook.SetBaudRate and the other five option setters: no validation, and no refusal while open, because the source has neither.
