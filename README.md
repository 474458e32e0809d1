# korad-psu: serial link and protocol engine, modelled in Dafny

This project models the core of korad-psu, a Qt desktop program that drives a KORAD
KA3005P bench power supply over its USB serial port. The core has two layers:

- **The serial link** (`SerialPortClass`). It searches for the supply's USB-serial
  bridge by VID:PID on a back-off timer: 0 ms first, then 1000 ms, then 1500 ms after the
  start phase. It opens the port it finds and closes it on errors. On a close after an
  error it starts the search again. It escapes received octets for the log, and it
  formats and parses line-parameter text such as `8N1`.
- **The protocol engine** (`ProtocolClass`). It builds the supply's ASCII commands
  (`*IDN?`, `VOUT1?`, `VSET1:<value>`, …) and keeps at most one query in flight. A query
  completes when its expected answer length has arrived. The identity query instead
  completes when its 250 ms timer fires. Other queries time out after 150 ms. Until the
  identity answer names a KA3005P, the engine sends nothing but the identity query.

Files:

| file | module | contents |
|---|---|---|
| `bytes.dfy` | `Bytes` | octets, ASCII text as octets |
| `timers.dfy` | `Timers` | the object's Qt timers: live ids and their intervals |
| `serial_text.dfy` | `SerialText` | the log escaper; line-parameter text and its parser |
| `serial_port.dfy` | `SerialPort` | back-off schedule, port discovery, class `Link` |
| `protocol.dfy` | `Protocol` | request kinds, command table, identity check, class `Engine` |
| `scenarios.dfy` | `Scenarios` | whole sessions driven through a fresh `Engine` |

In the source, `ProtocolClass` derives from `SerialPortClass` and overrides its pure
virtual hooks `portOpened`, `portClosed` and `dataArrived`. The model uses composition
instead. An `Engine` owns a `Link`. A `Link` method returns a `Hook` value that names
the hook the source would call, and the `Engine` method runs that hook. The Qt timer
service is a `TimerSet` object. It holds the live timer ids with their intervals and
hands out fresh ids. A timer firing is a call of `TimerEvent(id, …)`. Everything Qt
reports is an input parameter. This covers the enumerated ports, the open outcome,
the octets `readAll` returned and the port's error. Signals are appended to logs:
`Link.signals` holds `serialPortOpened` and `serialPortClosed`, and `Engine.signals`
holds `answer`, `answerTimeout` and `modelDetected`. The octets written to the port
are appended to `Link.written`.

Where the code disagrees with its own comments or with the project's design notes,
the model follows the code:

- **Back-off length.** The start-phase interval (1000 ms) is in force while the attempt
  counter is 1 through 5. So five intervals pass at that rate, not the four that the
  design notes give. The comment `count: 1..COM_PORT_FIND_START_ATTEMPTS-1`
  (`src/SerialPortClass.cpp:157`) only names the counts the default case advances. The
  1000 ms timer fires once more at count 5, and only then does
  `case COM_PORT_FIND_START_ATTEMPTS` re-arm at 1500 ms and fall through into the next
  case (`src/SerialPortClass.cpp:136-161`).
- **Wrong model.** An identity answer that fails the check closes the port with
  `closeSerialPort` and does not restart the search (`ProtocolClass.cpp:55-64`). The
  reconnect timer was killed when the port opened. After a wrong model the object
  therefore has no timer at all and does not search again (`Scenarios.WrongModel`).
  The call is written with no argument while the header declares
  `closeSerialPort(bool)` with no default. The model reads it as `closeSerialPort(true)`.
- **Receive buffer on set commands.** `sendRequest` empties the receive buffer for set
  commands as well as for queries (`ProtocolClass.cpp:154`).
- **Identity length.** The identity query is sent with an expected length of 1024, but
  its answer never completes by length. Only its timer completes it
  (`ProtocolClass.cpp:112`, `ProtocolClass.cpp:73-75`).
- **Set command during a query.** A set command does not kill the answer timer of a
  query still pending. That timer later fires with nothing pending and reports
  `answerTimeout` (`Scenarios.SetCommandDuringQuery`).
- **Fixed port name.** `_portName` is never assigned in the source. The model takes it
  as a constructor argument. The engine passes `""`, which is the source's behaviour.

## Model

| member | source | states |
|---|---|---|
| SerialText.EscapeByte | src/SerialPortClass.cpp:18-36 | each octet escapes to 1 to 4 characters |
| SerialText.EscapeByteIsPrintable | src/SerialPortClass.cpp:18-36 | each octet's escape is printable ASCII; a printable octet is itself, a named control octet is a backslash and one character, and any other octet is `\x` and two upper-case hex digits |
| SerialText.ToEscapedCString | src/SerialPortClass.cpp:14-40 | the loop builds exactly the escape of the whole buffer, octet by octet |
| SerialText.UnescapeEscapeByte | src/SerialPortClass.cpp:18-36 | each single octet's escape reads back as that octet: named escapes, `\xHH` in upper-case hex, printable octets as themselves |
| SerialText.HexDigitValue | src/SerialPortClass.cpp:32 | the upper-case hex digit of a nibble reads back as the nibble |
| SerialText.EscapedAppend | src/SerialPortClass.cpp:17 | escaping is octet by octet: the escape of a concatenation is the concatenation of the escapes |
| SerialText.Escaped | src/SerialPortClass.cpp:14-40 | the escaped text of a buffer is at least as long as the buffer and at most four times as long |
| SerialText.EscapedIsPrintable | src/SerialPortClass.cpp:14-40 | the escaped text contains only printable ASCII |
| SerialText.EscapedIsNotInjective | src/SerialPortClass.cpp:20 | the buffers `\` `0` and NUL escape to the same text, because a backslash is copied as it is |
| SerialText.ParityLetter | src/SerialPortClass.cpp:44-55 | a known parity prints as one of `N`, `E`, `O`, `S`, `M`, and the letter is a blank exactly for an unknown parity |
| SerialText.StopBitsText | src/SerialPortClass.cpp:57-66 | the stop-bit text is `1`, `1.5` or `2` exactly when the stop bits are known |
| SerialText.LineSuffix | src/SerialPortClass.cpp:68-74 | the data-bits, parity and stop-bits text of known settings is a text the parser accepts |
| SerialText.Parameters | src/SerialPortClass.cpp:68-74 | the parameter text starts with the baud rate's decimal digits followed by a blank, and after that first blank comes the data-bits, parity and stop-bits text |
| SerialText.StopBitsFieldShape | src/SerialPortClass.cpp:105-122 | the stop-bit field is `1`, `2` or `1.5` exactly when the source's character and length tests accept it |
| SerialText.SetParameters | src/SerialPortClass.cpp:76-125 | accepts exactly the texts `[5-8][NEOSM](1\|2\|1.5)`; on success the text is the suffix of the new settings; each field is written only once the earlier fields are valid, and a failed field keeps its old value |
| SerialText.ParametersRoundTrip | src/SerialPortClass.cpp:44-125 | parsing the printed suffix of known settings succeeds and restores them |
| SerialPort.NextAttemptsCount | src/SerialPortClass.cpp:140-160 | the attempt counter never decreases, never passes 6, and stops changing exactly at 6 |
| SerialPort.AttemptsAfter | src/SerialPortClass.cpp:136-161 | after any number of failed searches the counter is within 0..6 |
| SerialPort.BackoffSchedule | src/SerialPortClass.cpp:10-12 | after k failed searches the counter is min(k, 6) and the reconnect interval is 0 ms for k = 0, 1000 ms for k = 1..5 and 1500 ms after that |
| SerialPort.FirstMatching | src/SerialPortClass.cpp:198-211 | the position found holds a port that is not busy, reports both ids and has a listed VID:PID pair, and no earlier port qualifies |
| SerialPort.TryFindComPort | src/SerialPortClass.cpp:191-215 | with no pairs listed, returns the fixed name; otherwise returns the first qualifying port's name, or "" when none qualifies; a non-empty result is a qualifying port's name |
| SerialPort.Link.constructor | src/SerialPortClass.cpp:128-134 | default line settings, no port, and a reconnect timer armed at 0 ms |
| SerialPort.Link.ProcessReconnectTimer | src/SerialPortClass.cpp:136-161 | one back-off step: 0 becomes 1 and re-arms at 1000 ms, 5 becomes 6 and re-arms at 1500 ms, 1..4 only count, and 6 stays; keeps the link invariant |
| SerialPort.Link.OpenSerialPort | src/SerialPortClass.cpp:217-259 | succeeds exactly when the port opens, then emits serialPortOpened and runs portOpened; a failure with a new error records it and drops the handle; a repeated error keeps the unopened handle |
| SerialPort.Link.CloseSerialPort | src/SerialPortClass.cpp:261-286 | records the port's error, drops the handle, emits serialPortClosed only when there was a port, and runs portClosed whenever signals are requested |
| SerialPort.Link.CloseSerialPortAndReconnect | src/SerialPortClass.cpp:288-298 | closes with signals, then restarts the search: counter 0, a fresh reconnect timer at 0 ms replacing the old one |
| SerialPort.Link.ReadyRead | src/SerialPortClass.cpp:300-313 | octets go to dataArrived unchanged; an empty read with an error closes the port and restarts the search; an empty read without an error changes nothing |
| SerialPort.Link.ErrorOccurred | src/SerialPortClass.cpp:315-320 | any error except NoError closes the port and restarts the search; NoError changes nothing |
| SerialPort.Link.TimerEvent | src/SerialPortClass.cpp:163-189 | a reconnect tick opens the first qualifying port and stops the search, or takes one back-off step; any other timer id is killed |
| SerialPort.Link.Write | ProtocolClass.cpp:161-165 | writing appends the octets to what the port has received and changes nothing else |
| SerialPort.PersistentAbsence | src/SerialPortClass.cpp:136-189 | a fresh link whose reconnect timer fires k times with no port present ends with counter min(k, 6) and the interval the schedule gives |
| Protocol.CommandFor | ProtocolClass.cpp:130-141 | exactly the six queries and `VSET1` have a command; a command's expected answer length is positive exactly for the queries and zero for the set command |
| Protocol.ExpectedLength | ProtocolClass.cpp:130-141 | the expected answer length is positive exactly for the six queries |
| Protocol.QueriesEndWithQuestionMark | ProtocolClass.cpp:130-141 | every query command ends in `?` and has a positive length; the one set command is `VSET1:` followed by the value |
| Protocol.CommandKindInverts | ProtocolClass.cpp:130-141 | the command table can be inverted: each command's octets name its kind |
| Protocol.CommandsAreDistinct | ProtocolClass.cpp:130-141 | two kinds never put the same octets on the wire |
| Protocol.ParseIdn | ProtocolClass.cpp:13-22 | an accepted identity answer is at least as long as `KORAD` and `KA3005P` together |
| Protocol.ParseIdnSound | ProtocolClass.cpp:13-22 | every accepted identity answer is `KORAD`, white space, `KA3005P` and anything after it |
| Protocol.ParseIdnComplete | ProtocolClass.cpp:13-22 | every answer of that shape is accepted |
| Protocol.ParseIdnAccepts | ProtocolClass.cpp:13-22 | the identity check holds exactly for answers of that shape (both directions) |
| Protocol.KA3005PIsAccepted | src/ProtocolClass.h:56-58 | the documented sample answer `KORAD KA3005P V4.2 SN:…` is accepted |
| Protocol.OtherModelWordIsRefused | ProtocolClass.cpp:13-22 | `KORAD`, white space and any other seven-octet model word with no white space at its ends is refused, whatever follows |
| Protocol.OtherModelIsRefused | ProtocolClass.cpp:18 | an answer naming KA3010P is refused |
| Protocol.Engine.constructor | ProtocolClass.cpp:24-29 | a link that searches for VID:PID 0416:5011, and an idle engine with no confirmed model |
| Protocol.Engine.Clear | ProtocolClass.cpp:31-43 | nothing pending, expected length 0, buffer empty, answer timer killed and forgotten |
| Protocol.Engine.RequestComplete | ProtocolClass.cpp:45-65 | emits answer(kind, buffer) after clearing; for the identity query, the model flag is the identity check's verdict: modelDetected when it passes, otherwise the port is closed with no new search |
| Protocol.Engine.TimerEvent | ProtocolClass.cpp:67-90 | the answer timer completes a pending identity query, times out any other query, and only clears when the port is closed; a refused identity closes the port and records its error; other timers go to the link: an opened port keeps the last error and triggers the identity query, a failed search keeps port and error, and a failed open records a new error and drops the handle or keeps the unopened handle on a repeated one |
| Protocol.Engine.PortOpened | ProtocolClass.cpp:92-99 | the model flag is reset and the identity query goes out with a 250 ms answer timer |
| Protocol.Engine.PortClosed | ProtocolClass.cpp:101-105 | the model flag is reset and the exchange cleared |
| Protocol.Engine.DataArrived | ProtocolClass.cpp:107-116 | octets are appended; reaching the expected length completes a query other than the identity query with the whole buffer; octets arriving while idle become answer(None, octets) at once |
| Protocol.Engine.Request | ProtocolClass.cpp:123-143 | before the model is confirmed nothing but `*IDN?` is written; the kind already pending and kinds without a command are ignored; anything else is sent |
| Protocol.Engine.RequestWithoutValue | ProtocolClass.cpp:118-121 | the same as a request with the value 0 |
| Protocol.Engine.SendRequest | ProtocolClass.cpp:145-190 | only on an open port: the buffer is emptied and the octets written; a query becomes pending with a fresh answer timer (250 ms for the identity query, 150 ms otherwise) that replaces the old one; a set command leaves the engine idle and emits an empty answer |
| Protocol.Engine.ReadyRead | src/SerialPortClass.cpp:300-313 | received octets reach dataArrived; an empty read with an error closes the port, resets the model flag and leaves the new 0 ms reconnect timer as the only timer |
| Protocol.Engine.ErrorOccurred | src/SerialPortClass.cpp:288-320 | NoError changes nothing; any other error closes the port, records the error and emits serialPortClosed when a port was open, resets the model flag, and leaves the new 0 ms reconnect timer as the only timer |
| Scenarios.DiscoverAndIdentify | ProtocolClass.cpp:45-99 | start-up with the supply plugged in: one failed search, then the port opens, `*IDN?` is the only write, and the signals are answer(IDN, identity) then modelDetected |
| Scenarios.ReadOutputVoltage | ProtocolClass.cpp:107-116 | `VOUT1?` answered in two reads completes on the fifth octet: after the identification signals, the one new signal is answer(VOUT1Q, "12.34") |
| Scenarios.ShortAnswerTimesOut | ProtocolClass.cpp:76-82 | a four-octet answer to a five-octet query emits no answer: after the identification signals, the one new signal is answerTimeout, and the engine is idle |
| Scenarios.RequestsBeforeIdentification | ProtocolClass.cpp:125-126 | before identification, voltage, set and status requests write nothing |
| Scenarios.RepeatedQueryIsIgnored | ProtocolClass.cpp:128 | a second request of the pending kind writes nothing |
| Scenarios.SetCommandDuringQuery | ProtocolClass.cpp:172-184 | a set command sent during a query is acknowledged at once, and the query's timer still fires answerTimeout |
| Scenarios.UnsolicitedOctets | ProtocolClass.cpp:107-116 | octets arriving while idle are the one new signal, answer(None, octets) |
| Scenarios.WrongModel | ProtocolClass.cpp:55-64 | a wrong model closes the port and leaves the object with no timer |
| Scenarios.Unplugged | src/SerialPortClass.cpp:300-313 | an empty read with an error closes the port, resets the model flag and the counter, arms one 0 ms timer, and requests are refused again |

## Left out

- Qt I/O (`QSerialPort`, `QSerialPortInfo`): port enumeration, open outcomes, reads and port errors are parameters. Signal/slot wiring is not modelled.
- Real time: timers are a registry of live ids and intervals whose firing is a method call. Qt's reuse of timer ids and a `startTimer` failure (id 0) are not modelled.
- `QThread::msleep(DEFAULT_OPEN_PORT_DELAY)` in portOpened is a blocking delay with no effect on state; only the constant is kept.
- The TX flush wait (`waitForBytesWritten(DEFAULT_REQUEST_SEND_TIMEOUT)`) only logs, and is left out. `_serialPort->clear()` discards data held by the driver and is left out as well.
- The value of `VSET1` is a float formatted by `QString::arg`. The model takes the formatted text as octets and does not model float formatting.
- The `modelDetected` signal carries a `QString` made from the identity octets. The model's `ModelDetected` carries the octets themselves. The byte-to-text conversion is not modelled.
- Logging (`Log.h`, `logData`, the "found … USB vid:pid" description of the found port) is left out. The escaper that formats logged octets is modelled.
- Order between the link's signals and the engine's signals: they are kept in two separate logs.
- The order of events in a successful open: the source runs portOpened (starting the identity timer) before the reconnect timer is killed. The model kills it first. The resulting timers and ids are the same.
- `stop()` is declared in `src/ProtocolClass.h:49-50` and connected in `src/mainwindow.cpp:30`, but it is not defined in the files modelled here, so it has nothing to model.
- The UI (`mainwindow`), `main.cpp` and the threading and start-up code are not part of this model.
- `ProtocolClass.h` at the repository root is an older copy of `src/ProtocolClass.h`. It has different timeouts and a `waitAnswer` member. It is not part of this model.
- Memory management: the handle replaced by a new open and the object `delete`d on close are not modelled beyond "handle closed".
- Qt's `UnknownDataBits`, `UnknownParity` and `UnknownStopBits` print as `-1`, a blank and a blank. The parser never produces them.
- SerialText.SetParameters: text is a sequence of Unicode characters, while `set_parameters` indexes the UTF-16 units of a `QString`. For a text holding a character outside the Basic Multilingual Plane the two differ: for `5` followed by one such character the source sees three units and writes `Data5` before failing on the surrogate, while the model sees two characters and writes nothing. Lone surrogates cannot be represented.
- SerialText.EscapedIsNotInjective: the escape cannot be undone in general. The round trip is stated per octet (`UnescapeEscapeByte`), not for whole buffers.
