/**
 * Whole-session behaviour of the engine: each method builds a fresh engine, drives it
 * through a sequence of timer ticks and port events, and states what the application
 * sees (signals, octets written, connection state).
 */
module Scenarios {
  import opened Bytes
  import opened SerialPort
  import opened Protocol

  /** The supply's USB-serial bridge as the port enumeration reports it. */
  function SupplyPort(): PortInfo
  {
    PortInfo("ttyACM0", false, true, 0x0416, true, 0x5011)
  }

  function SupplyIdentity(): seq<byte>
  {
    AsciiBytes("KORAD KA3005P V4.2 SN:00000001")
  }

  /**
   * Start-up with the supply plugged in after the first search: the 0 ms search finds
   * nothing, the next one (at 1000 ms) opens the port and the identity query goes out
   * with its 250 ms answer timer as the only timer.
   */
  method Opened() returns (e: Engine)
    ensures fresh(e) && fresh(e.link) && fresh(e.link.timers)
    ensures e.Valid() && !e.modelIsOk && e.link.IsOpen() && e.link.serialPort.portName == "ttyACM0"
    ensures e.request == IDN && e.rxBuff == [] && e.signals == []
    ensures e.link.written == [IdnCommand()]
    ensures e.link.signals == [SerialPortOpened("ttyACM0")]
    ensures e.link.reconnectTimerId == -1 && e.link.timers.active == map[e.timerId := DefaultIdnAnswerTimeout]
  {
    e := new Engine();
    e.TimerEvent(1, [], NoError);
    assert e.link.reconnectAttemptsCount == 1 && e.link.reconnectTimerId == 2;
    assert TryFindComPort([KoradVidPid], "", [SupplyPort()]) == "ttyACM0";
    e.TimerEvent(2, [SupplyPort()], NoError);
  }

  /** ... and the supply's identity arrives and the answer timer completes it. */
  method Identified() returns (e: Engine)
    ensures fresh(e) && fresh(e.link) && fresh(e.link.timers)
    ensures e.Valid() && e.modelIsOk && e.link.IsOpen()
    ensures e.request == None && e.rxBuff == [] && e.timerId == -1
    ensures e.signals == [Answer(IDN, SupplyIdentity()), ModelDetected(SupplyIdentity())]
    ensures e.link.written == [IdnCommand()]
    ensures e.link.signals == [SerialPortOpened("ttyACM0")]
    ensures e.link.reconnectTimerId == -1 && e.link.timers.active == map[]
  {
    e := Opened();
    e.ReadyRead(SupplyIdentity(), NoError);
    assert e.request == IDN && e.rxBuff == SupplyIdentity() && e.link.IsOpen();
    KA3005PIsAccepted();
    ghost var armed, t := e.link.timers.active, e.timerId;
    e.TimerEvent(e.timerId, [], NoError);
    assert e.link.timers.active == armed - {t};
    OnlyTimerKilled(armed, t);
  }

  /** Killing the one live timer leaves none. */
  lemma OnlyTimerKilled(active: map<int, nat>, id: int)
    requires active == map[id := DefaultIdnAnswerTimeout]
    ensures active - {id} == map[]
  {
    assert (active - {id}).Keys == {};
  }

  /** Discovery and identification, as the application sees it. */
  method DiscoverAndIdentify() returns (signals: seq<Signal>, modelIsOk: bool, written: seq<seq<byte>>)
    ensures signals == [Answer(IDN, SupplyIdentity()), ModelDetected(SupplyIdentity())]
    ensures modelIsOk
    ensures written == [IdnCommand()]
  {
    var e := Identified();
    signals, modelIsOk, written := e.signals, e.modelIsOk, e.link.written;
  }

  /** A voltage query answered with its five octets completes on the last of them. */
  method ReadOutputVoltage() returns (signals: seq<Signal>, written: seq<seq<byte>>, pending: RequestKind)
    ensures signals == [Answer(IDN, SupplyIdentity()), ModelDetected(SupplyIdentity()), Answer(VOUT1Q, AsciiBytes("12.34"))]
    ensures written == [IdnCommand(), AsciiBytes("VOUT1?")]
    ensures pending == None
  {
    var e := Identified();
    e.Request(VOUT1Q, []);
    assert e.request == VOUT1Q && e.rxBuff == [] && e.signals == [Answer(IDN, SupplyIdentity()), ModelDetected(SupplyIdentity())];
    e.ReadyRead(AsciiBytes("12."), NoError);
    assert e.request == VOUT1Q && e.rxBuff == AsciiBytes("12.");
    e.ReadyRead(AsciiBytes("34"), NoError);
    assert AsciiBytes("12.") + AsciiBytes("34") == AsciiBytes("12.34");
    signals, written, pending := e.signals, e.link.written, e.request;
  }

  /**
   * A short answer is dropped when the 150 ms timer fires: no answer is emitted, only
   * answerTimeout, and the engine is idle again.
   */
  method ShortAnswerTimesOut() returns (signals: seq<Signal>, pending: RequestKind, buffered: seq<byte>)
    ensures signals == [Answer(IDN, SupplyIdentity()), ModelDetected(SupplyIdentity()), AnswerTimeout]
    ensures pending == None && buffered == []
  {
    var e := Identified();
    e.Request(VOUT1Q, []);
    e.ReadyRead(AsciiBytes("12.3"), NoError);
    e.TimerEvent(e.timerId, [], NoError);
    signals, pending, buffered := e.signals, e.request, e.rxBuff;
  }

  /** Before the identity is confirmed, nothing but the identity query reaches the port. */
  method RequestsBeforeIdentification() returns (written: seq<seq<byte>>)
    ensures written == [IdnCommand()]
  {
    var e := Opened();
    e.Request(VOUT1Q, []);
    e.Request(VSET1, AsciiBytes("5"));
    e.RequestWithoutValue(STATUSQ);
    written := e.link.written;
  }

  /** Asking again for the kind already in flight sends nothing. */
  method RepeatedQueryIsIgnored() returns (written: seq<seq<byte>>)
    ensures written == [IdnCommand(), AsciiBytes("ISET1?")]
  {
    var e := Identified();
    e.Request(ISET1Q, []);
    e.Request(ISET1Q, []);
    written := e.link.written;
  }

  /**
   * A set command sent while a query is pending is written at once and acknowledged
   * with an empty answer; the query's timer stays armed and, when it fires, reports a
   * timeout although nothing is pending any more.
   */
  method SetCommandDuringQuery() returns (signals: seq<Signal>, written: seq<seq<byte>>)
    ensures written == [IdnCommand(), AsciiBytes("VOUT1?"), AsciiBytes("VSET1:") + AsciiBytes("5")]
    ensures signals == [Answer(IDN, SupplyIdentity()), ModelDetected(SupplyIdentity()), Answer(VSET1, []), AnswerTimeout]
  {
    var e := Identified();
    e.Request(VOUT1Q, []);
    e.Request(VSET1, AsciiBytes("5"));
    assert e.request == None && e.timerId != -1;
    e.TimerEvent(e.timerId, [], NoError);
    signals, written := e.signals, e.link.written;
  }

  /** Octets that arrive while nothing is pending are passed on at once as an answer to None. */
  method UnsolicitedOctets() returns (signals: seq<Signal>)
    ensures signals == [Answer(IDN, SupplyIdentity()), ModelDetected(SupplyIdentity()), Answer(None, AsciiBytes("OK"))]
  {
    var e := Identified();
    assert [] + AsciiBytes("OK") == AsciiBytes("OK");
    e.ReadyRead(AsciiBytes("OK"), NoError);
    signals := e.signals;
  }

  /**
   * A supply of another model is answered by closing the port; since nothing re-arms
   * the reconnect timer, the object is left with no timer at all and searches no more.
   */
  method WrongModel() returns (modelIsOk: bool, port: PortHandle, timers: map<int, nat>, linkSignals: seq<LinkSignal>)
    ensures !modelIsOk && port == Null
    ensures timers == map[]
    ensures linkSignals == [SerialPortOpened("ttyACM0"), SerialPortClosed("ttyACM0")]
  {
    var e := Opened();
    e.ReadyRead(AsciiBytes("KORAD KA3010P V5.2"), NoError);
    assert e.request == IDN && e.rxBuff == AsciiBytes("KORAD KA3010P V5.2") && e.link.IsOpen();
    OtherModelIsRefused();
    ghost var armed, t := e.link.timers.active, e.timerId;
    e.TimerEvent(e.timerId, [], NoError);
    assert e.link.timers.active == armed - {t};
    OnlyTimerKilled(armed, t);
    modelIsOk, port, timers, linkSignals := e.modelIsOk, e.link.serialPort, e.link.timers.active, e.link.signals;
  }

  /**
   * Unplugging the supply (an empty read with a resource error) closes the port,
   * forgets the identity and restarts the search at 0 ms; requests are refused again.
   */
  method Unplugged() returns (modelIsOk: bool, port: PortHandle, attempts: int, timers: map<int, nat>, written: seq<seq<byte>>)
    ensures !modelIsOk && port == Null && attempts == 0
    ensures |timers| == 1 && 0 in timers.Values
    ensures written == [IdnCommand()]
  {
    var e := Identified();
    e.ReadyRead([], ResourceError);
    e.Request(VOUT1Q, []);
    assert e.link.reconnectTimerId in e.link.timers.active;
    modelIsOk, port, attempts, timers, written :=
      e.modelIsOk, e.link.serialPort, e.link.reconnectAttemptsCount, e.link.timers.active, e.link.written;
  }
}
