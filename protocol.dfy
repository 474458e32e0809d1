/**
 * The protocol engine (ProtocolClass, src/ProtocolClass.h and ProtocolClass.cpp) layered
 * on the serial link: it turns requests into the supply's ASCII commands, keeps at most
 * one exchange in flight, completes an answer by its expected length or, for the
 * identity query, by its timer, reports timeouts, and lets nothing but the identity
 * query out until the supply has identified itself as a KORAD KA3005P.
 */
module Protocol {
  import opened Bytes
  import opened Timers
  import opened SerialPort

  // ---------------------------------------------------------------------------
  // Vocabulary and constants
  // ---------------------------------------------------------------------------

  /** ProtocolClass::RequestEnum: eighteen kinds, None meaning "no request". */
  datatype RequestKind =
    | None
    | IDN | STATUSQ
    | VSET1Q | VSET1 | VOUT1Q
    | ISET1Q | ISET1 | IOUT1Q
    | OUT0 | OUT1 | OVP0 | OVP1 | OCP0 | OCP1
    | RCL1 | SAV1
    | TRACK0

  /** Answer deadline of the identity query, in ms. */
  const DefaultIdnAnswerTimeout: nat := 250
  /** Answer deadline of every other query, in ms. */
  const DefaultAnswerTimeout: nat := 150
  /** Settling delay after the port opens, in ms (a blocking sleep with no other effect). */
  const DefaultOpenPortDelay: nat := 500

  /** The USB-serial bridge of the supply, the one pair the engine searches for. */
  const KoradVidPid: VidPid := VidPid(0x0416, 0x5011)

  /** The signals the engine emits. */
  datatype Signal =
    | Answer(request: RequestKind, value: seq<byte>)
    | AnswerTimeout
    | ModelDetected(model: seq<byte>)

  /** What request() hands to sendRequest for a kind: the wire octets and the expected answer length (0: a set command). */
  datatype Command = Unencoded | Send(data: seq<byte>, answerExpectedLen: int)

  /** The kinds that expect an answer. */
  predicate IsQuery(r: RequestKind)
  {
    r in {IDN, STATUSQ, VSET1Q, VOUT1Q, ISET1Q, IOUT1Q}
  }

  /** The text of the default value 0.0 of request(r). */
  function ZeroText(): seq<byte>
  {
    AsciiBytes("0")
  }

  function IdnCommand(): seq<byte>
  {
    AsciiBytes("*IDN?")
  }

  /**
   * The command table of request(r, value). VSET1 carries the formatted value after
   * its colon; the other kinds of the enumeration have no encoding and send nothing.
   */
  function CommandFor(r: RequestKind, value: seq<byte>): (c: Command)
    ensures c.Send? <==> IsQuery(r) || r == VSET1
    ensures c.Send? ==> c.answerExpectedLen >= 0 && (c.answerExpectedLen > 0 <==> IsQuery(r))
  {
    match r
    case IDN => Send(IdnCommand(), 1024)
    case STATUSQ => Send(AsciiBytes("STATUS?"), 1)
    case VSET1Q => Send(AsciiBytes("VSET1?"), 5)
    case VSET1 => Send(AsciiBytes("VSET1:") + value, 0)
    case VOUT1Q => Send(AsciiBytes("VOUT1?"), 5)
    case ISET1Q => Send(AsciiBytes("ISET1?"), 5)
    case IOUT1Q => Send(AsciiBytes("IOUT1?"), 5)
    case _ => Unencoded
  }

  /** The answer length the engine waits for after sending a kind; 0 for everything that is not a query. */
  function ExpectedLength(r: RequestKind): (n: int)
    ensures n >= 0
    ensures n > 0 <==> IsQuery(r)
  {
    var c := CommandFor(r, []);
    if c.Send? then c.answerExpectedLen else 0
  }

  /** Every query's command ends in '?', and the set command is "VSET1:" followed by the value. */
  lemma QueriesEndWithQuestionMark(r: RequestKind, value: seq<byte>)
    requires CommandFor(r, value).Send?
    ensures var c := CommandFor(r, value);
      && |c.data| >= 5
      && (c.answerExpectedLen > 0 <==> IsQuery(r))
      && (IsQuery(r) ==> c.data[|c.data| - 1] == '?' as int)
      && (!IsQuery(r) ==> r == VSET1 && c.data == AsciiBytes("VSET1:") + value)
  {
  }

  /**
   * Reads the kind back from a command's octets, by its first, second and sixth octet;
   * None for octets that are no command of the table.
   */
  function CommandKind(data: seq<byte>): RequestKind
  {
    if |data| < 5 then None
    else if data[0] == '*' as int then IDN
    else if data[0] == 'S' as int then STATUSQ
    else if |data| < 6 then None
    else if data[0] == 'V' as int && data[1] == 'S' as int then (if data[5] == '?' as int then VSET1Q else VSET1)
    else if data[0] == 'V' as int then VOUT1Q
    else if data[0] == 'I' as int && data[1] == 'S' as int then ISET1Q
    else if data[0] == 'I' as int then IOUT1Q
    else None
  }

  /** The command table is invertible: every command names its kind. */
  lemma CommandKindInverts(r: RequestKind, value: seq<byte>)
    requires CommandFor(r, value).Send?
    ensures CommandKind(CommandFor(r, value).data) == r
  {
    var d := CommandFor(r, value).data;
    if r == VSET1 {
      assert d[..6] == AsciiBytes("VSET1:");
      assert d[0] == d[..6][0] && d[1] == d[..6][1] && d[5] == d[..6][5];
    }
  }

  /** Different kinds never put the same octets on the wire. */
  lemma CommandsAreDistinct(r1: RequestKind, v1: seq<byte>, r2: RequestKind, v2: seq<byte>)
    requires CommandFor(r1, v1).Send? && CommandFor(r2, v2).Send?
    requires CommandFor(r1, v1).data == CommandFor(r2, v2).data
    ensures r1 == r2
  {
    CommandKindInverts(r1, v1);
    CommandKindInverts(r2, v2);
  }

  // ---------------------------------------------------------------------------
  // Identity check (_parseIdn)
  // ---------------------------------------------------------------------------

  /** The octets QByteArray::trimmed removes: tab, line feed, vertical tab, form feed, carriage return, blank. */
  predicate IsSpace(b: byte)
  {
    b == 9 || b == 10 || b == 11 || b == 12 || b == 13 || b == 32
  }

  predicate AllSpace(s: seq<byte>)
  {
    forall i :: 0 <= i < |s| ==> IsSpace(s[i])
  }

  function TrimStart(s: seq<byte>): seq<byte>
  {
    if s != [] && IsSpace(s[0]) then TrimStart(s[1..]) else s
  }

  function TrimEnd(s: seq<byte>): seq<byte>
  {
    if s != [] && IsSpace(s[|s| - 1]) then TrimEnd(s[..|s| - 1]) else s
  }

  /** QByteArray::trimmed: white space removed from both ends. */
  function Trimmed(s: seq<byte>): seq<byte>
  {
    TrimEnd(TrimStart(s))
  }

  /** QByteArray::mid(pos): the octets from pos on, empty when pos is past the end. */
  function Mid(s: seq<byte>, pos: nat): seq<byte>
  {
    if pos <= |s| then s[pos..] else []
  }

  predicate StartsWith(s: seq<byte>, prefix: seq<byte>)
  {
    |prefix| <= |s| && s[..|prefix|] == prefix
  }

  function Vendor(): seq<byte>
  {
    AsciiBytes("KORAD")
  }

  function Model(): seq<byte>
  {
    AsciiBytes("KA3005P")
  }

  /** _parseIdn: the answer starts with "KORAD" and what follows, trimmed, starts with "KA3005P". */
  predicate ParseIdn(answer: seq<byte>): (ok: bool)
    ensures ok ==> |answer| >= |Vendor()| + |Model()|
  {
    TrimStartShape(Mid(answer, 5));
    TrimEndIsPrefix(TrimStart(Mid(answer, 5)));
    StartsWith(answer, Vendor()) && StartsWith(Trimmed(Mid(answer, 5)), Model())
  }

  /** The number of white-space octets at the front. */
  function LeadingSpace(s: seq<byte>): (k: nat)
    ensures k <= |s|
  {
    if s != [] && IsSpace(s[0]) then 1 + LeadingSpace(s[1..]) else 0
  }

  lemma {:induction false} TrimStartShape(s: seq<byte>)
    ensures AllSpace(s[..LeadingSpace(s)]) && TrimStart(s) == s[LeadingSpace(s)..]
  {
    if s != [] && IsSpace(s[0]) {
      TrimStartShape(s[1..]);
      var k := LeadingSpace(s[1..]);
      assert s[..k + 1] == [s[0]] + s[1..][..k];
      assert s[k + 1..] == s[1..][k..];
    } else {
      assert s[0..] == s;
    }
  }

  lemma {:induction false} TrimStartSkipsSpace(w: seq<byte>, x: seq<byte>)
    requires AllSpace(w)
    ensures TrimStart(w + x) == TrimStart(x)
  {
    if w != [] {
      assert (w + x)[1..] == w[1..] + x;
      TrimStartSkipsSpace(w[1..], x);
    } else {
      assert w + x == x;
    }
  }

  lemma {:induction false} TrimEndIsPrefix(s: seq<byte>)
    ensures |TrimEnd(s)| <= |s| && TrimEnd(s) == s[..|TrimEnd(s)|]
  {
    if s != [] && IsSpace(s[|s| - 1]) {
      TrimEndIsPrefix(s[..|s| - 1]);
    }
  }

  lemma {:induction false} TrimEndKeepsHead(p: seq<byte>, r: seq<byte>)
    requires p != [] && !IsSpace(p[|p| - 1])
    ensures TrimEnd(p + r) == p + TrimEnd(r)
  {
    if r != [] && IsSpace(r[|r| - 1]) {
      assert (p + r)[..|p + r| - 1] == p + r[..|r| - 1];
      TrimEndKeepsHead(p, r[..|r| - 1]);
    } else if r == [] {
      assert p + r == p;
    }
  }

  /** Whatever the identity check accepts is "KORAD", white space, "KA3005P" and the rest. */
  lemma {:induction false} ParseIdnSound(answer: seq<byte>)
    requires ParseIdn(answer)
    ensures exists w, rest :: AllSpace(w) && answer == Vendor() + w + Model() + rest
  {
    assert |Vendor()| == 5;
    var w, rest := SplitAfterTrim(answer, Vendor(), Model());
  }

  /** The shape behind the identity check, for any vendor and model text. */
  lemma {:induction false} SplitAfterTrim(answer: seq<byte>, vendor: seq<byte>, model: seq<byte>) returns (w: seq<byte>, rest: seq<byte>)
    requires StartsWith(answer, vendor) && StartsWith(Trimmed(Mid(answer, |vendor|)), model)
    ensures AllSpace(w) && answer == vendor + w + model + rest
  {
    var m := answer[|vendor|..];
    assert Mid(answer, |vendor|) == m;
    TrimmedStartsWith(m, model);
    TrimStartShape(m);
    w, rest := SplitAt(answer, vendor, model, LeadingSpace(m));
  }

  /** Cutting an answer into vendor text, k white-space octets, model text and the rest. */
  lemma SplitAt(answer: seq<byte>, vendor: seq<byte>, model: seq<byte>, k: nat) returns (w: seq<byte>, rest: seq<byte>)
    requires StartsWith(answer, vendor) && |vendor| + k <= |answer|
    requires AllSpace(answer[|vendor|..][..k]) && StartsWith(answer[|vendor|..][k..], model)
    ensures AllSpace(w) && answer == vendor + w + model + rest
  {
    var m := answer[|vendor|..];
    var t := m[k..];
    w, rest := m[..k], t[|model|..];
    assert t == t[..|model|] + rest;
    assert m == w + t;
    assert answer == answer[..|vendor|] + m;
  }

  /** What starts the trimmed text starts the text after its leading white space. */
  lemma {:induction false} TrimmedStartsWith(m: seq<byte>, model: seq<byte>)
    requires StartsWith(Trimmed(m), model)
    ensures StartsWith(m[LeadingSpace(m)..], model)
  {
    TrimStartShape(m);
    var t := m[LeadingSpace(m)..];
    TrimEndIsPrefix(t);
    var e := TrimEnd(t);
    assert e == Trimmed(m);
    assert e == t[..|e|];
    assert t[..|model|] == e[..|model|];
  }

  /** "KORAD", any run of white space, "KA3005P" and anything after it pass the identity check. */
  lemma {:induction false} ParseIdnComplete(w: seq<byte>, rest: seq<byte>)
    requires AllSpace(w)
    ensures ParseIdn(Vendor() + w + Model() + rest)
  {
    var model := Model();
    assert |Vendor()| == 5 && |model| == 7;
    assert model[0] == 'K' as int && model[6] == 'P' as int;
    JoinPassesTrim(Vendor(), w, model, rest);
  }

  /** Joining a vendor text, white space, a model text with no white space at its ends, and the rest passes the check. */
  lemma {:induction false} JoinPassesTrim(vendor: seq<byte>, w: seq<byte>, model: seq<byte>, rest: seq<byte>)
    requires AllSpace(w) && model != [] && !IsSpace(model[0]) && !IsSpace(model[|model| - 1])
    ensures var answer := vendor + w + model + rest;
      StartsWith(answer, vendor) && StartsWith(Trimmed(Mid(answer, |vendor|)), model)
  {
    var answer := vendor + w + model + rest;
    assert answer[..|vendor|] == vendor;
    assert Mid(answer, |vendor|) == w + (model + rest);
    TrimStartSkipsSpace(w, model + rest);
    assert TrimStart(model + rest) == model + rest;
    TrimEndKeepsHead(model, rest);
    assert (model + TrimEnd(rest))[..|model|] == model;
  }

  /** The identity check, both directions. */
  lemma {:induction false} ParseIdnAccepts(answer: seq<byte>)
    ensures ParseIdn(answer) <==>
      exists w, rest :: AllSpace(w) && answer == Vendor() + w + Model() + rest
  {
    if ParseIdn(answer) {
      ParseIdnSound(answer);
    }
    if exists w, rest :: AllSpace(w) && answer == Vendor() + w + Model() + rest {
      var w, rest :| AllSpace(w) && answer == Vendor() + w + Model() + rest;
      ParseIdnComplete(w, rest);
    }
  }

  /** The identity answer of the supply this engine is for is accepted. */
  lemma KA3005PIsAccepted()
    ensures ParseIdn(AsciiBytes("KORAD KA3005P V4.2 SN:00000001"))
  {
    var w, rest := AsciiBytes(" "), AsciiBytes(" V4.2 SN:00000001");
    assert "KORAD KA3005P V4.2 SN:00000001" == "KORAD" + " " + "KA3005P" + " V4.2 SN:00000001";
    AsciiBytesAppend("KORAD", " ");
    AsciiBytesAppend("KORAD" + " ", "KA3005P");
    AsciiBytesAppend("KORAD" + " " + "KA3005P", " V4.2 SN:00000001");
    assert w[0] == 32;
    ParseIdnComplete(w, rest);
  }

  /**
   * "KORAD", white space and a model word of the same length as "KA3005P" but different
   * from it is refused, whatever follows.
   */
  lemma {:induction false} OtherModelWordIsRefused(w: seq<byte>, model: seq<byte>, rest: seq<byte>)
    requires AllSpace(w) && |model| == |Model()| && model != Model()
    requires !IsSpace(model[0]) && !IsSpace(model[|model| - 1])
    ensures !ParseIdn(Vendor() + w + model + rest)
  {
    assert |Vendor()| == 5;
    JoinPassesTrim(Vendor(), w, model, rest);
  }

  /** The identity answer of another KORAD model is refused. */
  lemma OtherModelIsRefused()
    ensures !ParseIdn(AsciiBytes("KORAD KA3010P V5.2"))
  {
    var w, model, rest := AsciiBytes(" "), AsciiBytes("KA3010P"), AsciiBytes(" V5.2");
    assert "KORAD KA3010P V5.2" == "KORAD" + " " + "KA3010P" + " V5.2";
    AsciiBytesAppend("KORAD", " ");
    AsciiBytesAppend("KORAD" + " ", "KA3010P");
    AsciiBytesAppend("KORAD" + " " + "KA3010P", " V5.2");
    assert w[0] == 32;
    assert model[0] == 'K' as int && model[6] == 'P' as int && model[4] == '1' as int && Model()[4] == '0' as int;
    OtherModelWordIsRefused(w, model, rest);
  }

  // ---------------------------------------------------------------------------
  // The engine
  // ---------------------------------------------------------------------------

  class Engine {
    /** The serial link the engine is built on (its base class in the source). */
    const link: Link

    /** Whether the identity answer named the right model. */
    var modelIsOk: bool
    /** The query in flight, None when idle. */
    var request: RequestKind
    /** The answer octets received so far. */
    var rxBuff: seq<byte>
    /** -1: no answer timer; otherwise the id of the armed answer timer. */
    var timerId: int
    /** The answer length that completes the exchange, 0 when idle. */
    var answerExpectedLen: int
    /** answer, answerTimeout and modelDetected, in emission order. */
    var signals: seq<Signal>

    /**
     * The exchange state: the link's own invariant holds; a pending request is a query
     * whose expected length is the table's and whose answer timer is armed; an armed
     * answer timer is live, distinct from the reconnect timer, at 250 or 150 ms; and the
     * object has no timer other than these two.
     */
    ghost predicate Exchange()
      reads this, link, link.timers
    {
      && link.Valid()
      && (request == None || IsQuery(request))
      && answerExpectedLen == ExpectedLength(request)
      && (request != None ==> timerId != -1)
      && (timerId != -1 ==>
            && timerId in link.timers.active
            && timerId != link.reconnectTimerId
            && link.timers.active[timerId] in {DefaultIdnAnswerTimeout, DefaultAnswerTimeout})
      && (forall id :: id in link.timers.active ==> id == timerId || id == link.reconnectTimerId)
    }

    /** The model is only ever confirmed while the port is open. */
    ghost predicate Coherent()
      reads this, link, link.timers
    {
      Exchange() && (modelIsOk ==> link.IsOpen())
    }

    /**
     * Between events: an idle engine holds no octets, and a pending query other than the
     * identity query has fewer octets than it waits for.
     */
    ghost predicate Valid()
      reads this, link, link.timers
    {
      && Coherent()
      && (request == None ==> rxBuff == [])
      && (request != None && request != IDN ==> |rxBuff| < answerExpectedLen)
    }

    /** clear() happened: no exchange, no octets, no answer timer. */
    twostate predicate Cleared()
      reads this, link.timers
    {
      && request == None && answerExpectedLen == 0 && rxBuff == [] && timerId == -1
      && link.timers.active == old(link.timers.active) - {old(timerId)}
      && link.timers.nextId == old(link.timers.nextId)
    }

    /** The exchange state, the model flag and the signals are as they were. */
    twostate predicate EngineUnchanged()
      reads this
    {
      && modelIsOk == old(modelIsOk) && request == old(request) && rxBuff == old(rxBuff)
      && timerId == old(timerId) && answerExpectedLen == old(answerExpectedLen)
      && signals == old(signals)
    }

    /** No timer was started or killed. */
    twostate predicate TimersUnchanged()
      reads link.timers
    {
      link.timers.active == old(link.timers.active) && link.timers.nextId == old(link.timers.nextId)
    }

    /** The link's connection, search state, signals and written octets are as they were. */
    twostate predicate ConnectionUnchanged()
      reads link
    {
      && link.serialPort == old(link.serialPort)
      && link.reconnectTimerId == old(link.reconnectTimerId)
      && link.reconnectAttemptsCount == old(link.reconnectAttemptsCount)
      && link.lastError == old(link.lastError)
      && link.signals == old(link.signals)
      && link.written == old(link.written)
    }

    /** The identity query was written and its 250 ms answer timer replaced any earlier answer timer. */
    twostate predicate IdentityQueried()
      reads this, link, link.timers
    {
      && request == IDN && answerExpectedLen == 1024 && rxBuff == []
      && link.written == old(link.written) + [IdnCommand()]
      && timerId == old(link.timers.nextId)
      && link.timers.active == (old(link.timers.active) - {old(timerId)})[timerId := DefaultIdnAnswerTimeout]
      && link.timers.nextId == old(link.timers.nextId) + 1
    }

    /** The constructor: a link searching for the supply's VID:PID, and an idle, unverified engine. */
    constructor ()
      ensures Valid() && fresh(link) && fresh(link.timers)
      ensures !modelIsOk && request == None && rxBuff == [] && timerId == -1 && answerExpectedLen == 0
      ensures signals == []
      ensures link.vidPid == [KoradVidPid] && link.portName == ""
      ensures link.serialPort == Null && link.lastError == NoError && link.signals == [] && link.written == []
      ensures link.reconnectAttemptsCount == 0 && link.reconnectTimerId == 1
      ensures link.timers.active == map[1 := 0] && link.timers.nextId == 2
    {
      link := new Link([KoradVidPid], "");
      modelIsOk := false;
      request := None;
      rxBuff := [];
      timerId := -1;
      answerExpectedLen := 0;
      signals := [];
    }

    /** clear(): forgets the exchange and kills the answer timer. */
    method Clear()
      requires Exchange()
      modifies this, link.timers
      ensures Exchange() && Cleared()
      ensures modelIsOk == old(modelIsOk) && signals == old(signals)
    {
      request := None;
      answerExpectedLen := 0;
      rxBuff := [];
      if timerId >= 0 {
        link.timers.Kill(timerId);
        timerId := -1;
      }
    }

    /**
     * requestComplete(): clears the exchange, then emits answer(kind, octets). For the
     * identity query the model flag becomes the identity check's verdict: modelDetected
     * when it passes, otherwise the port is closed (closeSerialPort with signals) and
     * no new search is scheduled.
     */
    method RequestComplete()
      requires Coherent()
      requires request == IDN ==> link.IsOpen()
      modifies this, link, link.timers
      ensures Valid() && Cleared()
      ensures old(request) != IDN ==>
        && signals == old(signals) + [Answer(old(request), old(rxBuff))]
        && modelIsOk == old(modelIsOk)
        && ConnectionUnchanged()
      ensures old(request) == IDN && ParseIdn(old(rxBuff)) ==>
        && signals == old(signals) + [Answer(IDN, old(rxBuff)), ModelDetected(old(rxBuff))]
        && modelIsOk
        && ConnectionUnchanged()
      ensures old(request) == IDN && !ParseIdn(old(rxBuff)) ==>
        && signals == old(signals) + [Answer(IDN, old(rxBuff))]
        && !modelIsOk
        && link.serialPort == Null
        && link.lastError == old(link.serialPort).error
        && link.signals == old(link.signals) + [SerialPortClosed(old(link.serialPort).portName)]
        && link.reconnectTimerId == old(link.reconnectTimerId)
        && link.reconnectAttemptsCount == old(link.reconnectAttemptsCount)
        && link.written == old(link.written)
    {
      var r := request;
      var buff := rxBuff;
      Clear();
      signals := signals + [Answer(r, buff)];
      if r == IDN {
        modelIsOk := ParseIdn(buff);
        if modelIsOk {
          signals := signals + [ModelDetected(buff)];
        } else {
          var hook := link.CloseSerialPort(true);
          PortClosed();
        }
      }
    }

    /**
     * timerEvent(): the answer timer completes a pending identity query with whatever has
     * arrived, and times out any other exchange; with the port closed it only clears.
     * Any other timer goes to the link, and when the link opens a port the engine runs
     * portOpened.
     */
    method TimerEvent(id: int, ports: seq<PortInfo>, openError: SerialPortError)
      requires Valid() && id > 0
      modifies this, link, link.timers
      ensures Valid()
      ensures id == old(timerId) && old(link.IsOpen()) && old(request) == IDN ==>
        && Cleared()
        && (modelIsOk <==> ParseIdn(old(rxBuff)))
        && (modelIsOk ==>
              signals == old(signals) + [Answer(IDN, old(rxBuff)), ModelDetected(old(rxBuff))] && ConnectionUnchanged())
        && (!modelIsOk ==>
              && signals == old(signals) + [Answer(IDN, old(rxBuff))]
              && link.serialPort == Null && link.lastError == old(link.serialPort).error
              && link.signals == old(link.signals) + [SerialPortClosed(old(link.serialPort).portName)]
              && link.written == old(link.written)
              && link.reconnectTimerId == old(link.reconnectTimerId)
              && link.reconnectAttemptsCount == old(link.reconnectAttemptsCount))
      ensures id == old(timerId) && old(link.IsOpen()) && old(request) != IDN ==>
        && Cleared() && modelIsOk == old(modelIsOk) && ConnectionUnchanged()
        && signals == old(signals) + [AnswerTimeout]
      ensures id == old(timerId) && !old(link.IsOpen()) ==>
        && Cleared() && modelIsOk == old(modelIsOk) && ConnectionUnchanged()
        && signals == old(signals)
      ensures id != old(timerId) && id != old(link.reconnectTimerId) ==>
        && EngineUnchanged() && ConnectionUnchanged()
        && link.timers.active == old(link.timers.active) - {id}
      ensures id != old(timerId) && id == old(link.reconnectTimerId) ==>
        var found := TryFindComPort(link.vidPid, link.portName, ports);
        && (link.IsOpen() <==> found != "" && openError == NoError)
        && (link.IsOpen() ==>
              && link.serialPort == Port(found, true, NoError) && link.lastError == old(link.lastError)
              && link.signals == old(link.signals) + [SerialPortOpened(found)])
        && (!link.IsOpen() && found == "" ==> link.serialPort == old(link.serialPort) && link.lastError == old(link.lastError))
        && (!link.IsOpen() && found != "" ==> link.OpenFailed(found, openError))
      ensures id != old(timerId) && id == old(link.reconnectTimerId) && link.IsOpen() ==>
        && !modelIsOk && request == IDN && rxBuff == [] && answerExpectedLen == 1024
        && link.written == old(link.written) + [IdnCommand()]
        && link.reconnectTimerId == -1 && link.reconnectAttemptsCount == 0
        && link.timers.active == map[timerId := DefaultIdnAnswerTimeout]
        && signals == old(signals)
      ensures id != old(timerId) && id == old(link.reconnectTimerId) && !link.IsOpen() ==>
        EngineUnchanged() && link.written == old(link.written) && link.signals == old(link.signals) && link.BackedOff()
    {
      if timerId == id {
        if link.IsOpen() {
          if request == IDN {
            RequestComplete();
          } else {
            Clear();
            signals := signals + [AnswerTimeout];
          }
        } else {
          Clear();
        }
      } else {
        var hook := link.TimerEvent(id, ports, openError);
        if hook.PortOpened? {
          assert forall k :: k in link.timers.active ==> k == timerId;
          PortOpened();
          assert forall k :: k in link.timers.active <==> k == timerId;
          assert link.timers.active.Keys == {timerId};
        }
      }
    }

    /**
     * portOpened(): forgets any earlier verdict and exchange, then asks for the identity
     * (after a settling sleep, not modelled).
     */
    method PortOpened()
      requires Exchange() && link.IsOpen()
      modifies this, link, link.timers
      ensures Valid() && !modelIsOk && IdentityQueried()
      ensures signals == old(signals)
      ensures link.serialPort == old(link.serialPort)
      ensures link.reconnectTimerId == old(link.reconnectTimerId)
      ensures link.reconnectAttemptsCount == old(link.reconnectAttemptsCount)
      ensures link.lastError == old(link.lastError) && link.signals == old(link.signals)
    {
      modelIsOk := false;
      Clear();
      RequestWithoutValue(IDN);
    }

    /** portClosed(): forgets the verdict and the exchange. */
    method PortClosed()
      requires Exchange()
      modifies this, link.timers
      ensures Valid() && Cleared() && !modelIsOk
      ensures signals == old(signals)
    {
      modelIsOk := false;
      Clear();
    }

    /**
     * dataArrived(): appends the octets; unless the identity query is pending, reaching
     * the expected length completes the exchange with the whole buffer. An idle engine
     * expects 0 octets, so octets arriving while idle are passed on at once as
     * answer(None, octets).
     */
    method DataArrived(data: seq<byte>)
      requires Valid()
      modifies this, link, link.timers
      ensures Valid() && ConnectionUnchanged() && modelIsOk == old(modelIsOk)
      ensures var buff := old(rxBuff) + data;
        if old(request) != IDN && |buff| >= old(answerExpectedLen) then
          Cleared() && signals == old(signals) + [Answer(old(request), buff)]
        else
          && rxBuff == buff && request == old(request) && timerId == old(timerId)
          && answerExpectedLen == old(answerExpectedLen) && signals == old(signals)
          && TimersUnchanged()
      ensures old(request) == None ==> signals == old(signals) + [Answer(None, data)]
    {
      rxBuff := rxBuff + data;
      assert request == None ==> rxBuff == data;
      if request != IDN {
        if |rxBuff| >= answerExpectedLen {
          RequestComplete();
        }
      }
    }

    /**
     * request(r, value): nothing but the identity query passes before the model is
     * confirmed; a kind equal to the one in flight, and a kind without an encoding, are
     * ignored; anything else is sent through sendRequest.
     */
    method Request(r: RequestKind, value: seq<byte>)
      requires Valid()
      modifies this, link, link.timers
      ensures Valid()
      ensures !modelIsOk ==> link.written == old(link.written) || link.written == old(link.written) + [IdnCommand()]
      ensures !old(modelIsOk) && r != IDN ==>
        EngineUnchanged() && ConnectionUnchanged() && TimersUnchanged()
      ensures old(request) != None && r == old(request) ==>
        EngineUnchanged() && ConnectionUnchanged() && TimersUnchanged()
      ensures CommandFor(r, value).Unencoded? ==>
        EngineUnchanged() && ConnectionUnchanged() && TimersUnchanged()
      ensures old(Admits(r, value)) ==>
        Sent(CommandFor(r, value).data, r, CommandFor(r, value).answerExpectedLen)
    {
      if !modelIsOk && r != IDN {
        return;
      }
      if request == None || r != request {
        var c := CommandFor(r, value);
        if c.Send? {
          SendRequest(c.data, r, c.answerExpectedLen);
        }
      }
    }

    /** Whether request(r, value) gets as far as sendRequest. */
    predicate Admits(r: RequestKind, value: seq<byte>)
      reads this
    {
      && (modelIsOk || r == IDN)
      && (request == None || r != request)
      && CommandFor(r, value).Send?
    }

    /** request(r): request(r, 0.0), the value formatting as "0". */
    method RequestWithoutValue(r: RequestKind)
      requires Valid()
      modifies this, link, link.timers
      ensures Valid()
      ensures old(Admits(r, ZeroText())) ==>
        Sent(CommandFor(r, ZeroText()).data, r, CommandFor(r, ZeroText()).answerExpectedLen)
      ensures !old(Admits(r, ZeroText())) ==>
        EngineUnchanged() && ConnectionUnchanged() && TimersUnchanged()
    {
      Request(r, ZeroText());
    }

    /** What sendRequest(data, r, len) does, given the state before it. */
    twostate predicate Sent(data: seq<byte>, r: RequestKind, len: int)
      reads this, link, link.timers
    {
      if !old(link.IsOpen()) then
        EngineUnchanged() && ConnectionUnchanged() && TimersUnchanged()
      else
        && rxBuff == [] && modelIsOk == old(modelIsOk)
        && link.written == old(link.written) + [data]
        && link.serialPort == old(link.serialPort) && link.lastError == old(link.lastError)
        && link.signals == old(link.signals)
        && link.reconnectTimerId == old(link.reconnectTimerId)
        && link.reconnectAttemptsCount == old(link.reconnectAttemptsCount)
        && if len > 0 then
             && request == r && answerExpectedLen == len
             && timerId == old(link.timers.nextId)
             && link.timers.active == (old(link.timers.active) - {old(timerId)})[timerId := if r == IDN then DefaultIdnAnswerTimeout else DefaultAnswerTimeout]
             && link.timers.nextId == old(link.timers.nextId) + 1
             && signals == old(signals)
           else
             && request == None && answerExpectedLen == 0
             && timerId == old(timerId) && TimersUnchanged()
             && signals == old(signals) + [Answer(r, [])]
    }

    /**
     * sendRequest(data, r, len): only on an open port. The buffer is emptied and the octets
     * written. A query (len > 0) becomes the exchange in flight, and its answer timer
     * (250 ms for the identity query, 150 ms otherwise) replaces any earlier one. A set
     * command (len 0) leaves the engine idle and emits answer(r, empty) at once, without
     * touching an answer timer still armed by an earlier query.
     */
    method SendRequest(data: seq<byte>, r: RequestKind, len: int)
      requires Valid()
      requires len > 0 ==> IsQuery(r) && len == ExpectedLength(r)
      modifies this, link, link.timers
      ensures Valid() && Sent(data, r, len)
    {
      if link.IsOpen() {
        rxBuff := [];
        if len > 0 {
          request := r;
          answerExpectedLen := len;
          link.Write(data);
          if timerId >= 0 {
            link.timers.Kill(timerId);
          }
          timerId := link.timers.Start(if r == IDN then DefaultIdnAnswerTimeout else DefaultAnswerTimeout);
        } else {
          request := None;
          answerExpectedLen := 0;
          link.Write(data);
          signals := signals + [Answer(r, [])];
        }
      }
    }

    /** The link's readyRead slot, with the engine's dataArrived and portClosed hooks run. */
    method ReadyRead(data: seq<byte>, portError: SerialPortError)
      requires Valid() && link.serialPort.Port?
      modifies this, link, link.timers
      ensures Valid()
      ensures |data| > 0 ==>
        && ConnectionUnchanged() && modelIsOk == old(modelIsOk)
        && var buff := old(rxBuff) + data;
           if old(request) != IDN && |buff| >= old(answerExpectedLen) then
             Cleared() && signals == old(signals) + [Answer(old(request), buff)]
           else
             && rxBuff == buff && request == old(request) && timerId == old(timerId) && signals == old(signals)
             && TimersUnchanged()
      ensures |data| == 0 && portError == NoError ==>
        EngineUnchanged() && ConnectionUnchanged() && TimersUnchanged()
      ensures |data| == 0 && portError != NoError ==>
        && !modelIsOk && request == None && rxBuff == [] && timerId == -1 && signals == old(signals)
        && link.serialPort == Null && link.lastError == portError
        && link.signals == old(link.signals) + [SerialPortClosed(old(link.serialPort).portName)]
        && link.reconnectAttemptsCount == 0 && link.written == old(link.written)
        && link.timers.active == map[link.reconnectTimerId := 0]
    {
      var hook := link.ReadyRead(data, portError);
      if hook.DataArrived? {
        DataArrived(hook.data);
      } else if hook.PortClosed? {
        assert timerId != link.reconnectTimerId;
        PortClosed();
        assert forall k :: k in link.timers.active <==> k == link.reconnectTimerId;
        assert link.timers.active.Keys == {link.reconnectTimerId};
      }
    }

    /** The link's errorOccurred slot, with the engine's portClosed hook run. */
    method ErrorOccurred(error: SerialPortError)
      requires Valid()
      modifies this, link, link.timers
      ensures Valid()
      ensures error == NoError ==>
        EngineUnchanged() && ConnectionUnchanged() && TimersUnchanged()
      ensures error != NoError ==>
        && !modelIsOk && request == None && rxBuff == [] && timerId == -1 && signals == old(signals)
        && link.serialPort == Null
        && (old(link.serialPort).Port? ==>
              link.lastError == error && link.signals == old(link.signals) + [SerialPortClosed(old(link.serialPort).portName)])
        && (old(link.serialPort).Null? ==> link.lastError == old(link.lastError) && link.signals == old(link.signals))
        && link.reconnectAttemptsCount == 0 && link.written == old(link.written)
        && link.timers.active == map[link.reconnectTimerId := 0]
    {
      var hook := link.ErrorOccurred(error);
      if hook.PortClosed? {
        assert timerId != link.reconnectTimerId;
        PortClosed();
        assert forall k :: k in link.timers.active <==> k == link.reconnectTimerId;
        assert link.timers.active.Keys == {link.reconnectTimerId};
      }
    }
  }
}
