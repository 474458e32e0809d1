/**
 * The serial link layer (SerialPortClass, src/SerialPortClass.h and src/SerialPortClass.cpp):
 * it finds the power supply among the host's serial ports by USB vendor and product id,
 * opens it with fixed line parameters, notices I/O errors, and while no port is open
 * re-runs the search on a reconnect timer whose interval backs off from 0 ms to
 * 1000 ms to 1500 ms.
 *
 * The host is replaced by inputs: the enumerated port list, the outcome of an open
 * attempt, the octets a read returns and the error the port reports. The three hooks
 * the layer above supplies (portOpened, portClosed, dataArrived) are returned as a
 * Hook value for the caller to run.
 */
module SerialPort {
  import opened Bytes
  import opened Timers
  import opened SerialText

  // ---------------------------------------------------------------------------
  // Constants
  // ---------------------------------------------------------------------------

  /** Search interval of the fast phase, in ms. */
  const ComPortFindStartInterval: nat := 1000
  /** Number of searches after which the slow phase begins. */
  const ComPortFindStartAttempts: int := 5
  /** Search interval of the slow phase, in ms. */
  const ComPortFindInterval: nat := 1500

  /** Default line parameters: 9600 baud, 8 data bits, no parity, one stop bit. */
  const DefaultBaud: nat := 9600
  const DefaultDataBits: DataBits := Data8
  const DefaultParity: Parity := NoParity
  const DefaultStopBits: StopBits := OneStop

  // ---------------------------------------------------------------------------
  // Data model
  // ---------------------------------------------------------------------------

  /** QSerialPort::SerialPortError. */
  datatype SerialPortError =
    | NoError | DeviceNotFoundError | PermissionError | OpenError | ParityError
    | FramingError | BreakConditionError | WriteError | ReadError | ResourceError
    | UnsupportedOperationError | UnknownError | TimeoutError | NotOpenError

  /** A USB vendor id and product id pair to search for. */
  datatype VidPid = VidPid(vendorId: int, productId: int)

  /** What QSerialPortInfo::availablePorts reports about one port. */
  datatype PortInfo = PortInfo(
    portName: string,
    isBusy: bool,
    hasVendorIdentifier: bool,
    vendorIdentifier: int,
    hasProductIdentifier: bool,
    productIdentifier: int)

  /** The _serialPort pointer: null, or a QSerialPort object with its name, open flag and current error. */
  datatype PortHandle =
    | Null
    | Port(portName: string, isOpen: bool, error: SerialPortError)

  /** The signals the link emits. */
  datatype LinkSignal = SerialPortOpened(portName: string) | SerialPortClosed(portName: string)

  /** A pure-virtual hook the link invokes on the layer above. */
  datatype Hook = NoHook | PortOpened | PortClosed | DataArrived(data: seq<byte>)

  // ---------------------------------------------------------------------------
  // Back-off schedule (processReconnectTimer)
  // ---------------------------------------------------------------------------

  /** The counter after one more failed search: it counts up to 6 and stays there. */
  function NextAttemptsCount(count: int): (next: int)
    requires 0 <= count <= ComPortFindStartAttempts + 1
    ensures count <= next <= ComPortFindStartAttempts + 1
    ensures next == count <==> count == ComPortFindStartAttempts + 1
  {
    if count == ComPortFindStartAttempts + 1 then count else count + 1
  }

  /** A failed search re-arms the reconnect timer when the counter leaves 0 and when it leaves 5. */
  predicate Rearms(count: int)
  {
    count == 0 || count == ComPortFindStartAttempts
  }

  /** The interval of the reconnect timer while the counter holds a given value. */
  function ReconnectInterval(count: int): nat
  {
    if count == 0 then 0
    else if count <= ComPortFindStartAttempts then ComPortFindStartInterval
    else ComPortFindInterval
  }

  /** The counter after a number of failed searches from a fresh start. */
  function AttemptsAfter(failures: nat): (count: int)
    ensures 0 <= count <= ComPortFindStartAttempts + 1
  {
    if failures == 0 then 0 else NextAttemptsCount(AttemptsAfter(failures - 1))
  }

  function Min(a: int, b: int): int
  {
    if a <= b then a else b
  }

  /**
   * The schedule of a device that stays absent: after k failed searches the counter is
   * min(k, 6); the timer runs at 0 ms before the first failure, at 1000 ms after the
   * first five, and at 1500 ms from the sixth on.
   */
  lemma {:induction false} BackoffSchedule(failures: nat)
    ensures AttemptsAfter(failures) == Min(failures, ComPortFindStartAttempts + 1)
    ensures ReconnectInterval(AttemptsAfter(failures)) ==
      if failures == 0 then 0
      else if failures <= 5 then ComPortFindStartInterval
      else ComPortFindInterval
  {
    if failures > 0 {
      BackoffSchedule(failures - 1);
    }
  }

  // ---------------------------------------------------------------------------
  // Port discovery (tryFindComPort)
  // ---------------------------------------------------------------------------

  /** A port qualifies when it is not busy, reports both USB ids, and the pair is listed. */
  predicate Matches(info: PortInfo, vidPid: seq<VidPid>)
  {
    && !info.isBusy
    && info.hasVendorIdentifier
    && info.hasProductIdentifier
    && VidPid(info.vendorIdentifier, info.productIdentifier) in vidPid
  }

  /** The position of the first qualifying port in enumeration order, |ports| when there is none. */
  function FirstMatching(ports: seq<PortInfo>, vidPid: seq<VidPid>): (k: nat)
    ensures k <= |ports|
    ensures k < |ports| ==> Matches(ports[k], vidPid)
    ensures forall j :: 0 <= j < k ==> !Matches(ports[j], vidPid)
  {
    if ports == [] then 0
    else if Matches(ports[0], vidPid) then 0
    else 1 + FirstMatching(ports[1..], vidPid)
  }

  /**
   * tryFindComPort: the name of the port to open, "" when none is found. With no
   * VID:PID pairs configured the fixed port name is returned as it is; otherwise the
   * first enumerated port that qualifies wins.
   */
  function TryFindComPort(vidPid: seq<VidPid>, fixedName: string, ports: seq<PortInfo>): (found: string)
    ensures vidPid == [] ==> found == fixedName
    ensures vidPid != [] ==>
      forall k :: 0 <= k < |ports| && Matches(ports[k], vidPid) && (forall j :: 0 <= j < k ==> !Matches(ports[j], vidPid))
        ==> found == ports[k].portName
    ensures vidPid != [] && (forall k :: 0 <= k < |ports| ==> !Matches(ports[k], vidPid)) ==> found == ""
    ensures vidPid != [] && found != "" ==> exists k :: 0 <= k < |ports| && Matches(ports[k], vidPid) && found == ports[k].portName
  {
    if vidPid == [] then fixedName
    else
      var k := FirstMatching(ports, vidPid);
      if k < |ports| then ports[k].portName else ""
  }

  // ---------------------------------------------------------------------------
  // The link
  // ---------------------------------------------------------------------------

  class Link {
    const baud: nat
    const dataBits: DataBits
    const parity: Parity
    const stopBits: StopBits
    /** The VID:PID pairs to search for; empty means "open portName". */
    const vidPid: seq<VidPid>
    /** The fixed port name used when vidPid is empty. */
    const portName: string
    /** The timers of the object (reconnect timer, and the answer timer of the layer above). */
    const timers: TimerSet

    var serialPort: PortHandle
    /** -1: no reconnect timer; otherwise the id of the armed reconnect timer. */
    var reconnectTimerId: int
    var reconnectAttemptsCount: int
    /** The last error seen; a repeated open error is not logged again. */
    var lastError: SerialPortError
    /** serialPortOpened and serialPortClosed, in emission order. */
    var signals: seq<LinkSignal>
    /** Every octet string written to the port, in order. */
    var written: seq<seq<byte>>

    predicate IsOpen()
      reads this
    {
      serialPort.Port? && serialPort.isOpen
    }

    /**
     * The reconnect state: the counter stays within 0..6; an armed reconnect timer is live
     * and runs at the interval its counter selects; no timer means counter 0; and the
     * search never runs while a port is open.
     */
    ghost predicate Valid()
      reads this, timers
    {
      && timers.Valid()
      && 0 <= reconnectAttemptsCount <= ComPortFindStartAttempts + 1
      && (reconnectTimerId == -1 ==> reconnectAttemptsCount == 0)
      && (reconnectTimerId != -1 ==>
            reconnectTimerId in timers.active
            && timers.active[reconnectTimerId] == ReconnectInterval(reconnectAttemptsCount))
      && (IsOpen() ==> reconnectTimerId == -1)
    }

    /** Nothing about the connection or the search changed. */
    twostate predicate LinkUnchanged()
      reads this, timers
    {
      && serialPort == old(serialPort)
      && reconnectTimerId == old(reconnectTimerId)
      && reconnectAttemptsCount == old(reconnectAttemptsCount)
      && lastError == old(lastError)
      && signals == old(signals)
      && written == old(written)
      && timers.active == old(timers.active)
      && timers.nextId == old(timers.nextId)
    }

    /** One step of processReconnectTimer happened to the counter and the reconnect timer. */
    twostate predicate BackedOff()
      reads this, timers
    {
      && 0 <= old(reconnectAttemptsCount) <= ComPortFindStartAttempts + 1
      && reconnectAttemptsCount == NextAttemptsCount(old(reconnectAttemptsCount))
      && if Rearms(old(reconnectAttemptsCount)) then
           && reconnectTimerId == old(timers.nextId)
           && timers.active == (old(timers.active) - {old(reconnectTimerId)})[reconnectTimerId := ReconnectInterval(reconnectAttemptsCount)]
           && timers.nextId == old(timers.nextId) + 1
         else
           && reconnectTimerId == old(reconnectTimerId)
           && timers.active == old(timers.active)
           && timers.nextId == old(timers.nextId)
    }

    /** The port is closed and a fresh search is scheduled at 0 ms with the counter back at 0. */
    twostate predicate RestartedDiscovery()
      reads this, timers
    {
      && serialPort == Null
      && reconnectAttemptsCount == 0
      && reconnectTimerId == old(timers.nextId)
      && timers.active == (old(timers.active) - {old(reconnectTimerId)})[reconnectTimerId := 0]
      && timers.nextId == old(timers.nextId) + 1
      && written == old(written)
    }

    /** What closeSerialPort(true) records: the closed port's error and a serialPortClosed signal, when there was a port. */
    twostate predicate RecordedClose()
      reads this
    {
      if old(serialPort).Port? then
        lastError == old(serialPort).error && signals == old(signals) + [SerialPortClosed(old(serialPort).portName)]
      else
        lastError == old(lastError) && signals == old(signals)
    }

    /** What a failed open leaves behind: a new error is recorded and the handle dropped; a repeated one keeps the unopened handle. */
    twostate predicate OpenFailed(name: string, openError: SerialPortError)
      reads this
    {
      if openError != old(lastError) then
        lastError == openError && serialPort == Null
      else
        lastError == old(lastError) && serialPort == Port(name, false, openError)
    }

    /**
     * The constructor: default line parameters, no port, and a reconnect timer at 0 ms so
     * that the search starts at once.
     */
    constructor (vidPid: seq<VidPid>, portName: string)
      ensures Valid() && fresh(timers)
      ensures this.vidPid == vidPid && this.portName == portName
      ensures baud == DefaultBaud && dataBits == DefaultDataBits && parity == DefaultParity && stopBits == DefaultStopBits
      ensures serialPort == Null && lastError == NoError && signals == [] && written == []
      ensures reconnectAttemptsCount == 0 && reconnectTimerId == 1
      ensures timers.active == map[1 := 0] && timers.nextId == 2
    {
      var t := new TimerSet();
      var id := t.Start(0);
      this.vidPid := vidPid;
      this.portName := portName;
      baud, dataBits, parity, stopBits := DefaultBaud, DefaultDataBits, DefaultParity, DefaultStopBits;
      timers := t;
      serialPort := Null;
      reconnectTimerId := id;
      reconnectAttemptsCount := 0;
      lastError := NoError;
      signals := [];
      written := [];
    }

    /**
     * processReconnectTimer: one failed search. 0 -> 1 re-arms the timer at 1000 ms,
     * 1..4 only count, 5 -> 6 re-arms it at 1500 ms (the source falls through from case 5
     * into case 6), and 6 stays 6.
     */
    method ProcessReconnectTimer()
      requires Valid() && !IsOpen()
      modifies this, timers
      ensures Valid() && BackedOff()
      ensures old(reconnectAttemptsCount) <= reconnectAttemptsCount
      ensures serialPort == old(serialPort) && lastError == old(lastError)
      ensures signals == old(signals) && written == old(written)
    {
      if reconnectAttemptsCount == 0 {
        reconnectAttemptsCount := 1;
        timers.Kill(reconnectTimerId);
        reconnectTimerId := timers.Start(ComPortFindStartInterval);
      } else if reconnectAttemptsCount == ComPortFindStartAttempts {
        reconnectAttemptsCount := reconnectAttemptsCount + 1;
        timers.Kill(reconnectTimerId);
        reconnectTimerId := timers.Start(ComPortFindInterval);
      } else if reconnectAttemptsCount == ComPortFindStartAttempts + 1 {
        // counting has stopped
      } else {
        reconnectAttemptsCount := reconnectAttemptsCount + 1;
      }
    }

    /**
     * openSerialPort: replaces the handle by a new one for the named port and opens it.
     * On success it returns true, runs portOpened and emits serialPortOpened. On failure it
     * returns false; only an error different from the last one is recorded (and logged),
     * and only then is the handle dropped.
     */
    method OpenSerialPort(name: string, openError: SerialPortError) returns (ok: bool, hook: Hook)
      modifies this
      ensures ok <==> openError == NoError
      ensures ok ==> && serialPort == Port(name, true, NoError)
                     && lastError == old(lastError)
                     && signals == old(signals) + [SerialPortOpened(name)]
                     && hook == PortOpened
      ensures !ok ==> OpenFailed(name, openError) && signals == old(signals) && hook == NoHook
      ensures reconnectTimerId == old(reconnectTimerId) && reconnectAttemptsCount == old(reconnectAttemptsCount)
      ensures written == old(written)
    {
      if serialPort.Port? {
        serialPort := serialPort.(isOpen := false);
      }
      serialPort := Port(name, openError == NoError, openError);
      if openError != NoError {
        if openError != lastError {
          lastError := openError;
          serialPort := Null;
        }
        return false, NoHook;
      }
      signals := signals + [SerialPortOpened(name)];
      return true, PortOpened;
    }

    /**
     * closeSerialPort: records the port's error as the last error, closes and drops the
     * handle and, when asked to, emits serialPortClosed. portClosed runs whenever signals
     * are asked for, whether or not there was a port.
     */
    method CloseSerialPort(emitSignals: bool) returns (hook: Hook)
      requires Valid()
      modifies this
      ensures Valid()
      ensures serialPort == Null
      ensures old(serialPort).Port? ==> lastError == old(serialPort).error
      ensures old(serialPort).Null? ==> lastError == old(lastError)
      ensures signals == old(signals) + (if emitSignals && old(serialPort).Port? then [SerialPortClosed(old(serialPort).portName)] else [])
      ensures hook == if emitSignals then PortClosed else NoHook
      ensures reconnectTimerId == old(reconnectTimerId) && reconnectAttemptsCount == old(reconnectAttemptsCount)
      ensures written == old(written)
    {
      if serialPort.Port? {
        var closedName := serialPort.portName;
        lastError := serialPort.error;
        serialPort := Null;
        if emitSignals {
          signals := signals + [SerialPortClosed(closedName)];
        }
      }
      hook := if emitSignals then PortClosed else NoHook;
    }

    /** closeSerialPortAndReconnect: closes with signals, then restarts the search at 0 ms with the counter at 0. */
    method CloseSerialPortAndReconnect() returns (hook: Hook)
      requires Valid()
      modifies this, timers
      ensures Valid() && RestartedDiscovery() && RecordedClose()
      ensures hook == PortClosed
    {
      hook := CloseSerialPort(true);
      if reconnectTimerId >= 0 {
        timers.Kill(reconnectTimerId);
      }
      reconnectAttemptsCount := 0;
      reconnectTimerId := timers.Start(0);
    }

    /**
     * _serialPort_readyRead, given what readAll returned and the error the port reports:
     * octets go up to dataArrived unchanged; an empty read with an error closes the port
     * and restarts the search; an empty read without one changes nothing.
     */
    method ReadyRead(data: seq<byte>, portError: SerialPortError) returns (hook: Hook)
      requires Valid() && serialPort.Port?
      modifies this, timers
      ensures Valid()
      ensures |data| > 0 ==> hook == DataArrived(data) && LinkUnchanged()
      ensures |data| == 0 && portError == NoError ==> hook == NoHook && LinkUnchanged()
      ensures |data| == 0 && portError != NoError ==>
        && hook == PortClosed
        && RestartedDiscovery()
        && lastError == portError
        && signals == old(signals) + [SerialPortClosed(old(serialPort).portName)]
    {
      if |data| == 0 {
        if portError != NoError {
          serialPort := serialPort.(error := portError);
          hook := CloseSerialPortAndReconnect();
        } else {
          hook := NoHook;
        }
      } else {
        hook := DataArrived(data);
      }
    }

    /** _serialPort_errorOccurred: any error other than NoError closes the port and restarts the search. */
    method ErrorOccurred(error: SerialPortError) returns (hook: Hook)
      requires Valid()
      modifies this, timers
      ensures Valid()
      ensures error == NoError ==> hook == NoHook && LinkUnchanged()
      ensures error != NoError ==>
        && hook == PortClosed
        && RestartedDiscovery()
        && (old(serialPort).Port? ==> lastError == error && signals == old(signals) + [SerialPortClosed(old(serialPort).portName)])
        && (old(serialPort).Null? ==> lastError == old(lastError) && signals == old(signals))
    {
      if error != NoError {
        if serialPort.Port? {
          serialPort := serialPort.(error := error);
        }
        hook := CloseSerialPortAndReconnect();
      } else {
        hook := NoHook;
      }
    }

    /**
     * timerEvent: a tick of the reconnect timer searches for the port. Found and opened:
     * the reconnect timer is killed, its id becomes -1 and the counter 0. Not found, or
     * not opened: one back-off step. Any other timer id is killed and otherwise ignored.
     */
    method TimerEvent(id: int, ports: seq<PortInfo>, openError: SerialPortError) returns (hook: Hook)
      requires Valid() && id > 0
      modifies this, timers
      ensures Valid() && written == old(written)
      ensures id != old(reconnectTimerId) ==>
        && hook == NoHook
        && timers.active == old(timers.active) - {id} && timers.nextId == old(timers.nextId)
        && serialPort == old(serialPort) && lastError == old(lastError) && signals == old(signals)
        && reconnectTimerId == old(reconnectTimerId) && reconnectAttemptsCount == old(reconnectAttemptsCount)
      ensures id == old(reconnectTimerId) ==>
        var found := TryFindComPort(vidPid, portName, ports);
        if found != "" && openError == NoError then
          && hook == PortOpened
          && serialPort == Port(found, true, NoError) && lastError == old(lastError)
          && signals == old(signals) + [SerialPortOpened(found)]
          && reconnectTimerId == -1 && reconnectAttemptsCount == 0
          && timers.active == old(timers.active) - {old(reconnectTimerId)} && timers.nextId == old(timers.nextId)
        else
          && hook == NoHook
          && BackedOff()
          && signals == old(signals)
          && (found == "" ==> serialPort == old(serialPort) && lastError == old(lastError))
          && (found != "" ==> OpenFailed(found, openError))
    {
      if id == reconnectTimerId {
        var found := TryFindComPort(vidPid, portName, ports);
        if found != "" {
          var ok;
          ok, hook := OpenSerialPort(found, openError);
          if ok {
            timers.Kill(reconnectTimerId);
            reconnectTimerId := -1;
            reconnectAttemptsCount := 0;
          } else {
            ProcessReconnectTimer();
          }
        } else {
          hook := NoHook;
          ProcessReconnectTimer();
        }
      } else {
        hook := NoHook;
        timers.Kill(id);
      }
    }

    /** QSerialPort::write on the open port. */
    method Write(data: seq<byte>)
      requires IsOpen()
      modifies this
      ensures written == old(written) + [data]
      ensures serialPort == old(serialPort) && lastError == old(lastError) && signals == old(signals)
      ensures reconnectTimerId == old(reconnectTimerId) && reconnectAttemptsCount == old(reconnectAttemptsCount)
    {
      written := written + [data];
    }
  }

  /**
   * A device that stays absent: a fresh link whose reconnect timer fires a number of
   * times without finding a port ends with the counter at min(k, 6) and the reconnect
   * timer armed at 0, 1000 or 1500 ms as the schedule says.
   */
  method PersistentAbsence(failedTicks: nat) returns (count: int, interval: nat)
    ensures count == Min(failedTicks, ComPortFindStartAttempts + 1)
    ensures interval == if failedTicks == 0 then 0 else if failedTicks <= 5 then ComPortFindStartInterval else ComPortFindInterval
  {
    var link := new Link([VidPid(0x0416, 0x5011)], "");
    var i := 0;
    while i < failedTicks
      invariant 0 <= i <= failedTicks
      invariant fresh(link) && fresh(link.timers)
      invariant link.Valid() && link.vidPid != [] && !link.IsOpen()
      invariant link.reconnectTimerId > 0
      invariant link.reconnectAttemptsCount == AttemptsAfter(i)
    {
      var hook := link.TimerEvent(link.reconnectTimerId, [], NoError);
      i := i + 1;
    }
    BackoffSchedule(failedTicks);
    count := link.reconnectAttemptsCount;
    interval := link.timers.active[link.reconnectTimerId];
  }
}
