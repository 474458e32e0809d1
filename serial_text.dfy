/**
 * The text helpers of the serial link layer (src/SerialPortClass.cpp): the escaper
 * that renders received and sent octets for the traffic log, and the "8N1" notation
 * for the line parameters (data bits, parity, stop bits) with its formatter and parser.
 */
module SerialText {
  import opened Bytes

  // ---------------------------------------------------------------------------
  // Escaping octets for the traffic log (_toEscapedCString)
  // ---------------------------------------------------------------------------

  /** Octets 0x20..0x7E are copied verbatim. */
  predicate IsPrintable(b: int)
  {
    0x20 <= b <= 0x7E
  }

  predicate IsUpperHexDigit(c: char)
  {
    '0' <= c <= '9' || 'A' <= c <= 'F'
  }

  /** One upper-case hexadecimal digit, as QByteArray::toHex().toUpper() writes it. */
  function HexDigit(d: int): (c: char)
    requires 0 <= d < 16
    ensures IsUpperHexDigit(c)
  {
    if d < 10 then ('0' as int + d) as char else ('A' as int + (d - 10)) as char
  }

  function HexValue(c: char): (d: int)
    requires IsUpperHexDigit(c)
  {
    if c <= '9' then c as int - '0' as int else c as int - 'A' as int + 10
  }

  /**
   * The text one octet becomes: the eight named control octets become a C escape,
   * printable ASCII stays itself, every other octet becomes \x and two hex digits.
   */
  function EscapeByte(b: byte): (r: string)
    ensures 1 <= |r| <= 4
  {
    match b
    case 0 => "\\0"
    case 7 => "\\a"
    case 8 => "\\b"
    case 9 => "\\t"
    case 10 => "\\n"
    case 11 => "\\v"
    case 12 => "\\f"
    case 13 => "\\r"
    case _ => if IsPrintable(b) then [b as char] else "\\x" + [HexDigit(b / 16), HexDigit(b % 16)]
  }

  /**
   * The escaped rendering of a whole buffer: each octet is rendered on its own, in order,
   * as one to four characters.
   */
  function Escaped(buff: seq<byte>): (r: string)
    ensures |buff| <= |r| <= 4 * |buff|
  {
    if buff == [] then "" else EscapeByte(buff[0]) + Escaped(buff[1..])
  }

  /** _toEscapedCString: appends the rendering of each octet to the result, one at a time. */
  method ToEscapedCString(buff: seq<byte>) returns (ret: string)
    ensures ret == Escaped(buff)
  {
    ret := "";
    var i := 0;
    while i < |buff|
      invariant 0 <= i <= |buff|
      invariant ret == Escaped(buff[..i])
    {
      var ch := buff[i];
      ghost var before := ret;
      match ch {
        case 0 => ret := ret + "\\0";
        case 7 => ret := ret + "\\a";
        case 8 => ret := ret + "\\b";
        case 9 => ret := ret + "\\t";
        case 10 => ret := ret + "\\n";
        case 11 => ret := ret + "\\v";
        case 12 => ret := ret + "\\f";
        case 13 => ret := ret + "\\r";
        case _ =>
          if ch < 0x20 || ch > 0x7E {
            ret := ret + "\\x" + [HexDigit(ch / 16), HexDigit(ch % 16)];
          } else {
            ret := ret + [ch as char];
          }
      }
      assert ret == before + EscapeByte(ch);
      assert buff[..i + 1] == buff[..i] + [ch];
      EscapedSnoc(buff[..i], ch);
      i := i + 1;
    }
    assert buff[..i] == buff;
  }

  /** The result of reading back the rendering of one octet. */
  datatype Unescaped = NotAnEscape | Octet(value: byte)

  /** Reads back the text EscapeByte produces for one octet. */
  function UnescapeOne(s: string): Unescaped
  {
    if |s| == 1 && IsPrintable(s[0] as int) then Octet(s[0] as int)
    else if |s| == 2 && s[0] == '\\' then
      match s[1]
      case '0' => Octet(0)
      case 'a' => Octet(7)
      case 'b' => Octet(8)
      case 't' => Octet(9)
      case 'n' => Octet(10)
      case 'v' => Octet(11)
      case 'f' => Octet(12)
      case 'r' => Octet(13)
      case _ => NotAnEscape
    else if |s| == 4 && s[0] == '\\' && s[1] == 'x' && IsUpperHexDigit(s[2]) && IsUpperHexDigit(s[3]) then
      Octet(HexValue(s[2]) * 16 + HexValue(s[3]))
    else NotAnEscape
  }

  lemma HexDigitValue(d: int)
    requires 0 <= d < 16
    ensures HexValue(HexDigit(d)) == d
  {
  }

  /** The rendering of a single octet loses nothing: it can be read back exactly. */
  lemma UnescapeEscapeByte(b: byte)
    ensures UnescapeOne(EscapeByte(b)) == Octet(b)
  {
    if b !in {0, 7, 8, 9, 10, 11, 12, 13} && !IsPrintable(b) {
      HexDigitValue(b / 16);
      HexDigitValue(b % 16);
    }
  }

  /** Escaping maps each octet independently: the rendering of a concatenation is the concatenation of the renderings. */
  lemma {:induction false} EscapedAppend(a: seq<byte>, b: seq<byte>)
    ensures Escaped(a + b) == Escaped(a) + Escaped(b)
  {
    if a == [] {
      assert a + b == b;
    } else {
      assert (a + b)[0] == a[0];
      assert (a + b)[1..] == a[1..] + b;
      EscapedAppend(a[1..], b);
    }
  }

  /**
   * One octet's rendering is printable ASCII: a printable octet is itself, a named
   * control octet a backslash and a letter or '0', any other octet a backslash, 'x'
   * and two upper-case hex digits.
   */
  lemma EscapeByteIsPrintable(b: byte)
    ensures forall i :: 0 <= i < |EscapeByte(b)| ==> IsPrintable(EscapeByte(b)[i] as int)
    ensures IsPrintable(b) ==> EscapeByte(b) == [b as char]
    ensures b in {0, 7, 8, 9, 10, 11, 12, 13} ==> |EscapeByte(b)| == 2 && EscapeByte(b)[0] == '\\'
    ensures !IsPrintable(b) && b !in {0, 7, 8, 9, 10, 11, 12, 13} ==>
      var r := EscapeByte(b);
      |r| == 4 && r[..2] == "\\x" && IsUpperHexDigit(r[2]) && IsUpperHexDigit(r[3])
  {
  }

  /** Rendering one more octet appends its rendering. */
  lemma EscapedSnoc(a: seq<byte>, b: byte)
    ensures Escaped(a + [b]) == Escaped(a) + EscapeByte(b)
  {
    EscapedAppend(a, [b]);
    assert Escaped([b]) == EscapeByte(b) + Escaped([]);
  }

  /** The rendering consists of printable ASCII only. */
  lemma {:induction false} EscapedIsPrintable(buff: seq<byte>)
    ensures forall i :: 0 <= i < |Escaped(buff)| ==> IsPrintable(Escaped(buff)[i] as int)
  {
    if buff != [] {
      EscapedIsPrintable(buff[1..]);
      EscapeByteIsPrintable(buff[0]);
    }
  }

  /**
   * The backslash octet 0x5C is printable and copied without escaping, so the
   * rendering of a whole buffer cannot always be read back: two different
   * buffers render to the same text "\0".
   */
  lemma EscapedIsNotInjective()
    ensures var backslashZero: seq<byte>, nul: seq<byte> := [0x5C, 0x30], [0];
      backslashZero != nul && Escaped(backslashZero) == Escaped(nul) == "\\0"
  {
    var backslashZero: seq<byte>, nul: seq<byte> := [0x5C, 0x30], [0];
    assert backslashZero[..1] == [0x5C];
    assert backslashZero[..1][..0] == [];
    assert nul[..0] == [];
  }

  // ---------------------------------------------------------------------------
  // Line parameters: "8N1", "7E2", "8N1.5" (_port::parity, stopBits, parameters, set_parameters)
  // ---------------------------------------------------------------------------

  /** QSerialPort::DataBits. */
  datatype DataBits = Data5 | Data6 | Data7 | Data8 | UnknownDataBits

  /** QSerialPort::Parity. */
  datatype Parity = NoParity | EvenParity | OddParity | SpaceParity | MarkParity | UnknownParity

  /** QSerialPort::StopBits. */
  datatype StopBits = OneStop | OneAndHalfStop | TwoStop | UnknownStopBits

  /** The integer value of the QSerialPort::DataBits enumerator, which QString::arg prints. */
  function DataBitsValue(d: DataBits): int
  {
    match d
    case Data5 => 5
    case Data6 => 6
    case Data7 => 7
    case Data8 => 8
    case UnknownDataBits => -1
  }

  /** _port::parity: the parity letter, a blank for an unknown parity. */
  function ParityLetter(p: Parity): (r: char)
    ensures r == ' ' <==> p == UnknownParity
    ensures p != UnknownParity ==> r in "NEOSM"
  {
    match p
    case NoParity => 'N'
    case EvenParity => 'E'
    case OddParity => 'O'
    case SpaceParity => 'S'
    case MarkParity => 'M'
    case UnknownParity => ' '
  }

  /** _port::stopBits: the stop-bit count as text, a blank for an unknown count. */
  function StopBitsText(s: StopBits): (r: string)
    ensures r in {"1", "1.5", "2"} <==> s != UnknownStopBits
  {
    match s
    case OneStop => "1"
    case OneAndHalfStop => "1.5"
    case TwoStop => "2"
    case UnknownStopBits => " "
  }

  predicate IsDigit(c: char)
  {
    '0' <= c <= '9'
  }

  predicate AllDigits(s: string)
  {
    forall i :: 0 <= i < |s| ==> IsDigit(s[i])
  }

  /** QString::arg of a non-negative integer: its decimal digits. */
  function NatToDecimal(n: nat): (s: string)
    ensures |s| >= 1 && AllDigits(s)
  {
    if n < 10 then [('0' as int + n) as char]
    else NatToDecimal(n / 10) + [('0' as int + n % 10) as char]
  }

  /** QString::arg of any integer: a minus sign before the digits of a negative one. */
  function IntToDecimal(n: int): string
  {
    if n < 0 then "-" + NatToDecimal(-n) else NatToDecimal(n)
  }

  /** Line parameters that QSerialPort reports as set, none of them unknown. */
  predicate KnownLineParameters(d: DataBits, p: Parity, s: StopBits)
  {
    d != UnknownDataBits && p != UnknownParity && s != UnknownStopBits
  }

  /**
   * What _port::parameters writes after the baud rate and its blank, e.g. "8N1". Every
   * known combination of line parameters is formatted into a text set_parameters accepts.
   */
  function LineSuffix(d: DataBits, p: Parity, s: StopBits): (r: string)
    ensures KnownLineParameters(d, p, s) ==> WellFormedLineParameters(r)
  {
    var t := IntToDecimal(DataBitsValue(d)) + [ParityLetter(p)] + StopBitsText(s);
    assert t[0] == IntToDecimal(DataBitsValue(d))[0];
    assert KnownLineParameters(d, p, s) ==> t[1] == ParityLetter(p) && t[2..] == StopBitsText(s);
    t
  }

  /**
   * _port::parameters: "%1 %2%3%4" of baud rate, data bits, parity letter and stop bits,
   * e.g. "9600 8N1": the baud rate's digits, then after the first blank the line suffix.
   */
  function Parameters(baud: nat, d: DataBits, p: Parity, s: StopBits): (r: string)
    ensures var digits := NatToDecimal(baud);
      |r| > |digits| && r[..|digits|] == digits && r[|digits|] == ' '
    ensures |r| > 0 && IsDigit(r[0])
    ensures AfterFirstBlank(r) == LineSuffix(d, p, s)
  {
    AfterFirstBlankOfJoin(NatToDecimal(baud), LineSuffix(d, p, s));
    NatToDecimal(baud) + " " + LineSuffix(d, p, s)
  }

  /** The text after the first blank of a string (all of it when there is none). */
  function AfterFirstBlank(t: string): string
  {
    if t == [] then [] else if t[0] == ' ' then t[1..] else AfterFirstBlank(t[1..])
  }

  lemma {:induction false} AfterFirstBlankOfJoin(x: string, y: string)
    requires AllDigits(x)
    ensures AfterFirstBlank(x + " " + y) == y
  {
    if x != [] {
      assert (x + " " + y)[1..] == x[1..] + " " + y;
      AfterFirstBlankOfJoin(x[1..], y);
    } else {
      assert (x + " " + y)[1..] == y;
    }
  }

  /** The strings set_parameters accepts: a data-bit digit 5..8, a parity letter, and "1", "2" or "1.5", nothing more. */
  predicate WellFormedLineParameters(s: string)
  {
    |s| >= 3 && s[0] in "5678" && s[1] in "NEOSM" && s[2..] in {"1", "2", "1.5"}
  }

  /** set_parameters writes the data bits once the first character has been recognised ... */
  predicate DataBitsWritten(s: string)
  {
    |s| >= 3 && s[0] in "5678"
  }

  /** ... and the parity once the second has been recognised too. */
  predicate ParityWritten(s: string)
  {
    DataBitsWritten(s) && s[1] in "NEOSM"
  }

  /** The stop-bit field, read character by character as set_parameters reads it. */
  lemma StopBitsFieldShape(s: string)
    requires |s| >= 3
    ensures s[2..] in {"1", "2", "1.5"} <==>
      (s[2] == '2' && |s| == 3) || (s[2] == '1' && (|s| == 3 || (|s| == 5 && s[3] == '.' && s[4] == '5')))
  {
    var field := s[2..];
    assert |"1"| == 1 && |"2"| == 1 && |"1.5"| == 3;
    if |s| == 3 {
      assert field == [s[2]];
    } else if |s| == 5 {
      assert field == [s[2], s[3], s[4]];
    } else {
      assert |field| != 1 && |field| != 3;
    }
  }

  /**
   * _port::set_parameters: parses "DPS" notation into the three out-pointers. The
   * in-parameters are the values the pointers held before the call; a field that was
   * written before a later field failed to parse stays written.
   */
  method SetParameters(parameters: string, dataBits: DataBits, parity: Parity, stopBits: StopBits)
    returns (ok: bool, newDataBits: DataBits, newParity: Parity, newStopBits: StopBits)
    ensures ok <==> WellFormedLineParameters(parameters)
    ensures ok ==> LineSuffix(newDataBits, newParity, newStopBits) == parameters
    ensures DataBitsWritten(parameters) ==> IntToDecimal(DataBitsValue(newDataBits)) == parameters[..1]
    ensures !DataBitsWritten(parameters) ==> newDataBits == dataBits
    ensures ParityWritten(parameters) ==> ParityLetter(newParity) == parameters[1]
    ensures !ParityWritten(parameters) ==> newParity == parity
    ensures ok ==> StopBitsText(newStopBits) == parameters[2..]
    ensures !ok ==> newStopBits == stopBits
  {
    newDataBits, newParity, newStopBits := dataBits, parity, stopBits;
    if |parameters| < 3 {
      return false, newDataBits, newParity, newStopBits;
    }
    StopBitsFieldShape(parameters);

    match parameters[0] {
      case '5' => newDataBits := Data5;
      case '6' => newDataBits := Data6;
      case '7' => newDataBits := Data7;
      case '8' => newDataBits := Data8;
      case _ => return false, newDataBits, newParity, newStopBits;
    }

    match parameters[1] {
      case 'N' => newParity := NoParity;
      case 'E' => newParity := EvenParity;
      case 'O' => newParity := OddParity;
      case 'S' => newParity := SpaceParity;
      case 'M' => newParity := MarkParity;
      case _ => return false, newDataBits, newParity, newStopBits;
    }

    match parameters[2] {
      case '2' =>
        if |parameters| != 3 {
          return false, newDataBits, newParity, newStopBits;
        }
        newStopBits := TwoStop;
      case '1' =>
        if |parameters| == 3 {
          newStopBits := OneStop;
        } else if |parameters| != 5 || parameters[3] != '.' || parameters[4] != '5' {
          return false, newDataBits, newParity, newStopBits;
        } else {
          newStopBits := OneAndHalfStop;
        }
      case _ => return false, newDataBits, newParity, newStopBits;
    }

    ok := true;
    assert parameters == [parameters[0]] + [parameters[1]] + parameters[2..];
  }

  /**
   * Round trip of the line notation: what _port::parameters writes after the baud rate,
   * fed to set_parameters, is accepted and yields the same data bits, parity and stop bits,
   * whatever the out-pointers held before.
   */
  method ParametersRoundTrip(baud: nat, d: DataBits, p: Parity, s: StopBits,
                             priorDataBits: DataBits, priorParity: Parity, priorStopBits: StopBits)
    returns (ok: bool, d': DataBits, p': Parity, s': StopBits)
    requires KnownLineParameters(d, p, s)
    ensures ok && d' == d && p' == p && s' == s
  {
    var suffix := AfterFirstBlank(Parameters(baud, d, p, s));
    ok, d', p', s' := SetParameters(suffix, priorDataBits, priorParity, priorStopBits);
    var t := LineSuffix(d, p, s);
    assert t[..1] == IntToDecimal(DataBitsValue(d));
    assert t[1] == ParityLetter(p);
    assert t[2..] == StopBitsText(s);
  }
}
