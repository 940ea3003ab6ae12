/** The ADL DC power supply driver: a binary request/response protocol over a
    serial link. A request is the address, a function code and four 16-bit
    parameters, big-endian, followed by a CRC-16/MODBUS checksum
    (little-endian) and the terminator 59. A response is 13 payload bytes
    (address, function, three status bytes, four 16-bit data words) followed
    by the checksum of those 13 bytes, little-endian. The driver keeps the
    mode, the three setpoints, the last measured values and the decoded
    status flags. */
module Adl {
  import opened PyBase
  import Bytes

  // ---------------------------------------------------------------------------
  // CRC-16/MODBUS

  const Polynomial: bv16 := 0xA001

  /** n rounds of the shift register: shift right, XOR the reflected polynomial when a one falls out. */
  function CrcShifts(crc: bv16, n: nat): bv16
    decreases n
  {
    if n == 0 then crc
    else CrcShifts(if crc & 1 == 1 then (crc >> 1) ^ Polynomial else crc >> 1, n - 1)
  }

  /** CRC-16/MODBUS (section 6.2.2 of the MODBUS over Serial Line Specification
      V1.02): register starts at 0xFFFF, each byte is XORed into the low byte
      and followed by eight shift rounds. */
  function Crc16Modbus(data: seq<bv8>): bv16
  {
    if |data| == 0 then 0xFFFF
    else CrcShifts(Crc16Modbus(data[..|data| - 1]) ^ (data[|data| - 1] as bv16), 8)
  }

  /** The same checksum taken front to back, one byte at a time from register
      `crc`, the order in which the MODBUS procedure feeds the bytes in. */
  function CrcFold(crc: bv16, data: seq<bv8>): bv16
    decreases |data|
  {
    if |data| == 0 then crc else CrcFold(CrcShifts(crc ^ (data[0] as bv16), 8), data[1..])
  }

  /** The register after a prefix is all the checksum of the rest depends on. */
  lemma {:induction false} CrcSplit(a: seq<bv8>, b: seq<bv8>)
    ensures Crc16Modbus(a + b) == CrcFold(Crc16Modbus(a), b)
    decreases |b|
  {
    if |b| == 0 {
      assert a + b == a;
    } else {
      assert a + b == (a + [b[0]]) + b[1..];
      assert (a + [b[0]])[..|a|] == a;
      CrcSplit(a + [b[0]], b[1..]);
    }
  }

  /** Crc16Modbus agrees with the front-to-back procedure started at 0xFFFF. */
  lemma CrcFrontToBack(data: seq<bv8>)
    ensures Crc16Modbus(data) == CrcFold(0xFFFF, data)
  {
    CrcSplit([], data);
    assert [] + data == data;
  }

  /** struct.pack('<H', c): low byte first. */
  function LittleEndian(c: bv16): (r: seq<bv8>)
    ensures |r| == 2
  {
    [(c & 0xFF) as bv8, (c >> 8) as bv8]
  }

  /** struct.unpack('<H', b)[0]. */
  function FromLittleEndian(lo: bv8, hi: bv8): bv16
  {
    (lo as bv16) | ((hi as bv16) << 8)
  }

  lemma LittleEndianRoundTrip(c: bv16)
    ensures FromLittleEndian(LittleEndian(c)[0], LittleEndian(c)[1]) == c
  {
  }

  lemma FromLittleEndianRoundTrip(lo: bv8, hi: bv8)
    ensures LittleEndian(FromLittleEndian(lo, hi)) == [lo, hi]
  {
  }

  // ---------------------------------------------------------------------------
  // 16-bit words, big-endian ('>H')

  predicate IsWord(v: int) { 0 <= v < 0x1_0000 }

  /** Four values that each fit a 16-bit field. */
  predicate AllWords(vs: seq<int>)
  {
    |vs| == 4 && IsWord(vs[0]) && IsWord(vs[1]) && IsWord(vs[2]) && IsWord(vs[3])
  }

  function WordBytes(v: int): (r: seq<bv8>)
    requires IsWord(v)
    ensures |r| == 2
  {
    [(v / 256) as bv8, (v % 256) as bv8]
  }

  function Word(hi: bv8, lo: bv8): (v: int)
    ensures IsWord(v)
  {
    hi as int * 256 + lo as int
  }

  /** Reading back the two bytes of a word gives the word. */
  lemma WordRoundTrip(v: int)
    requires IsWord(v)
    ensures Word(WordBytes(v)[0], WordBytes(v)[1]) == v
  {
    Bytes.ByteRoundTrip(v / 256);
    Bytes.ByteRoundTrip(v % 256);
  }

  /** The four words, each big-endian, in order. */
  function WordsBytes(vs: seq<int>): (r: seq<bv8>)
    requires |vs| == 4 && AllWords(vs)
    ensures |r| == 8
  {
    WordBytes(vs[0]) + WordBytes(vs[1]) + WordBytes(vs[2]) + WordBytes(vs[3])
  }

  /** The four big-endian words of b[at..at + 8]. */
  function Words(b: seq<bv8>, at: nat): (r: seq<int>)
    requires at + 8 <= |b|
    ensures |r| == 4 && AllWords(r)
  {
    [Word(b[at], b[at + 1]), Word(b[at + 2], b[at + 3]), Word(b[at + 4], b[at + 5]), Word(b[at + 6], b[at + 7])]
  }

  /** Writing a word read from two bytes gives the bytes back. */
  lemma WordBytesOfWord(hi: bv8, lo: bv8)
    ensures WordBytes(Word(hi, lo)) == [hi, lo]
  {
    var v := Word(hi, lo);
    assert v / 256 == hi as int && v % 256 == lo as int;
  }

  lemma WordsBytesOfWords(b: seq<bv8>, at: nat)
    requires at + 8 <= |b|
    ensures WordsBytes(Words(b, at)) == b[at..at + 8]
  {
    WordBytesOfWord(b[at], b[at + 1]);
    WordBytesOfWord(b[at + 2], b[at + 3]);
    WordBytesOfWord(b[at + 4], b[at + 5]);
    WordBytesOfWord(b[at + 6], b[at + 7]);
  }

  lemma {:induction false} WordsRoundTrip(prefix: seq<bv8>, vs: seq<int>, suffix: seq<bv8>)
    requires |vs| == 4 && AllWords(vs)
    ensures Words(prefix + WordsBytes(vs) + suffix, |prefix|) == vs
  {
    var b := prefix + WordsBytes(vs) + suffix;
    var k := |prefix|;
    forall i | 0 <= i < 4
      ensures Word(b[k + 2 * i], b[k + 2 * i + 1]) == vs[i]
    {
      assert b[k + 2 * i] == WordBytes(vs[i])[0] && b[k + 2 * i + 1] == WordBytes(vs[i])[1];
      WordRoundTrip(vs[i]);
    }
  }

  // ---------------------------------------------------------------------------
  // Status bytes

  /** The _status dictionary: bytes 2 to 4 of a response. */
  datatype Status = Status(
    activeToggle: bool, interlock: bool, remote: bool, setpointOK: bool,
    mainsON: bool, outputON: bool, plasmaON: bool,
    modeP: bool, modeU: bool, modeI: bool, ramp: bool,
    jouleMode: bool, jouleLimit: bool, pulseON: bool,
    error: bool, commandError: bool, watchdogError: bool, commandErrorCode: bv8)

  /** The dictionary the driver starts with, before any response arrives. */
  const InitialStatus := Status(
    false, true, true, true, false, false, false,
    true, false, false, false, false, false, false,
    false, false, false, 0)

  predicate ValidStatus(s: Status) { s.commandErrorCode < 32 }

  predicate Bit(b: bv8, mask: bv8) { b & mask != 0 }

  /** Byte 2: bits 0-5 and 7 (bit 6 unused); byte 3: bits 0-2 and 4-7 (bit 3
      unused); byte 4: bits 0-2 and the error code in bits 3-7. */
  function DecodeStatus(b2: bv8, b3: bv8, b4: bv8): (s: Status)
    ensures ValidStatus(s)
  {
    Status(
      Bit(b2, 1), Bit(b2, 2), Bit(b2, 4), Bit(b2, 8), Bit(b2, 16), Bit(b2, 32), Bit(b2, 128),
      Bit(b3, 1), Bit(b3, 2), Bit(b3, 4), Bit(b3, 16), Bit(b3, 32), Bit(b3, 64), Bit(b3, 128),
      Bit(b4, 1), Bit(b4, 2), Bit(b4, 4), (b4 & 248) >> 3)
  }

  function Flag(on: bool, mask: bv8): bv8 { if on then mask else 0 }

  /** The status bytes an instrument sends for a given dictionary. */
  function EncodeStatus(s: Status): (bv8, bv8, bv8)
    requires ValidStatus(s)
  {
    (StateByte(s), ModeByte(s), ErrorByte(s))
  }

  function StateByte(s: Status): bv8 {
    Flag(s.activeToggle, 1) | Flag(s.interlock, 2) | Flag(s.remote, 4) | Flag(s.setpointOK, 8)
      | Flag(s.mainsON, 16) | Flag(s.outputON, 32) | Flag(s.plasmaON, 128)
  }

  function ModeByte(s: Status): bv8 {
    Flag(s.modeP, 1) | Flag(s.modeU, 2) | Flag(s.modeI, 4) | Flag(s.ramp, 16)
      | Flag(s.jouleMode, 32) | Flag(s.jouleLimit, 64) | Flag(s.pulseON, 128)
  }

  function ErrorByte(s: Status): bv8 {
    Flag(s.error, 1) | Flag(s.commandError, 2) | Flag(s.watchdogError, 4) | (s.commandErrorCode << 3)
  }

  /** Every status dictionary survives encoding and decoding. */
  lemma DecodeEncodeStatus(s: Status)
    requires ValidStatus(s)
    ensures DecodeStatus(EncodeStatus(s).0, EncodeStatus(s).1, EncodeStatus(s).2) == s
  {
    Byte2Flags(s.activeToggle, s.interlock, s.remote, s.setpointOK, s.mainsON, s.outputON, s.plasmaON);
    Byte3Flags(s.modeP, s.modeU, s.modeI, s.ramp, s.jouleMode, s.jouleLimit, s.pulseON);
    Byte4Flags(s.error, s.commandError, s.watchdogError, s.commandErrorCode);
  }

  /** Decoding loses exactly bit 6 of byte 2 and bit 3 of byte 3. */
  lemma EncodeDecodeStatus(b2: bv8, b3: bv8, b4: bv8)
    ensures EncodeStatus(DecodeStatus(b2, b3, b4)) == (b2 & 0xBF, b3 & 0xF7, b4)
  {
    Byte2Bits(b2, b3, b4);
    Byte3Bits(b2, b3, b4);
    Byte4Bits(b2, b3, b4);
  }

  lemma Byte2Flags(a: bool, b: bool, c: bool, d: bool, e: bool, f: bool, g: bool)
    ensures var x := Flag(a, 1) | Flag(b, 2) | Flag(c, 4) | Flag(d, 8) | Flag(e, 16) | Flag(f, 32) | Flag(g, 128);
            Bit(x, 1) == a && Bit(x, 2) == b && Bit(x, 4) == c && Bit(x, 8) == d
            && Bit(x, 16) == e && Bit(x, 32) == f && Bit(x, 128) == g
  {
  }

  lemma Byte3Flags(a: bool, b: bool, c: bool, d: bool, e: bool, f: bool, g: bool)
    ensures var x := Flag(a, 1) | Flag(b, 2) | Flag(c, 4) | Flag(d, 16) | Flag(e, 32) | Flag(f, 64) | Flag(g, 128);
            Bit(x, 1) == a && Bit(x, 2) == b && Bit(x, 4) == c && Bit(x, 16) == d
            && Bit(x, 32) == e && Bit(x, 64) == f && Bit(x, 128) == g
  {
  }

  lemma Byte4Flags(a: bool, b: bool, c: bool, code: bv8)
    requires code < 32
    ensures var x := Flag(a, 1) | Flag(b, 2) | Flag(c, 4) | (code << 3);
            Bit(x, 1) == a && Bit(x, 2) == b && Bit(x, 4) == c && (x & 248) >> 3 == code
  {
  }

  lemma Byte2Bits(x: bv8, y: bv8, z: bv8)
    ensures StateByte(DecodeStatus(x, y, z)) == x & 0xBF
  {
  }

  lemma Byte3Bits(x: bv8, y: bv8, z: bv8)
    ensures ModeByte(DecodeStatus(x, y, z)) == y & 0xF7
  {
  }

  lemma Byte4Bits(x: bv8, y: bv8, z: bv8)
    ensures ErrorByte(DecodeStatus(x, y, z)) == z
  {
  }

  // ---------------------------------------------------------------------------
  // Requests

  const Terminator: bv8 := 59

  /** struct.pack('>BBHHHH', address, fCode, w0, w1, w2, w3); struct.error when a
      value does not fit its field. */
  function PackCommand(address: int, fCode: int, words: seq<int>): (r: Result<seq<bv8>>)
    requires |words| == 4
    ensures r.Ok? <==> 0 <= address < 256 && 0 <= fCode < 256 && AllWords(words)
    ensures r.Err? ==> r.error == StructError
    ensures r.Ok? ==> |r.value| == 10
  {
    if 0 <= address < 256 && 0 <= fCode < 256 && AllWords(words) then
      Ok([address as bv8, fCode as bv8] + WordsBytes(words))
    else Err(StructError)
  }

  /** The request frame: packed command, its checksum low byte first, terminator. */
  function Frame(cmd: seq<bv8>): (m: seq<bv8>)
    ensures |m| == |cmd| + 3
  {
    cmd + LittleEndian(Crc16Modbus(cmd)) + [Terminator]
  }

  /** The request as the source builds it: the packed fields are par[0], par[1],
      par[3] and par[4], so every caller's 4-tuple raises IndexError. */
  function EncodeCommandAsWritten(address: int, fCode: int, par: seq<int>): (r: Result<seq<bv8>>)
    ensures |par| < 5 ==> r == Err(IndexError)
    ensures r.Ok? ==> |r.value| == 13
  {
    if |par| < 5 then Err(IndexError)
    else
      match PackCommand(address, fCode, [par[0], par[1], par[3], par[4]])
      case Err(e) => Err(e)
      case Ok(cmd) => Ok(Frame(cmd))
  }

  /** No request the driver issues is ever encoded as written. */
  lemma CommandAsWrittenFails(fCode: int, par: seq<int>)
    requires |par| == 4
    ensures EncodeCommandAsWritten(0, fCode, par) == Err(IndexError)
  {
  }

  /** The request with the four parameters in order, as the driver's comment
      describes it ("par is a 4-tuple with 2-byte parameter values"). */
  function EncodeCommand(address: int, fCode: int, par: seq<int>): (r: Result<seq<bv8>>)
    requires |par| == 4
    ensures r.Ok? <==> 0 <= address < 256 && 0 <= fCode < 256 && AllWords(par)
    ensures r.Err? ==> r.error == StructError
    ensures r.Ok? ==> |r.value| == 13 && r.value[12] == Terminator
  {
    match PackCommand(address, fCode, par)
    case Err(e) => Err(e)
    case Ok(cmd) => Ok(Frame(cmd))
  }

  /** What the instrument reads from a request: address, function code and
      parameters, when the frame has the right length, terminator and checksum. */
  function DecodeCommand(m: seq<bv8>): Option<(int, int, seq<int>)>
  {
    if |m| == 13 && m[12] == Terminator && FromLittleEndian(m[10], m[11]) == Crc16Modbus(m[..10]) then
      Some((m[0] as int, m[1] as int, Words(m, 2)))
    else None
  }

  /** Every encoded request decodes to what was encoded ... */
  lemma {:induction false} DecodeEncodeCommand(address: int, fCode: int, par: seq<int>)
    requires |par| == 4 && EncodeCommand(address, fCode, par).Ok?
    ensures DecodeCommand(EncodeCommand(address, fCode, par).value) == Some((address, fCode, par))
  {
    var cmd := [address as bv8, fCode as bv8] + WordsBytes(par);
    var m := Frame(cmd);
    assert m[..10] == cmd;
    Bytes.ByteRoundTrip(address);
    Bytes.ByteRoundTrip(fCode);
    LittleEndianRoundTrip(Crc16Modbus(cmd));
    WordsRoundTrip([address as bv8, fCode as bv8], par, LittleEndian(Crc16Modbus(cmd)) + [Terminator]);
    assert m == [address as bv8, fCode as bv8] + WordsBytes(par) + (LittleEndian(Crc16Modbus(cmd)) + [Terminator]);
  }

  /** ... and every request the instrument accepts is the encoding of what it reads. */
  lemma {:induction false} EncodeDecodeCommand(m: seq<bv8>)
    requires DecodeCommand(m).Some?
    ensures EncodeCommand(DecodeCommand(m).value.0, DecodeCommand(m).value.1, DecodeCommand(m).value.2) == Ok(m)
  {
    var (address, fCode, par) := DecodeCommand(m).value;
    PackedFields(m);
    FrameOfAccepted(m);
  }

  /** The packed fields of an accepted request are its first ten bytes. */
  lemma {:induction false} PackedFields(m: seq<bv8>)
    requires DecodeCommand(m).Some?
    ensures var (address, fCode, par) := DecodeCommand(m).value;
            PackCommand(address, fCode, par) == Ok(m[..10])
  {
    var (address, fCode, par) := DecodeCommand(m).value;
    assert address as bv8 == m[0] && fCode as bv8 == m[1];
    assert 0 <= address < 256 && 0 <= fCode < 256;
    WordsBytesOfWords(m, 2);
    assert m[..10] == [m[0], m[1]] + m[2..10];
  }

  /** An accepted request is the frame of its first ten bytes. */
  lemma {:induction false} FrameOfAccepted(m: seq<bv8>)
    requires |m| == 13 && m[12] == Terminator && FromLittleEndian(m[10], m[11]) == Crc16Modbus(m[..10])
    ensures Frame(m[..10]) == m
  {
    FromLittleEndianRoundTrip(m[10], m[11]);
    assert m == m[..10] + [m[10], m[11]] + [m[12]];
  }

  // ---------------------------------------------------------------------------
  // Responses

  /** A decoded response: the address and function bytes, the status
      dictionary and the four data words. */
  datatype Reply = Reply(address: int, fCode: int, status: Status, data: seq<int>)

  const CrcMismatch := "CRC mismatch for received message"

  /** The messages of the setters' ValueErrors. */
  const ModeNotInteger := "Mode value must be an integer"
  const ModeOutOfRange := "Mode value must be between 0 and 2 (0 = P mode, 1 = U mode, 2 = I mode"
  const ReadbackMismatch := "Setpoint readback does not match sent value"
  const SetpointNotInteger := "Setpoint value must be an integer"
  const SetpointOutOfRange := "Setpoint value must be between 0 and "

  /** The response handling of __send_command_and_read: bytes 0..12 are the
      payload and bytes 13..14 its checksum, little-endian; anything after is
      ignored. Fewer than 15 bytes make struct.unpack raise; a wrong checksum
      raises ValueError. */
  function ParseResponse(msg: seq<bv8>): (r: Result<Reply>)
    ensures r == Err(StructError) <==> |msg| < 15
    ensures r == Err(ValueError(CrcMismatch)) <==>
              |msg| >= 15 && FromLittleEndian(msg[13], msg[14]) != Crc16Modbus(msg[..13])
    ensures r.Ok? ==> |r.value.data| == 4 && AllWords(r.value.data) && ValidStatus(r.value.status)
  {
    if |msg| < 15 then Err(StructError)
    else
      var payload := msg[..13];
      if FromLittleEndian(msg[13], msg[14]) != Crc16Modbus(payload) then Err(ValueError(CrcMismatch))
      else Ok(Reply(msg[0] as int, msg[1] as int, DecodeStatus(msg[2], msg[3], msg[4]), Words(payload, 5)))
  }

  /** The response an instrument sends: payload and its checksum. */
  function EncodeResponse(address: bv8, fCode: bv8, status: (bv8, bv8, bv8), data: seq<int>): (m: seq<bv8>)
    requires |data| == 4 && AllWords(data)
    ensures |m| == 15
  {
    var payload := [address, fCode, status.0, status.1, status.2] + WordsBytes(data);
    payload + LittleEndian(Crc16Modbus(payload))
  }

  /** A response decodes to its fields, whatever trails it (the terminator). */
  lemma {:induction false} ParseEncodeResponse(address: bv8, fCode: bv8, status: (bv8, bv8, bv8),
                                                data: seq<int>, trailer: seq<bv8>)
    requires |data| == 4 && AllWords(data)
    ensures ParseResponse(EncodeResponse(address, fCode, status, data) + trailer)
            == Ok(Reply(address as int, fCode as int, DecodeStatus(status.0, status.1, status.2), data))
  {
    var head := [address, fCode, status.0, status.1, status.2];
    var payload := head + WordsBytes(data);
    var msg := EncodeResponse(address, fCode, status, data) + trailer;
    assert msg[..13] == payload;
    LittleEndianRoundTrip(Crc16Modbus(payload));
    WordsRoundTrip(head, data, []);
    assert payload + [] == payload;
  }

  /** An accepted response is an encoded response of its fields, up to the two unused status bits. */
  lemma {:induction false} AcceptedResponseIsEncoded(msg: seq<bv8>)
    requires ParseResponse(msg).Ok?
    ensures var r := ParseResponse(msg).value;
            msg[..15] == EncodeResponse(msg[0], msg[1], (msg[2], msg[3], msg[4]), r.data)
  {
    var payload := msg[..13];
    assert ParseResponse(msg).value.data == Words(payload, 5);
    PayloadOfWords(msg);
    FromLittleEndianRoundTrip(msg[13], msg[14]);
    assert msg[..15] == payload + [msg[13], msg[14]];
  }

  /** The payload of a response is its five header bytes followed by its data words. */
  lemma PayloadOfWords(msg: seq<bv8>)
    requires |msg| >= 15
    ensures msg[..13] == [msg[0], msg[1], msg[2], msg[3], msg[4]] + WordsBytes(Words(msg[..13], 5))
  {
    WordsBytesOfWords(msg[..13], 5);
  }

  /** The payload of the response in the source's comment. */
  const SamplePayload: seq<bv8> := [0x00, 0x0B, 0x1D, 0x01, 0x00, 0x3A, 0x98, 0x00, 0x00, 0x00, 0x00, 0x00, 0x00]

  /** The response in the source's comment (function 11, status bytes 0x1D 0x01
      0x00, data words 15000, 0, 0, 0), followed by its own checksum, low byte first. */
  lemma SampleResponse()
    ensures ParseResponse(SamplePayload + LittleEndian(Crc16Modbus(SamplePayload)) + [0x0D])
            == Ok(Reply(0, 11, Status(true, false, true, true, true, false, false,
                                     true, false, false, false, false, false, false,
                                     false, false, false, 0),
                        [15000, 0, 0, 0]))
  {
    var msg := SamplePayload + LittleEndian(Crc16Modbus(SamplePayload)) + [0x0D];
    assert msg[..13] == SamplePayload;
  }

  // ---------------------------------------------------------------------------
  // The driver

  /** One exchange: encode the request (struct errors come first), then decode the reply. */
  function Exchange(address: int, fCode: int, par: seq<int>, reply: seq<bv8>): (r: Result<Reply>)
    requires |par| == 4
    ensures r.Ok? ==> EncodeCommand(address, fCode, par).Ok? && r == ParseResponse(reply)
    ensures r.Err? ==> r == ParseResponse(reply) || r == Err(StructError)
  {
    match EncodeCommand(address, fCode, par)
    case Err(e) => Err(e)
    case Ok(_) => ParseResponse(reply)
  }

  const Address := 0
  const SetpointMax: seq<int> := [1000, 1000, 1000]
  /** The function codes that select power, voltage and current mode and set its setpoint. */
  const ModeFunctionCode: seq<int> := [11, 9, 10]
  const OutputOnCode := 1
  const OutputOffCode := 2
  const ReadValuesCode := 3

  /** The status flag that confirms mode m (0 = P, 1 = U, 2 = I). */
  function ModeConfirmed(s: Status, m: int): bool
    requires 0 <= m <= 2
  {
    if m == 0 then s.modeP else if m == 1 then s.modeU else s.modeI
  }

  /** The ADL supply. The transport is not modelled: every method that talks to
      the instrument receives the bytes it answers with as `reply`. */
  class PowerSupply {
    var mode: int
    var setpoint: seq<int>
    var power: int
    var voltage: int
    var current: int
    var connected: bool
    var status: Status

    ghost predicate Valid()
      reads this
    {
      0 <= mode <= 2 && |setpoint| == 3
    }

    constructor ()
      ensures Valid()
      ensures mode == 0 && setpoint == [0, 0, 0] && power == 0 && voltage == 0 && current == 0
      ensures !connected && status == InitialStatus
    {
      mode, setpoint := 0, [0, 0, 0];
      power, voltage, current := 0, 0, 0;
      connected, status := false, InitialStatus;
    }

    /** __send_command_and_read with the parameters in order: the four data
        words, or the exception; the status is replaced only by an accepted reply. */
    method SendCommandAndRead(fCode: int, par: seq<int>, reply: seq<bv8>) returns (r: Result<seq<int>>)
      requires |par| == 4
      modifies this`status
      ensures var x := Exchange(Address, fCode, par, reply);
              match x
              case Ok(reply) => r == Ok(reply.data) && status == reply.status
              case Err(e) => r == Err(e) && status == old(status)
    {
      var request := EncodeCommand(Address, fCode, par);
      if request.Err? {
        return Err(request.error);
      }
      var response := ParseResponse(reply);
      if response.Err? {
        return Err(response.error);
      }
      status := response.value.status;
      r := Ok(response.value.data);
    }

    /** The mode setter: an integer in 0..2; when connected, the mode command
        must succeed and the status must confirm the mode before it is stored. */
    method SetMode(value: PyValue, reply: seq<bv8>) returns (r: Outcome)
      requires Valid()
      modifies this`mode, this`status
      ensures Valid()
      ensures IntOf(value).None? || !(0 <= IntOf(value).value <= 2) ==>
                r.Fail? && r.error.ValueError? && status == old(status)
      ensures !connected && IntOf(value).Some? && 0 <= IntOf(value).value <= 2 ==>
                r == Pass && status == old(status)
      ensures r == Pass ==> mode == IntOf(value).value
      ensures r == Pass && connected ==> ModeConfirmed(status, mode)
      ensures r.Fail? ==> mode == old(mode)
      ensures connected && IntOf(value).Some? && 0 <= IntOf(value).value <= 2 ==>
                var m := IntOf(value).value;
                var x := Exchange(Address, ModeFunctionCode[m], [setpoint[m], 0, 0, 0], reply);
                && (r == Pass <==> x.Ok? && ModeConfirmed(x.value.status, m))
                && (x.Err? ==> r == Fail(x.error) && status == old(status))
                && (x.Ok? ==> status == x.value.status)
                && (x.Ok? && !ModeConfirmed(x.value.status, m) ==> r == Fail(ValueError(ReadbackMismatch)))
    {
      var m := IntOf(value);
      if m.None? {
        return Fail(ValueError(ModeNotInteger));
      }
      if m.value < 0 || m.value > 2 {
        return Fail(ValueError(ModeOutOfRange));
      }
      if connected {
        var data := SendCommandAndRead(ModeFunctionCode[m.value], [setpoint[m.value], 0, 0, 0], reply);
        if data.Err? {
          return Fail(data.error);
        }
        if !ModeConfirmed(status, m.value) {
          return Fail(ValueError(ReadbackMismatch));
        }
      }
      mode := m.value;
      r := Pass;
    }

    /** The setpoint getter: the slot of the current mode. */
    function Setpoint(): (v: int)
      reads this
      requires Valid()
      ensures v in setpoint
      ensures v == setpoint[mode]
    {
      setpoint[mode]
    }

    /** The setpoint setter: an integer in [0, 1000] for the current mode's slot;
        when connected, the instrument must echo it in data word 0 first. */
    method SetSetpoint(value: PyValue, reply: seq<bv8>) returns (r: Outcome)
      requires Valid()
      modifies this`setpoint, this`status
      ensures Valid()
      ensures r == Pass <==>
                && IntOf(value).Some? && 0 <= IntOf(value).value <= SetpointMax[mode]
                && (connected ==> Exchange(Address, ModeFunctionCode[mode], [IntOf(value).value, 0, 0, 0], reply).Ok?
                                  && Exchange(Address, ModeFunctionCode[mode], [IntOf(value).value, 0, 0, 0], reply).value.data[0]
                                     == IntOf(value).value)
      ensures r == Pass ==> Setpoint() == IntOf(value).value
      ensures r == Pass ==> forall k :: 0 <= k < 3 && k != mode ==> setpoint[k] == old(setpoint[k])
      ensures r.Fail? ==> setpoint == old(setpoint)
      ensures !connected ==> status == old(status)
      ensures IntOf(value).None? || !(0 <= IntOf(value).value <= SetpointMax[mode]) ==> status == old(status)
      ensures connected && IntOf(value).Some? && 0 <= IntOf(value).value <= SetpointMax[mode] ==>
                var x := Exchange(Address, ModeFunctionCode[mode], [IntOf(value).value, 0, 0, 0], reply);
                && (x.Ok? ==> status == x.value.status)
                && (x.Err? ==> r == Fail(x.error) && status == old(status))
                && (x.Ok? && x.value.data[0] != IntOf(value).value ==> r == Fail(ValueError(ReadbackMismatch)))
    {
      var v := IntOf(value);
      if v.None? {
        return Fail(ValueError(SetpointNotInteger));
      }
      if v.value < 0 || v.value > SetpointMax[mode] {
        return Fail(ValueError(SetpointOutOfRange + IntToDecimal(SetpointMax[mode])));
      }
      if connected {
        var data := SendCommandAndRead(ModeFunctionCode[mode], [v.value, 0, 0, 0], reply);
        if data.Err? {
          return Fail(data.error);
        }
        if data.value[0] != v.value {
          return Fail(ValueError(ReadbackMismatch));
        }
      }
      setpoint := setpoint[mode := v.value];
      r := Pass;
    }

    /** set_setpoints: all three slots at once, without any check. */
    method SetSetpoints(p: int, u: int, i: int)
      requires Valid()
      modifies this`setpoint
      ensures Valid() && setpoint == [p, u, i]
    {
      setpoint := [p, u, i];
    }

    /** The output getter reports the outputON status flag. */
    function Output(): (v: bool)
      reads this
      ensures v == status.outputON
    {
      status.outputON
    }

    /** The output setter: when connected, sends the on (1) or off (2) command;
        nothing happens while disconnected. */
    method SetOutput(value: bool, reply: seq<bv8>) returns (r: Outcome)
      requires Valid()
      modifies this`status
      ensures Valid()
      ensures !connected ==> r == Pass && status == old(status)
      ensures connected ==>
                var x := Exchange(Address, if value then OutputOnCode else OutputOffCode, [0, 0, 0, 0], reply);
                && (r == Pass <==> x.Ok?)
                && (x.Ok? ==> status == x.value.status)
                && (x.Err? ==> r == Fail(x.error) && status == old(status))
    {
      r := Pass;
      if connected {
        var data := SendCommandAndRead(if value then OutputOnCode else OutputOffCode, [0, 0, 0, 0], reply);
        if data.Err? {
          r := Fail(data.error);
        }
      }
    }

    /** update_pui: when connected, reads the measured values (data words 2, 0
        and 1 are power, voltage and current); returns the stored triple. */
    method UpdatePui(reply: seq<bv8>) returns (r: Result<(int, int, int)>)
      requires Valid()
      modifies this`power, this`voltage, this`current, this`status
      ensures Valid()
      ensures !connected ==>
                r == Ok((old(power), old(voltage), old(current))) && power == old(power)
                && voltage == old(voltage) && current == old(current) && status == old(status)
      ensures connected && ParseResponse(reply).Ok? ==>
                var data := ParseResponse(reply).value.data;
                r == Ok((data[2], data[0], data[1])) && (power, voltage, current) == (data[2], data[0], data[1])
      ensures connected && ParseResponse(reply).Err? ==>
                r == Err(ParseResponse(reply).error)
                && power == old(power) && voltage == old(voltage) && current == old(current)
      ensures r.Ok? ==> IsWord(r.value.0) || !connected
      ensures connected ==>
                var x := Exchange(Address, ReadValuesCode, [0, 0, 0, 0], reply);
                && (x.Ok? ==> status == x.value.status)
                && (x.Err? ==> status == old(status))
    {
      if connected {
        var data := SendCommandAndRead(ReadValuesCode, [0, 0, 0, 0], reply);
        if data.Err? {
          return Err(data.error);
        }
        power, voltage, current := data.value[2], data.value[0], data.value[1];
      }
      r := Ok((power, voltage, current));
    }
  }
}
