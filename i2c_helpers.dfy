/**
  Big-endian byte codec and the two bus transactions of the driver:
  an addressed register read and the "end communication window" command.

  The Arduino Wire object is not modelled. Each transaction instead takes what
  the bus returns as parameters (the error code of the address phase, the bytes
  the device makes available, the code of a closing STOP) and returns the list
  of bus events it issued, in order.
 */
module I2CHelpers {

  /** An unsigned 8-bit value, as `byte` on Arduino. */
  type Byte = b: int | 0 <= b < 256

  /** Register address of the End Communication Window command. */
  const EndCommRegister: int := 0xEEEE

  /** Error code returned when the device offers more bytes than were requested. */
  const ErrorTooManyBytes: Byte := 6

  /** One bus transaction as seen on the wire. */
  datatype BusEvent =
    /** beginTransmission, write of `payload`, endTransmission(`stop`) */
    | Transmit(device: int, payload: seq<Byte>, stop: bool)
    /** requestFrom(`device`, `count`, `stop`) */
    | Request(device: int, count: int, stop: bool)

  function Pow256(n: nat): (p: nat)
    ensures p > 0
  {
    if n == 0 then 1 else 256 * Pow256(n - 1)
  }

  /** The big-endian value of `s`: most significant byte first. */
  function BigEndian(s: seq<Byte>): nat
  {
    if |s| == 0 then 0 else BigEndian(s[..|s| - 1]) * 256 + s[|s| - 1]
  }

  /**
    The two bytes `(v >> 8) & 0xFF` and `v & 0xFF`. Dafny's `/` and `%` by a
    positive divisor round toward minus infinity and give a non-negative
    remainder, which is what an arithmetic right shift and a mask give on a
    two's-complement `int`, negative values included.
   */
  function ToTwoBytes(v: int): seq<Byte>
  {
    [(v / 256) % 256, v % 256]
  }

  /** A big-endian number of n bytes lies in [0, 256^n). */
  lemma {:induction false} BigEndianBound(s: seq<Byte>)
    ensures BigEndian(s) < Pow256(|s|)
  {
    if |s| > 0 {
      BigEndianBound(s[..|s| - 1]);
    }
  }

  /** The value of a prefix one byte longer: the fold step of the decoding loop. */
  lemma BigEndianSnoc(s: seq<Byte>, i: nat)
    requires i < |s|
    ensures BigEndian(s[..i + 1]) == BigEndian(s[..i]) * 256 + s[i]
  {
    assert s[..i + 1][..i] == s[..i];
  }

  lemma BigEndianTwo(b0: Byte, b1: Byte)
    ensures BigEndian([b0, b1]) == (b0 as int) * 256 + b1
  {
    var s := [b0, b1];
    assert s[..|s| - 1] == [b0];
    var t := [b0];
    assert t[..|t| - 1] == [];
    assert BigEndian(t) == b0;
    assert BigEndian(s) == BigEndian(t) * 256 + b1;
  }

  /** Decoding the two bytes of any `int` yields its low 16 bits. */
  lemma ToTwoBytesLow16(v: int)
    ensures BigEndian(ToTwoBytes(v)) == v % 65536
  {
    var b := ToTwoBytes(v);
    BigEndianTwo(b[0], b[1]);
    assert b == [b[0], b[1]];
    var q := v / 256;
    assert v == q * 256 + v % 256;
    assert q == (q / 256) * 256 + q % 256;
    assert v == (q / 256) * 65536 + (q % 256) * 256 + v % 256;
  }

  /** Encoding then decoding a 16-bit value gives it back. */
  lemma TwoBytesRoundTrip(v: int)
    requires 0 <= v < 65536
    ensures BigEndian(ToTwoBytes(v)) == v
  {
    ToTwoBytesLow16(v);
  }

  /** Decoding then encoding any two bytes gives them back. */
  lemma BytesRoundTrip(b0: Byte, b1: Byte)
    ensures ToTwoBytes(BigEndian([b0, b1])) == [b0, b1]
  {
    BigEndianTwo(b0, b1);
  }

  /** intToTwoByteArray: writes the two big-endian bytes of `value` to cells 0 and 1. */
  method IntToTwoByteArray(value: int, bytes: array<Byte>)
    requires bytes.Length >= 2
    modifies bytes
    ensures bytes[..2] == ToTwoBytes(value)
    ensures bytes[0] == (value / 256) % 256 && bytes[1] == value % 256
    ensures bytes[2..] == old(bytes[2..])
  {
    bytes[0] := (value / 256) % 256;
    bytes[1] := value % 256;
  }

  /**
    byteArrayToInt: folds the first `numBytes` bytes into an integer, most
    significant first; a non-positive count gives 0. Beyond three bytes the
    C++ shift overflows a signed `int`, so that case is excluded.
   */
  method ByteArrayToInt(bytes: array<Byte>, numBytes: int) returns (value: int)
    requires numBytes <= bytes.Length && numBytes <= 3
    ensures numBytes <= 0 ==> value == 0
    ensures numBytes > 0 ==> value == BigEndian(bytes[..numBytes])
    ensures 0 <= value < Pow256(if numBytes > 0 then numBytes else 0)
  {
    ghost var n := if numBytes > 0 then numBytes else 0;
    value := 0;
    var i := 0;
    while i < numBytes
      invariant 0 <= i <= n
      invariant value == BigEndian(bytes[..i])
    {
      BigEndianSnoc(bytes[..], i);
      assert bytes[..i + 1] == bytes[..][..i + 1] && bytes[..i] == bytes[..][..i];
      value := value * 256 + bytes[i];
      i := i + 1;
    }
    BigEndianBound(bytes[..i]);
  }

  /** The address phase of a read: the register's two address bytes, ended by a repeated start. */
  function AddressPhase(device: int, register: int): BusEvent
  {
    Transmit(device, ToTwoBytes(register), false)
  }

  /**
    What readFromRegister does, given the address-phase code `addrError` and
    the bytes `available` from the device: the code returned, the bus events,
    and the buffer before (`before`) and after (`after`).
   */
  ghost predicate ReadFromRegisterSpec(device: int, register: int, bytesToRead: nat,
                                       addrError: Byte, available: seq<Byte>,
                                       before: seq<Byte>, after: seq<Byte>,
                                       error: Byte, sent: seq<BusEvent>)
    requires bytesToRead <= |before|
  {
    |after| == |before| &&
    if addrError != 0 then
      error == addrError && after == before && sent == [AddressPhase(device, register)]
    else
      var k := if |available| < bytesToRead then |available| else bytesToRead;
      && error == (if |available| > bytesToRead then ErrorTooManyBytes else 0)
      && after[..k] == available[..k]
      && after[k..] == before[k..]
      && sent == [AddressPhase(device, register), Request(device, bytesToRead, false)]
  }

  /**
    readFromRegister: sends the register address, then copies the available
    bytes into `buf`; more bytes than requested is error 6.
   */
  method ReadFromRegister(device: int, register: int, bytesToRead: int, buf: array<Byte>,
                          addrError: Byte, available: seq<Byte>)
    returns (error: Byte, sent: seq<BusEvent>)
    requires 0 <= bytesToRead <= buf.Length
    modifies buf
    ensures ReadFromRegisterSpec(device, register, bytesToRead, addrError, available,
                                 old(buf[..]), buf[..], error, sent)
  {
    var addrByteArray := new Byte[2];
    IntToTwoByteArray(register, addrByteArray);
    sent := [Transmit(device, addrByteArray[..2], false)];
    error := addrError;
    if error != 0 {
      return;
    }
    sent := sent + [Request(device, bytesToRead, false)];
    var i := 0;
    while i < |available|
      invariant 0 <= i <= |available| && i <= bytesToRead
      invariant error == 0
      invariant buf[..i] == available[..i]
      invariant buf[i..] == old(buf[i..])
    {
      if i >= bytesToRead {
        error := ErrorTooManyBytes;
        break;
      }
      buf[i] := available[i];
      i := i + 1;
    }
  }

  /**
    endCommunication: writes one byte (0) to register 0xEEEE and ends with a
    STOP; returns the code of that transmission, here `stopError`.
   */
  method EndCommunication(device: int, stopError: Byte) returns (error: Byte, sent: seq<BusEvent>)
    ensures sent == [Transmit(device, [0xEE, 0xEE, 0x00], true)]
    ensures error == stopError
  {
    var addrByteArray := new Byte[2];
    IntToTwoByteArray(EndCommRegister, addrByteArray);
    assert ToTwoBytes(EndCommRegister) == [0xEE, 0xEE];
    assert addrByteArray[..2] + [0] == [0xEE, 0xEE, 0x00];
    sent := [Transmit(device, addrByteArray[..2] + [0], true)];
    error := stopError;
  }
}
