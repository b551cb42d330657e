/** C-level vocabulary shared by the ARA and MQTT-SN models: fixed-width
    unsigned and signed integers, the NULL-or-value wrapper, C strings and
    the 16-bit byte orders used on the wire and in host memory. */
module CTypes {

  type byte = x: int | 0 <= x < 0x100
  type uint16 = x: int | 0 <= x < 0x1_0000
  type uint32 = x: int | 0 <= x < 0x1_0000_0000
  type int8 = x: int | -0x80 <= x < 0x80

  /** A pointer that may be NULL. */
  datatype Option<T> = None | Some(value: T)

  /** Truncation of an integer to `uint8_t`, as C does on assignment. */
  function ToByte(x: int): (r: byte)
    ensures r == x % 0x100
  {
    x % 0x100
  }

  /** Post-increment of a `uint16_t` counter, wrapping at 2^16. */
  function Increment16(x: uint16): (r: uint16)
    ensures x < 0xFFFF ==> r == x + 1
    ensures x == 0xFFFF ==> r == 0
  {
    (x + 1) % 0x1_0000
  }

  // ---------------------------------------------------------------------
  // 16-bit values in network (big-endian) and host (little-endian) order.

  /** The two octets `HTONS(v)` puts into a packed struct. */
  function BigEndian16(v: uint16): (r: seq<byte>)
    ensures |r| == 2
  {
    [v / 0x100, v % 0x100]
  }

  /** The two octets a `uint16_t` occupies in little-endian host memory. */
  function HostOrder16(v: uint16): (r: seq<byte>)
    ensures |r| == 2
  {
    [v % 0x100, v / 0x100]
  }

  /** `NTOHS` applied to the two octets `hi`, `lo` read from the wire. */
  function FromBigEndian16(hi: byte, lo: byte): (r: uint16)
    ensures r / 0x100 == hi && r % 0x100 == lo
  {
    hi * 0x100 + lo
  }

  /** Swapping the two octets of a 16-bit value. */
  function Swap16(v: uint16): (r: uint16)
    ensures r / 0x100 == v % 0x100 && r % 0x100 == v / 0x100
  {
    (v % 0x100) * 0x100 + v / 0x100
  }

  lemma BigEndianRoundTrip(v: uint16)
    ensures FromBigEndian16(BigEndian16(v)[0], BigEndian16(v)[1]) == v
  {
  }

  lemma Swap16Involutive(v: uint16)
    ensures Swap16(Swap16(v)) == v
  {
  }

  /** Reading host-order octets as network order gives the swapped value,
      which equals the original exactly when both octets agree. */
  lemma HostOrderReadAsNetworkOrder(v: uint16)
    ensures FromBigEndian16(HostOrder16(v)[0], HostOrder16(v)[1]) == Swap16(v)
    ensures Swap16(v) == v <==> v / 0x100 == v % 0x100
  {
  }

  // ---------------------------------------------------------------------
  // C strings. A string is modelled by the bytes a pointer makes readable;
  // an embedded 0 byte terminates it, and the end of the sequence stands
  // for the terminating NUL.

  /** `strnlen(s, max)`: the number of leading non-NUL bytes, at most `max`. */
  function Strnlen(s: seq<byte>, max: nat): (r: nat)
    ensures r <= max && r <= |s|
    ensures forall i :: 0 <= i < r ==> s[i] != 0
    ensures r < max && r < |s| ==> s[r] == 0
    decreases max
  {
    if max == 0 || s == [] || s[0] == 0 then 0 else 1 + Strnlen(s[1..], max - 1)
  }

  /** The contents `strncpy(dest, src, n)` leaves in the first `n` cells of
      `dest`: the string's characters, then NUL padding. */
  function StrncpyCells(src: seq<byte>, n: nat): (r: seq<byte>)
    ensures |r| == n
    ensures forall i :: 0 <= i < n ==> r[i] == if i < Strnlen(src, n) then src[i] else 0
  {
    var len := Strnlen(src, n);
    seq(n, i requires 0 <= i < n => if i < len then src[i] else 0)
  }

  /** `strnlen` stops at the first NUL: a sequence whose first `n` bytes
      are non-NUL and whose byte `n`, when within `max`, is NUL has
      `strnlen` equal to `n`. */
  lemma {:induction false} StrnlenOfPrefix(s: seq<byte>, n: nat, max: nat)
    requires n <= max && n <= |s|
    requires forall i :: 0 <= i < n ==> s[i] != 0
    requires n < max && n < |s| ==> s[n] == 0
    ensures Strnlen(s, max) == n
    decreases max
  {
    if max != 0 && s != [] && s[0] != 0 {
      StrnlenOfPrefix(s[1..], n - 1, max - 1);
    }
  }
}
