/** The receive buffer as the decoders see it: bytes read through an advancing cursor.

    Memory is a total function from addresses to bytes, so reading past the bytes that have
    arrived is reading an arbitrary byte.
 */
module ByteMemory {
  import opened Packets

  type Memory = nat -> byte

  /** `bytes` lie in memory from address `pos` on. */
  ghost predicate At(mem: Memory, pos: nat, bytes: seq<byte>)
  {
    forall i: nat | i < |bytes| :: mem(pos + i) == bytes[i]
  }

  lemma AtSplit(mem: Memory, pos: nat, a: seq<byte>, b: seq<byte>)
    requires At(mem, pos, a + b)
    ensures At(mem, pos, a) && At(mem, pos + |a|, b)
  {
    forall i: nat | i < |a| ensures mem(pos + i) == a[i] {
      assert a[i] == (a + b)[i];
    }
    forall i: nat | i < |b| ensures mem(pos + |a| + i) == b[i] {
      assert b[i] == (a + b)[|a| + i];
      assert mem(pos + (|a| + i)) == b[i];
    }
  }

  lemma AtHead(mem: Memory, pos: nat, bytes: seq<byte>)
    requires At(mem, pos, bytes) && bytes != []
    ensures mem(pos) == bytes[0]
  {
    assert mem(pos + 0) == bytes[0];
  }

  ghost function U16At(mem: Memory, pos: nat): uint16
  {
    mem(pos) * 256 + mem(pos + 1)
  }

  /** The length-prefixed string at `pos` (section 1.5.3 of MQTT 3.1.1), one character per byte. */
  ghost function StringAt(mem: Memory, pos: nat): (s: string)
    ensures |s| == U16At(mem, pos)
  {
    seq(U16At(mem, pos), i requires 0 <= i => mem(pos + 2 + i) as char)
  }

  ghost function StringEnd(mem: Memory, pos: nat): nat
  {
    pos + 2 + U16At(mem, pos)
  }

  /** A read cursor, the `const uint8_t** buff` of the decoders, with the primitive reads. */
  class Cursor {
    const mem: Memory
    var pos: nat

    constructor (mem: Memory)
      ensures this.mem == mem && pos == 0
    {
      this.mem := mem;
      pos := 0;
    }

    method UnpackU8() returns (b: byte)
      modifies this
      ensures b == mem(old(pos)) && pos == old(pos) + 1
    {
      b := mem(pos);
      pos := pos + 1;
    }

    method UnpackU16() returns (n: uint16)
      modifies this
      ensures n == U16At(mem, old(pos)) && pos == old(pos) + 2
    {
      n := mem(pos) * 256 + mem(pos + 1);
      pos := pos + 2;
    }

    method UnpackString16() returns (s: string)
      modifies this
      ensures s == StringAt(mem, old(pos)) && pos == StringEnd(mem, old(pos))
    {
      var n := UnpackU16();
      var start, m := pos, mem;
      s := seq(n, i requires 0 <= i => m(start + i) as char);
      pos := pos + n;
    }
  }

  // ---------------------------------------------------------------- the matching wire layout

  function U16(n: uint16): (r: seq<byte>)
    ensures |r| == 2
  {
    [n / 256, n % 256]
  }

  /** A string that fits the wire: at most 65535 one-byte characters. */
  predicate Fits16(s: string)
  {
    |s| < 0x1_0000 && forall i | 0 <= i < |s| :: s[i] as int < 0x100
  }

  function String16(s: string): (r: seq<byte>)
    requires Fits16(s)
    ensures |r| == 2 + |s|
  {
    U16(|s|) + seq(|s|, i requires 0 <= i < |s| => s[i] as byte)
  }

  lemma U16RoundTrip(mem: Memory, pos: nat, n: uint16)
    requires At(mem, pos, U16(n))
    ensures U16At(mem, pos) == n
  {
    assert mem(pos + 0) == U16(n)[0] && mem(pos + 1) == U16(n)[1];
  }

  lemma String16RoundTrip(mem: Memory, pos: nat, s: string)
    requires Fits16(s) && At(mem, pos, String16(s))
    ensures StringAt(mem, pos) == s && StringEnd(mem, pos) == pos + |String16(s)|
  {
    var chars: seq<byte> := seq(|s|, i requires 0 <= i < |s| => s[i] as byte);
    AtSplit(mem, pos, U16(|s|), chars);
    U16RoundTrip(mem, pos, |s|);
    forall i: nat | i < |s| ensures StringAt(mem, pos)[i] == s[i] {
      assert mem(pos + 2 + i) == chars[i];
    }
  }
}
