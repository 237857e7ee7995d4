/** The variable-length Remaining Length field (section 2.2.3 of MQTT 3.1.1). */
module RemainingLength {
  import opened Packets
  import opened ByteMemory

  // ---------------------------------------------------------------- encoding

  function Encoded(n: nat): (r: seq<byte>)
    ensures |r| >= 1
  {
    if n < 128 then [n] else [n % 128 + 128] + Encoded(n / 128)
  }

  lemma EncodedUnfold(n: nat)
    ensures n / 128 > 0 <==> n >= 128
    ensures Encoded(n) == if n / 128 > 0 then [n % 128 + 128] + Encoded(n / 128) else [n % 128]
  {
  }

  /** `encode_length`: appends the encoding to `buff`. Its counter is never incremented, so the
      returned number is always 0 and the four-byte guard never fires. */
  method EncodeLength(len: nat, buff: seq<byte>) returns (encodedByte: int, out: seq<byte>)
    ensures out == buff + Encoded(len)
    ensures encodedByte == 0
  {
    encodedByte, out := 0, buff;
    var rest: nat := len;
    var more := true;
    ghost var tail := Encoded(len);
    while more
      invariant encodedByte == 0
      invariant out + tail == buff + Encoded(len)
      invariant tail == if more then Encoded(rest) else []
      decreases more, rest
    {
      if encodedByte + 1 > 4 { return; }
      EncodedUnfold(rest);
      var d: nat, next: nat := rest % 128, rest / 128;
      if next > 0 { d := d + 128; }
      tail := if next > 0 then Encoded(next) else [];
      assert out + ([d] + tail) == (out + [d]) + tail;
      out, rest, more := out + [d], next, next > 0;
    }
  }

  // ---------------------------------------------------------------- decoding

  /** `Length(n, used)`: value `n` from `used` bytes. `Malformed` is the thrown `runtime_error`. */
  datatype Decoding = Length(n: nat, used: nat) | Incomplete | Malformed

  /** What decoding gives from the `read`-th byte of the field at `pos` on. The multiplier check
      precedes the advance, so the fourth byte is refused whatever it holds. */
  ghost function Decode(mem: Memory, pos: nat, read: nat, available: nat): (d: Decoding)
    requires read <= 3
    ensures d.Length? ==> 1 <= d.used <= 3 - read
    decreases 3 - read
  {
    if read >= available then Incomplete
    else if read == 3 then Malformed
    else
      var b := mem(pos + read);
      if b < 128 then Length(b, 1)
      else
        match Decode(mem, pos, read + 1, available)
        case Length(n, used) => Length(b % 128 + 128 * n, used + 1)
        case d => d
  }

  /** The value of a decoding that continues one with `acc` accumulated at weight `multiplier`. */
  ghost function Shifted(acc: nat, multiplier: nat, read: nat, d: Decoding): Decoding
  {
    match d
    case Length(n, used) => Length(acc + multiplier * n, read + used)
    case other => other
  }

  lemma ShiftedStep(acc: nat, multiplier: nat, read: nat, b: byte, rest: Decoding)
    requires rest.Length?
    ensures Shifted(acc, multiplier, read, Length(b % 128 + 128 * rest.n, rest.used + 1))
         == Shifted(acc + b % 128 * multiplier, multiplier * 128, read + 1, rest)
  {
    assert multiplier * (b % 128 + 128 * rest.n) == b % 128 * multiplier + multiplier * 128 * rest.n;
  }

  /** Decoding takes in one byte, at the current weight. */
  lemma OneByte(acc: nat, multiplier: nat, mem: Memory, pos: nat, read: nat, available: nat)
    requires read < 3 && read < available
    ensures var b := mem(pos + read);
            var acc' := acc + b % 128 * multiplier;
            var whole := Shifted(acc, multiplier, read, Decode(mem, pos, read, available));
            if b < 128 then whole == Length(acc', read + 1)
            else whole == Shifted(acc', multiplier * 128, read + 1, Decode(mem, pos, read + 1, available))
  {
    var rest := Decode(mem, pos, read + 1, available);
    if rest.Length? { ShiftedStep(acc, multiplier, read, mem(pos + read), rest); }
  }

  /** `decode_length`. A negative result of the original is `Incomplete`, its exception `Malformed`. */
  method DecodeLength(c: Cursor, available: nat) returns (d: Decoding)
    modifies c
    ensures d == Decode(c.mem, old(c.pos), 0, available)
    ensures d.Length? ==> c.pos == old(c.pos) + d.used
  {
    var bytesRead: nat, len: nat, multiplier: nat := 0, 0, 1;
    var more := true;
    ghost var start := c.pos;
    ghost var goal := Decode(c.mem, start, 0, available);
    while more
      invariant bytesRead <= 3 && c.pos == start + bytesRead
      invariant more ==> multiplier == if bytesRead == 0 then 1 else if bytesRead == 1 then 128
                                       else if bytesRead == 2 then 128 * 128 else 128 * 128 * 128
      invariant more ==> goal == Shifted(len, multiplier, bytesRead, Decode(c.mem, start, bytesRead, available))
      invariant !more ==> goal == Length(len, bytesRead)
      decreases more, 3 - bytesRead
    {
      if bytesRead >= available { return Incomplete; }
      var nextbyte := c.mem(c.pos);
      if bytesRead < 3 { OneByte(len, multiplier, c.mem, start, bytesRead, available); }
      len := len + nextbyte % 128 * multiplier;
      multiplier := multiplier * 128;
      if multiplier > 128 * 128 * 128 { return Malformed; }
      c.pos := c.pos + 1;
      bytesRead := bytesRead + 1;
      more := nextbyte >= 128;
    }
    d := Length(len, bytesRead);
  }

  // ---------------------------------------------------------------- the two are inverse

  /** The value that a byte string denotes as a length field, if it is exactly one such field. */
  ghost predicate Denotes(bytes: seq<byte>, n: nat)
  {
    |bytes| >= 1 &&
    (if |bytes| == 1 then bytes[0] < 128 && n == bytes[0]
     else bytes[0] >= 128 && n % 128 == bytes[0] % 128 && Denotes(bytes[1..], n / 128))
  }

  ghost function Pow128(k: nat): nat
  {
    if k == 0 then 1 else 128 * Pow128(k - 1)
  }

  lemma {:induction false} EncodedSize(n: nat, k: nat)
    requires k >= 1
    ensures |Encoded(n)| <= k <==> n < Pow128(k)
  {
    if n < 128 {
      PowGrows(k);
    } else if k == 1 {
      assert Pow128(1) == 128 * Pow128(0);
    } else {
      EncodedSize(n / 128, k - 1);
    }
  }

  lemma {:induction false} PowGrows(k: nat)
    requires k >= 1
    ensures Pow128(k) >= 128
  {
    if k > 1 { PowGrows(k - 1); }
  }

  lemma {:induction false} EncodedDenotes(n: nat)
    ensures Denotes(Encoded(n), n)
  {
    if n >= 128 {
      EncodedDenotes(n / 128);
      assert Encoded(n)[1..] == Encoded(n / 128);
    }
  }

  /** Shortest form: every other byte string that denotes `n` is longer. */
  lemma {:induction false} EncodedIsShortest(n: nat, bytes: seq<byte>)
    requires Denotes(bytes, n)
    ensures |Encoded(n)| < |bytes| || Encoded(n) == bytes
  {
    if |bytes| > 1 {
      EncodedIsShortest(n / 128, bytes[1..]);
      if n >= 128 {
        assert bytes == [bytes[0]] + bytes[1..];
        assert bytes[0] == n % 128 + 128;
      }
    }
  }

  /** Prefix-freedom: two encodings that start the same memory are the same encoding. */
  lemma {:induction false} EncodingIsPrefixFree(m: nat, n: nat, x: seq<byte>, y: seq<byte>)
    requires Encoded(m) + x == Encoded(n) + y
    ensures m == n && x == y
  {
    var s := Encoded(m) + x;
    assert s[0] == Encoded(m)[0] == Encoded(n)[0];
    if m < 128 {
      assert n < 128;
      assert x == s[1..] == y;
    } else {
      assert n >= 128;
      assert s[1..] == Encoded(m / 128) + x;
      assert s[1..] == Encoded(n / 128) + y;
      EncodingIsPrefixFree(m / 128, n / 128, x, y);
    }
  }

  lemma {:induction false} DecodeOfField(n: nat, mem: Memory, pos: nat, read: nat, available: nat)
    requires read + |Encoded(n)| <= 3
    requires At(mem, pos + read, Encoded(n)) && available >= read + |Encoded(n)|
    ensures Decode(mem, pos, read, available) == Length(n, |Encoded(n)|)
    decreases 3 - read
  {
    assert mem(pos + read + 0) == Encoded(n)[0];
    if n >= 128 {
      AtSplit(mem, pos + read, [Encoded(n)[0]], Encoded(n / 128));
      DecodeOfField(n / 128, mem, pos, read + 1, available);
    }
  }

  lemma {:induction false} DecodeOfLongField(n: nat, mem: Memory, pos: nat, read: nat, available: nat)
    requires read <= 3 < read + |Encoded(n)|
    requires At(mem, pos + read, Encoded(n)) && available >= 4
    ensures Decode(mem, pos, read, available) == Malformed
    decreases 3 - read
  {
    assert mem(pos + read + 0) == Encoded(n)[0];
    if read < 3 {
      assert n >= 128;
      AtSplit(mem, pos + read, [Encoded(n)[0]], Encoded(n / 128));
      DecodeOfLongField(n / 128, mem, pos, read + 1, available);
    }
  }

  /** `decode_length` inverts `encode_length`, whatever bytes follow, exactly for the lengths below
      128^3; every longer encoding is refused, although the standard allows lengths below 128^4. */
  lemma DecodeInvertsEncode(n: nat, mem: Memory, pos: nat, available: nat)
    requires At(mem, pos, Encoded(n)) && available >= |Encoded(n)|
    ensures Decode(mem, pos, 0, available) == Length(n, |Encoded(n)|) <==> n < 128 * 128 * 128
    ensures Decode(mem, pos, 0, available) == Malformed <==> n >= 128 * 128 * 128
  {
    assert Pow128(3) == 128 * 128 * 128 by { assert Pow128(3) == 128 * Pow128(2) == 128 * (128 * Pow128(1)); }
    EncodedSize(n, 3);
    if n < 128 * 128 * 128 {
      DecodeOfField(n, mem, pos, 0, available);
    } else {
      DecodeOfLongField(n, mem, pos, 0, available);
    }
  }

  /** With only `a` bytes of a field of at most three bytes present, decoding never throws, and
      either runs out of bytes or has consumed exactly `a`: the last of them is the arbitrary byte
      one past the end of what has arrived. (`available` counts the type byte too, hence `a`.) */
  lemma {:induction false} DecodeOfPrefix(n: nat, mem: Memory, pos: nat, read: nat, a: nat)
    requires read < a <= read + |Encoded(n)| <= 3
    requires forall i: nat | i < a - 1 - read :: mem(pos + read + i) == Encoded(n)[i]
    ensures var d := Decode(mem, pos, read, a); d == Incomplete || (d.Length? && d.used == a - read)
    decreases 3 - read
  {
    if read + 1 < a {
      assert mem(pos + read + 0) == Encoded(n)[0];
      assert n >= 128;
      forall i: nat | i < a - 1 - (read + 1) ensures mem(pos + (read + 1) + i) == Encoded(n / 128)[i] {
        assert mem(pos + read + (i + 1)) == Encoded(n)[i + 1];
      }
      DecodeOfPrefix(n / 128, mem, pos, read + 1, a);
    }
  }
}
