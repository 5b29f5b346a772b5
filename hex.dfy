/**
 * The hex-string helpers the account tests rely on: `expandHex` from the
 * test file, and the byte/hex conversions and byte-wise exclusive-or that
 * key derivation uses.
 */
module HexUtil {
  import opened Wrappers

  type Byte = bv8

  /** `s` written out `n` times in a row. */
  function Repeat(s: string, n: nat): (r: string)
    ensures |r| == |s| * n
  {
    if n == 0 then "" else
      assert |s| * n == |s| + |s| * (n - 1);
      s + Repeat(s, n - 1)
  }

  /** Character `j` of every copy in `Repeat(s, n)` is character `j` of `s`. */
  lemma {:induction false} RepeatAt(s: string, n: nat, k: nat, j: nat)
    requires k < n && j < |s|
    ensures k * |s| + j < |Repeat(s, n)| && Repeat(s, n)[k * |s| + j] == s[j]
  {
    if k > 0 {
      RepeatAt(s, n - 1, k - 1, j);
      assert k * |s| + j == |s| + ((k - 1) * |s| + j);
    }
  }

  /** Repeating `a` times then `b` times is repeating `a + b` times. */
  lemma {:induction false} RepeatAdd(s: string, a: nat, b: nat)
    ensures Repeat(s, a) + Repeat(s, b) == Repeat(s, a + b)
  {
    if a > 0 {
      RepeatAdd(s, a - 1, b);
      assert Repeat(s, a) + Repeat(s, b) == s + (Repeat(s, a - 1) + Repeat(s, b));
    }
  }

  /** The test's `expandHex`: four copies, four copies of that, then two of that. */
  function ExpandHex(twoHex: string): (r: string)
    ensures |r| == 32 * |twoHex|
  {
    var eightHex := twoHex + twoHex + twoHex + twoHex;
    var thirtytwoHex := eightHex + eightHex + eightHex + eightHex;
    thirtytwoHex + thirtytwoHex
  }

  /** `expandHex` writes its argument out 32 times. */
  lemma ExpandHexRepeats(twoHex: string)
    ensures ExpandHex(twoHex) == Repeat(twoHex, 32)
  {
    assert Repeat(twoHex, 1) == twoHex by { assert twoHex + "" == twoHex; }
    RepeatAdd(twoHex, 1, 1);
    RepeatAdd(twoHex, 2, 1);
    RepeatAdd(twoHex, 3, 1);
    RepeatAdd(twoHex, 4, 4);
    RepeatAdd(twoHex, 8, 4);
    RepeatAdd(twoHex, 12, 4);
    RepeatAdd(twoHex, 16, 16);
  }

  /** Every one of the 32 copies in `expandHex(h)` is `h` character for character. */
  lemma {:induction false} ExpandHexAt(h: string, k: nat, j: nat)
    requires k < 32 && j < |h|
    ensures k * |h| + j < |ExpandHex(h)| && ExpandHex(h)[k * |h| + j] == h[j]
  {
    ExpandHexRepeats(h);
    RepeatAt(h, 32, k, j);
  }

  /** `n` copies of the byte `b`. */
  function RepeatByte(b: Byte, n: nat): (r: seq<Byte>)
    ensures |r| == n && forall i :: 0 <= i < n ==> r[i] == b
  {
    seq(n, _ => b)
  }

  /** The lower-case hex digit of a value below 16. */
  function HexDigit(d: nat): (c: char)
    requires d < 16
  {
    if d < 10 then ('0' as int + d) as char else ('a' as int + d - 10) as char
  }

  /** The value of a hex digit of either case; None for any other character. */
  function DigitValue(c: char): (r: Option<nat>)
    ensures r.Some? ==> r.value < 16
  {
    if '0' <= c <= '9' then Some(c as int - '0' as int)
    else if 'a' <= c <= 'f' then Some(c as int - 'a' as int + 10)
    else if 'A' <= c <= 'F' then Some(c as int - 'A' as int + 10)
    else None
  }

  /** Two lower-case hex digits, high nibble first. */
  function ByteToHex(b: Byte): (r: string)
    ensures |r| == 2
    ensures DigitValue(r[0]) == Some(b as int / 16) && DigitValue(r[1]) == Some(b as int % 16)
  {
    [HexDigit(b as int / 16), HexDigit(b as int % 16)]
  }

  /** Hex encoding of a byte string, two characters per byte. */
  function BytesToHex(bs: seq<Byte>): (r: string)
    ensures |r| == 2 * |bs|
  {
    if bs == [] then "" else ByteToHex(bs[0]) + BytesToHex(bs[1..])
  }

  /** Decodes a hex string; None when its length is odd or a character is not a hex digit. */
  function HexToBytes(s: string): (r: Option<seq<Byte>>)
    ensures r.Some? ==> 2 * |r.value| == |s|
    decreases |s|
  {
    if |s| == 0 then Some([])
    else if |s| == 1 then None
    else match (DigitValue(s[0]), DigitValue(s[1]), HexToBytes(s[2..]))
      case (Some(hi), Some(lo), Some(rest)) => Some([(hi * 16 + lo) as Byte] + rest)
      case _ => None
  }

  /** Decoding undoes encoding: every byte string survives the trip through hex. */
  lemma {:induction false} HexRoundTrip(bs: seq<Byte>)
    ensures HexToBytes(BytesToHex(bs)) == Some(bs)
  {
    if bs != [] {
      var s := BytesToHex(bs);
      assert s[2..] == BytesToHex(bs[1..]);
      HexRoundTrip(bs[1..]);
      var b := bs[0];
      assert ((b as int / 16) * 16 + b as int % 16) as Byte == b;
      assert [bs[0]] + bs[1..] == bs;
    }
  }

  /** Encoding is a homomorphism from byte concatenation to string concatenation. */
  lemma {:induction false} BytesToHexAppend(a: seq<Byte>, b: seq<Byte>)
    ensures BytesToHex(a + b) == BytesToHex(a) + BytesToHex(b)
  {
    if a != [] {
      assert (a + b)[0] == a[0] && (a + b)[1..] == a[1..] + b;
      BytesToHexAppend(a[1..], b);
      calc {
        BytesToHex(a + b);
        ByteToHex(a[0]) + BytesToHex(a[1..] + b);
        ByteToHex(a[0]) + (BytesToHex(a[1..]) + BytesToHex(b));
        (ByteToHex(a[0]) + BytesToHex(a[1..])) + BytesToHex(b);
      }
    } else {
      assert a + b == b;
    }
  }

  /** The hex of `n` equal bytes is the byte's two digits repeated `n` times. */
  lemma {:induction false} BytesToHexRepeat(b: Byte, n: nat)
    ensures BytesToHex(RepeatByte(b, n)) == Repeat(ByteToHex(b), n)
  {
    if n > 0 {
      assert RepeatByte(b, n) == [b] + RepeatByte(b, n - 1);
      BytesToHexAppend([b], RepeatByte(b, n - 1));
      BytesToHexRepeat(b, n - 1);
    }
  }

  /** `expandHex` of a byte's two digits encodes 32 copies of that byte. */
  lemma ExpandHexEncodes(b: Byte)
    ensures ExpandHex(ByteToHex(b)) == BytesToHex(RepeatByte(b, 32))
  {
    ExpandHexRepeats(ByteToHex(b));
    BytesToHexRepeat(b, 32);
  }

  /** The test's `expandBytes`: `expandHex` followed by hex decoding. */
  function ExpandBytes(twoHex: string): (r: Option<seq<Byte>>)
    ensures r.Some? ==> |r.value| == |twoHex| * 16
  {
    HexToBytes(ExpandHex(twoHex))
  }

  /** `expandBytes` of a byte's two digits is 32 copies of that byte. */
  lemma ExpandBytesDecodes(b: Byte)
    ensures ExpandBytes(ByteToHex(b)) == Some(RepeatByte(b, 32))
  {
    ExpandHexEncodes(b);
    HexRoundTrip(RepeatByte(b, 32));
  }

  /** Byte-wise exclusive-or of two byte strings of the same length. */
  function Xor(a: seq<Byte>, b: seq<Byte>): (r: seq<Byte>)
    requires |a| == |b|
    ensures |r| == |a|
  {
    seq(|a|, i requires 0 <= i < |a| => a[i] ^ b[i])
  }

  /** Xor with the same operand twice gives back the other operand. */
  lemma XorSelfInverse(a: seq<Byte>, b: seq<Byte>)
    requires |a| == |b|
    ensures Xor(a, Xor(a, b)) == b
    ensures Xor(Xor(b, a), a) == b
  {
  }

  /** Xor of two runs of equal bytes is the run of the bytes' exclusive-or. */
  lemma XorRepeat(x: Byte, y: Byte, n: nat)
    ensures Xor(RepeatByte(x, n), RepeatByte(y, n)) == RepeatByte(x ^ y, n)
  {
  }
}
