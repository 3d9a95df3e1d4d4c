/** Byte strings read as big-endian numbers, and hexadecimal text. */
module Bytes {

  type byte = b: int | 0 <= b < 256

  /** The number a byte string spells, most significant byte first. */
  function BigEndian(s: seq<byte>): nat {
    Prefix(s, |s|)
  }

  /** The number its first `k` bytes spell. */
  function Prefix(s: seq<byte>, k: nat): nat
    requires k <= |s|
  {
    if k == 0 then 0 else Prefix(s, k - 1) * 256 + s[k - 1]
  }

  lemma {:induction false} PrefixIsLocal(s: seq<byte>, t: seq<byte>, k: nat)
    requires k <= |s| && k <= |t| && forall i :: 0 <= i < k ==> s[i] == t[i]
    ensures Prefix(s, k) == Prefix(t, k)
  {
    if k > 0 {
      PrefixIsLocal(s, t, k - 1);
    }
  }

  /** The shortest byte string that spells `n`; zero needs none. */
  function ToBytes(n: nat): seq<byte> {
    if n == 0 then [] else ToBytes(n / 256) + [n % 256]
  }

  function Zeros(k: nat): seq<byte> {
    seq(k, _ => 0)
  }

  function Pow256(k: nat): nat {
    if k == 0 then 1 else 256 * Pow256(k - 1)
  }

  // Cutting sequences, kept apart from arithmetic on them.

  lemma CutInThree<T>(d: seq<T>, a: nat, b: nat, c: nat)
    requires a < b <= c <= |d|
    ensures d[a..c] == [d[a]] + d[a + 1..b] + d[b..c]
  {
  }

  lemma CutInTwo<T>(d: seq<T>, a: nat, b: nat)
    requires a <= b <= |d|
    ensures d[a..] == d[a..b] + d[b..]
  {
  }

  /** Where the tag, the form and the content of a TLV lie inside a larger sequence. */
  lemma TlvPlace<T>(d: seq<T>, x: seq<T>, tag: T, form: seq<T>, content: seq<T>, z: seq<T>)
    requires d == x + ([tag] + form + content) + z
    ensures var m := |x| + 1 + |form|;
            && d[|x|] == tag
            && d[|x| + 1..m] == form
            && d[m..m + |content|] == content
  {
  }

  lemma OneMoreByte(s: seq<byte>, x: byte)
    ensures BigEndian(s + [x]) == BigEndian(s) * 256 + x
  {
    PrefixIsLocal(s + [x], s, |s|);
  }

  lemma {:induction false} BytesSpellTheNumber(n: nat)
    ensures BigEndian(ToBytes(n)) == n
    ensures n > 0 ==> |ToBytes(n)| > 0 && ToBytes(n)[0] != 0
  {
    if n > 0 {
      BytesSpellTheNumber(n / 256);
      OneMoreByte(ToBytes(n / 256), n % 256);
    }
  }

  /** Every spelling of a number is its shortest spelling behind leading zeros. */
  lemma {:induction false} SpellingIsPadding(c: seq<byte>)
    ensures |ToBytes(BigEndian(c))| <= |c|
    ensures c == Zeros(|c| - |ToBytes(BigEndian(c))|) + ToBytes(BigEndian(c))
  {
    if c != [] {
      var front, x := c[..|c| - 1], c[|c| - 1];
      assert c == front + [x];
      OneMoreByte(front, x);
      SpellingIsPadding(front);
      var n := BigEndian(c);
      assert n / 256 == BigEndian(front) && n % 256 == x;
      if n == 0 {
        assert front == Zeros(|front|);
        assert c == front + [0];
      } else {
        assert ToBytes(n) == ToBytes(n / 256) + [x];
      }
    }
  }

  lemma {:induction false} LengthBound(n: nat, k: nat)
    requires n < Pow256(k)
    ensures |ToBytes(n)| <= k
  {
    if n > 0 {
      assert k > 0;
      LengthBound(n / 256, k - 1);
    }
  }

  lemma {:induction false} ValueBound(c: seq<byte>)
    ensures BigEndian(c) < Pow256(|c|)
  {
    if c != [] {
      var front, x := c[..|c| - 1], c[|c| - 1];
      assert c == front + [x];
      OneMoreByte(front, x);
      ValueBound(front);
    }
  }

  lemma {:induction false} LongerNumbersNeedMoreBytes(m: nat, n: nat)
    requires m <= n
    ensures |ToBytes(m)| <= |ToBytes(n)|
  {
    if m > 0 {
      LongerNumbersNeedMoreBytes(m / 256, n / 256);
    }
  }

  // ---- Hexadecimal text ------------------------------------------------------------

  predicate IsHexChar(c: char) {
    '0' <= c <= '9' || 'a' <= c <= 'f'
  }

  function HexChar(d: nat): (c: char)
    requires d < 16
    ensures IsHexChar(c) && HexValue(c) == d
  {
    if d < 10 then '0' + d as char else 'a' + (d - 10) as char
  }

  function HexValue(c: char): (d: nat)
    requires IsHexChar(c)
    ensures d < 16
  {
    if c <= '9' then c as int - '0' as int else c as int - 'a' as int + 10
  }

  predicate IsHex(s: string) {
    forall i :: 0 <= i < |s| ==> IsHexChar(s[i])
  }

  /** A bigint's `toString(16)`. */
  function HexText(v: nat): (s: string)
    ensures IsHex(s) && |s| > 0
  {
    if v < 16 then [HexChar(v)] else HexText(v / 16) + [HexChar(v % 16)]
  }

  /** The bigint a hexadecimal text reads as. */
  function FromHex(s: string): nat
    requires IsHex(s)
  {
    if s == "" then 0 else FromHex(s[..|s| - 1]) * 16 + HexValue(s[|s| - 1])
  }

  /** Hexadecimal text with a leading zero where the digit count is odd. */
  function EvenHex(v: nat): (s: string)
    ensures IsHex(s) && |s| % 2 == 0 && |s| > 0
  {
    var hex := HexText(v);
    if |hex| % 2 == 0 then hex else "0" + hex
  }

  lemma {:induction false} HexReadsBack(v: nat)
    ensures FromHex(HexText(v)) == v
  {
    var s := HexText(v);
    if v >= 16 {
      HexReadsBack(v / 16);
      assert s[..|s| - 1] == HexText(v / 16);
    } else {
      assert s[..|s| - 1] == "";
    }
  }

  function ZeroText(k: nat): (s: string)
    ensures IsHex(s) && |s| == k
  {
    seq(k, _ => '0')
  }

  lemma {:induction false} LeadingZerosReadAway(k: nat, s: string)
    requires IsHex(s)
    ensures IsHex(ZeroText(k) + s) && FromHex(ZeroText(k) + s) == FromHex(s)
  {
    var t := ZeroText(k) + s;
    if s == "" {
      if k > 0 {
        LeadingZerosReadAway(k - 1, "");
        assert t[..|t| - 1] == ZeroText(k - 1) + "";
      } else {
        assert t == "";
      }
    } else {
      LeadingZerosReadAway(k, s[..|s| - 1]);
      assert t[..|t| - 1] == ZeroText(k) + s[..|s| - 1];
    }
  }

  lemma {:induction false} HexLength(v: nat, k: nat)
    requires k > 0 && v < Pow16(k)
    ensures |HexText(v)| <= k
  {
    if v >= 16 {
      assert Pow16(1) == 16 * Pow16(0);
      HexLength(v / 16, k - 1);
    }
  }

  function Pow16(k: nat): nat {
    if k == 0 then 1 else 16 * Pow16(k - 1)
  }

  /** Two even hexadecimal digits make one byte of the shortest spelling. */
  lemma {:induction false} HexPairsAreBytes(v: nat)
    requires v > 0
    ensures |EvenHex(v)| == 2 * |ToBytes(v)|
    ensures forall i :: 0 <= i < |ToBytes(v)| ==>
              ToBytes(v)[i] == HexValue(EvenHex(v)[2 * i]) * 16 + HexValue(EvenHex(v)[2 * i + 1])
  {
    if v < 256 {
      assert ToBytes(v) == ToBytes(0) + [v];
      if v >= 16 {
        assert HexText(v) == HexText(v / 16) + [HexChar(v % 16)];
      }
    } else {
      HexPairsAreBytes(v / 256);
      var hi, lo := HexChar(v / 16 % 16), HexChar(v % 16);
      assert v / 16 / 16 == v / 256;
      assert HexText(v) == HexText(v / 256) + [hi] + [lo];
      assert EvenHex(v) == EvenHex(v / 256) + [hi, lo];
      assert ToBytes(v) == ToBytes(v / 256) + [v % 256];
      assert v % 256 == HexValue(hi) * 16 + HexValue(lo);
    }
  }
}
