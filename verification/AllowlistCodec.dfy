/**
 The WebRequest allowlist blob (scripts/webrequest_allowlist_codec.py): a joined URL list
 under a front checksum, run through a byte-feedback cipher, byte-swapped and printed as
 hexadecimal digits.
 */
module AllowlistCodec {
  import opened Options
  import Text

  type Byte = n: int | 0 <= n < 0x100
  type Bytes = seq<Byte>

  const KEY: Bytes := [
    0xe2, 0x30, 0x54, 0xb4, 0xde, 0xe5, 0xcc, 0x04,
    0x9c, 0x70, 0x8f, 0x3c, 0x6b, 0x87, 0x78, 0xf0]

  // ---------------------------------------------------------------- exclusive or

  function Pow2(bits: nat): nat { if bits == 0 then 1 else 2 * Pow2(bits - 1) }

  // The lowest bits of the two numbers, bit by bit.
  function XorBits(a: nat, b: nat, bits: nat): (r: nat)
    ensures r < Pow2(bits)
  {
    if bits == 0 then 0 else 2 * XorBits(a / 2, b / 2, bits - 1) + (if a % 2 == b % 2 then 0 else 1)
  }

  lemma {:induction false} XorBitsTwice(a: nat, b: nat, bits: nat)
    requires b < Pow2(bits)
    ensures XorBits(a, XorBits(a, b, bits), bits) == b
  {
    if bits > 0 {
      var r := XorBits(a, b, bits);
      assert r / 2 == XorBits(a / 2, b / 2, bits - 1);
      XorBitsTwice(a / 2, b / 2, bits - 1);
    }
  }

  lemma {:induction false} XorBitsSwap(a: nat, b: nat, bits: nat)
    ensures XorBits(a, b, bits) == XorBits(b, a, bits)
  {
    if bits > 0 {
      XorBitsSwap(a / 2, b / 2, bits - 1);
    }
  }

  lemma EightBits()
    ensures Pow2(8) == 0x100
  {
    assert Pow2(4) == 16;
    assert Pow2(6) == 64;
  }

  function Xor(a: Byte, b: Byte): Byte {
    EightBits();
    XorBits(a, b, 8)
  }

  lemma XorTwice(a: Byte, b: Byte)
    ensures Xor(a, Xor(a, b)) == b
  {
    EightBits();
    XorBitsTwice(a, b, 8);
  }

  lemma XorSwap(a: Byte, b: Byte)
    ensures Xor(a, b) == Xor(b, a)
  {
    XorBitsSwap(a, b, 8);
  }

  // How a byte at position i is mixed with the cipher byte before it.
  type Mixing = (Byte, nat, Byte) -> Byte

  function Shifted(prev: Byte, k: Byte): Byte { (prev + k) % 0x100 }

  function Mixed(prev: Byte, i: nat, x: Byte): Byte { Xor(Shifted(prev, KEY[i % 16]), x) }

  // ---------------------------------------------------------------- the cipher

  // The rest of the text from position i on, after the cipher byte `prev`.
  function EncodeFrom(mix: Mixing, pt: Bytes, i: nat, prev: Byte): (ct: Bytes)
    ensures |ct| == |pt|
  {
    if pt == [] then []
    else
      var c := mix(prev, i, pt[0]);
      [c] + EncodeFrom(mix, pt[1..], i + 1, c)
  }

  function DecodeFrom(mix: Mixing, ct: Bytes, i: nat, prev: Byte): (pt: Bytes)
    ensures |pt| == |ct|
  {
    if ct == [] then [] else [mix(prev, i, ct[0])] + DecodeFrom(mix, ct[1..], i + 1, ct[0])
  }

  function Encode(pt: Bytes): Bytes { EncodeFrom(Mixed, pt, 0, 0) }

  function Decode(ct: Bytes): Bytes { DecodeFrom(Mixed, ct, 0, 0) }

  // Mixing twice with the same bytes gives the byte back.
  ghost predicate Reversible(mix: Mixing) {
    forall prev, i, x :: mix(prev, i, mix(prev, i, x)) == x
  }

  // A difference on either side shows in the mixed byte.
  ghost predicate Spreading(mix: Mixing) {
    && (forall a, b, i, x :: a != b ==> mix(a, i, x) != mix(b, i, x))
    && (forall a, i, x, y :: x != y ==> mix(a, i, x) != mix(a, i, y))
  }

  lemma MixedIsReversible()
    ensures Reversible(Mixed) && Spreading(Mixed)
  {
    forall prev, i: nat, x
      ensures Mixed(prev, i, Mixed(prev, i, x)) == x
    {
      XorTwice(Shifted(prev, KEY[i % 16]), x);
    }
    forall a, b, i: nat, x, y
      ensures a != b ==> Mixed(a, i, x) != Mixed(b, i, x)
      ensures x != y ==> Mixed(a, i, x) != Mixed(a, i, y)
    {
      MixedDiffer(a, b, KEY[i % 16], x, y);
    }
  }

  lemma MixedDiffer(a: Byte, b: Byte, k: Byte, x: Byte, y: Byte)
    ensures Xor(Shifted(a, k), x) == Xor(Shifted(b, k), x) ==> a == b
    ensures Xor(Shifted(a, k), x) == Xor(Shifted(a, k), y) ==> x == y
  {
    XorInjective(Shifted(a, k), x, y);
    XorSwap(Shifted(a, k), x);
    XorSwap(Shifted(b, k), x);
    XorInjective(x, Shifted(a, k), Shifted(b, k));
    ShiftInjective(a, b, k);
  }

  lemma XorInjective(p: Byte, x: Byte, y: Byte)
    ensures Xor(p, x) == Xor(p, y) ==> x == y
  {
    XorTwice(p, x);
    XorTwice(p, y);
  }

  lemma ShiftInjective(a: Byte, b: Byte, k: Byte)
    ensures Shifted(a, k) == Shifted(b, k) ==> a == b
  {
  }

  lemma {:induction false} DecodeEncodeFrom(mix: Mixing, b: Bytes, i: nat, prev: Byte)
    requires Reversible(mix)
    ensures DecodeFrom(mix, EncodeFrom(mix, b, i, prev), i, prev) == b
  {
    if b != [] {
      var c := mix(prev, i, b[0]);
      DecodeEncodeFrom(mix, b[1..], i + 1, c);
      var ct := EncodeFrom(mix, b, i, prev);
      assert ct[0] == c && ct[1..] == EncodeFrom(mix, b[1..], i + 1, c);
      assert mix(prev, i, c) == b[0];
      assert b == [b[0]] + b[1..];
    }
  }

  lemma {:induction false} EncodeDecodeFrom(mix: Mixing, b: Bytes, i: nat, prev: Byte)
    requires Reversible(mix)
    ensures EncodeFrom(mix, DecodeFrom(mix, b, i, prev), i, prev) == b
  {
    if b != [] {
      EncodeDecodeFrom(mix, b[1..], i + 1, b[0]);
      assert DecodeFrom(mix, b, i, prev)[1..] == DecodeFrom(mix, b[1..], i + 1, b[0]);
      assert b == [b[0]] + b[1..];
    }
  }

  /** The two cipher directions are inverse bijections on the byte strings of each length. */
  lemma CipherIsABijection(b: Bytes)
    ensures Decode(Encode(b)) == b && Encode(Decode(b)) == b
    ensures |Encode(b)| == |b| && |Decode(b)| == |b|
  {
    MixedIsReversible();
    DecodeEncodeFrom(Mixed, b, 0, 0);
    EncodeDecodeFrom(Mixed, b, 0, 0);
  }

  // Every cipher byte takes in the one before it.
  lemma {:induction false} EncodedByte(mix: Mixing, pt: Bytes, i: nat, prev: Byte, k: nat)
    requires k < |pt|
    ensures var ct := EncodeFrom(mix, pt, i, prev); ct[k] == mix(if k == 0 then prev else ct[k - 1], i + k, pt[k])
    decreases k
  {
    if k > 0 {
      EncodedByte(mix, pt[1..], i + 1, mix(prev, i, pt[0]), k - 1);
    }
  }

  lemma {:induction false} AgreeBefore(mix: Mixing, p: Bytes, q: Bytes, i: nat, k: nat)
    requires k < i <= |p| && i <= |q| && forall n :: 0 <= n < i ==> p[n] == q[n]
    ensures EncodeFrom(mix, p, 0, 0)[k] == EncodeFrom(mix, q, 0, 0)[k]
    decreases k
  {
    EncodedByte(mix, p, 0, 0, k);
    EncodedByte(mix, q, 0, 0, k);
    if k > 0 {
      AgreeBefore(mix, p, q, i, k - 1);
    }
  }

  lemma {:induction false} DifferFrom(mix: Mixing, p: Bytes, q: Bytes, i: nat, j: nat, k: nat)
    requires Spreading(mix)
    requires i <= k < j <= |p| && j <= |q| && p[i] != q[i]
    requires forall n :: 0 <= n < j && n != i ==> p[n] == q[n]
    ensures EncodeFrom(mix, p, 0, 0)[k] != EncodeFrom(mix, q, 0, 0)[k]
    decreases k
  {
    EncodedByte(mix, p, 0, 0, k);
    EncodedByte(mix, q, 0, 0, k);
    if k > i {
      DifferFrom(mix, p, q, i, j, k - 1);
    } else if k > 0 {
      AgreeBefore(mix, p, q, i, k - 1);
    }
  }

  /** Two plaintexts that first differ at byte i have ciphertexts that agree before i and
      differ at every byte from i up to the next plaintext difference j. */
  lemma FirstDifferenceSpreads(p: Bytes, q: Bytes, i: nat, j: nat)
    requires i < j <= |p| && j <= |q| && p[i] != q[i]
    requires forall n :: 0 <= n < j && n != i ==> p[n] == q[n]
    ensures forall k :: 0 <= k < i ==> Encode(p)[k] == Encode(q)[k]
    ensures forall k :: i <= k < j ==> Encode(p)[k] != Encode(q)[k]
  {
    MixedIsReversible();
    forall k | 0 <= k < i
      ensures Encode(p)[k] == Encode(q)[k]
    {
      AgreeBefore(Mixed, p, q, i, k);
    }
    forall k | i <= k < j
      ensures Encode(p)[k] != Encode(q)[k]
    {
      DifferFrom(Mixed, p, q, i, j, k);
    }
  }

  /** The encoding loop: the running byte is the last one written. */
  method EncodeCfb(pt: Bytes) returns (out: array<Byte>)
    ensures out[..] == Encode(pt)
  {
    out := EncodeWith(Mixed, pt);
  }

  method EncodeWith(mix: Mixing, pt: Bytes) returns (out: array<Byte>)
    ensures out[..] == EncodeFrom(mix, pt, 0, 0)
  {
    ghost var ct := EncodeFrom(mix, pt, 0, 0);
    out := new Byte[|pt|];
    var prev: Byte := 0;
    var i := 0;
    while i < |pt|
      invariant 0 <= i <= |pt|
      invariant prev == if i == 0 then 0 else ct[i - 1]
      invariant out[..i] == ct[..i]
    {
      EncodedByte(mix, pt, 0, 0, i);
      var c := mix(prev, i, pt[i]);
      out[i] := c;
      prev := c;
      i := i + 1;
    }
  }

  lemma {:induction false} DecodedByte(mix: Mixing, ct: Bytes, i: nat, prev: Byte, k: nat)
    requires k < |ct|
    ensures DecodeFrom(mix, ct, i, prev)[k] == mix(if k == 0 then prev else ct[k - 1], i + k, ct[k])
    decreases k
  {
    if k > 0 {
      DecodedByte(mix, ct[1..], i + 1, ct[0], k - 1);
    }
  }

  /** The decoding loop: the running byte is the last one read. */
  method DecodeCfb(ct: Bytes) returns (out: array<Byte>)
    ensures out[..] == Decode(ct)
  {
    out := DecodeWith(Mixed, ct);
  }

  method DecodeWith(mix: Mixing, ct: Bytes) returns (out: array<Byte>)
    ensures out[..] == DecodeFrom(mix, ct, 0, 0)
  {
    ghost var pt := DecodeFrom(mix, ct, 0, 0);
    out := new Byte[|ct|];
    var prev: Byte := 0;
    var i := 0;
    while i < |ct|
      invariant 0 <= i <= |ct|
      invariant prev == if i == 0 then 0 else ct[i - 1]
      invariant out[..i] == pt[..i]
    {
      DecodedByte(mix, ct, 0, 0, i);
      out[i] := mix(prev, i, ct[i]);
      prev := ct[i];
      i := i + 1;
    }
  }

  // ---------------------------------------------------------------- byte order

  // Neighbouring bytes swapped; an odd last byte stays.
  function Swapped(b: Bytes): (r: Bytes)
    ensures |r| == |b|
  {
    seq(|b|, i requires 0 <= i < |b| => if i % 2 == 1 then b[i - 1] else if i + 1 < |b| then b[i + 1] else b[i])
  }

  lemma SwapTwice(b: Bytes)
    ensures Swapped(Swapped(b)) == b
  {
  }

  method Swap16(b: array<Byte>)
    modifies b
    ensures b[..] == Swapped(old(b[..]))
  {
    var i := 0;
    while i < b.Length - 1
      invariant 0 <= i <= b.Length && i % 2 == 0
      invariant forall k :: 0 <= k < i ==> b[k] == Swapped(old(b[..]))[k]
      invariant forall k :: i <= k < b.Length ==> b[k] == old(b[k])
    {
      b[i], b[i + 1] := b[i + 1], b[i];
      i := i + 2;
    }
  }

  // ---------------------------------------------------------------- hexadecimal digits

  const DIGITS := "0123456789ABCDEF"

  function HexByte(b: Byte): string { [DIGITS[b / 16], DIGITS[b % 16]] }

  function ToHex(b: Bytes): string {
    if b == [] then "" else HexByte(b[0]) + ToHex(b[1..])
  }

  function HexValue(c: char): (v: Option<nat>)
    ensures v.Some? ==> v.value < 16
  {
    if '0' <= c <= '9' then Some(c as int - '0' as int)
    else if 'a' <= c <= 'f' then Some(c as int - 'a' as int + 10)
    else if 'A' <= c <= 'F' then Some(c as int - 'A' as int + 10)
    else None
  }

  predicate AsciiSpace(c: char) { c == ' ' || 9 <= c as int <= 13 }

  // bytes.fromhex: digits of either case, white space allowed between bytes.
  function FromHex(s: string): Option<Bytes> {
    if s == "" then Some([])
    else if AsciiSpace(s[0]) then FromHex(s[1..])
    else if |s| == 1 then None
    else
      var hi, lo := HexValue(s[0]), HexValue(s[1]);
      if hi == None || lo == None then None
      else
        var rest := FromHex(s[2..]);
        if rest == None then None else Some([16 * hi.value + lo.value] + rest.value)
  }

  lemma HexByteBack(b: Byte)
    ensures var h := HexByte(b);
      !Text.IsSpace(h[0]) && !Text.IsSpace(h[1]) && !AsciiSpace(h[0])
      && HexValue(h[0]).Some? && HexValue(h[1]).Some? && 16 * HexValue(h[0]).value + HexValue(h[1]).value == b
  {
    NibbleBack(b / 16);
    NibbleBack(b % 16);
  }

  lemma NibbleBack(n: nat)
    requires n < 16
    ensures HexValue(DIGITS[n]) == Some(n)
    ensures !Text.IsSpace(DIGITS[n]) && !AsciiSpace(DIGITS[n])
  {
  }

  // Two digits of one byte in front of the digits of others.
  lemma HexStep(h: string, rest: string, x: Byte, others: Bytes)
    requires |h| == 2 && !AsciiSpace(h[0]) && HexValue(h[0]).Some? && HexValue(h[1]).Some?
    requires 16 * HexValue(h[0]).value + HexValue(h[1]).value == x && FromHex(rest) == Some(others)
    requires !Text.IsSpace(h[0]) && !Text.IsSpace(h[1]) && Text.Trim(rest)
    ensures FromHex(h + rest) == Some([x] + others) && Text.Trim(h + rest)
  {
    assert (h + rest)[2..] == rest;
    assert rest == "" ==> h + rest == h;
  }

  lemma {:induction false} HexBack(b: Bytes)
    ensures FromHex(ToHex(b)) == Some(b)
    ensures Text.Trim(ToHex(b))
  {
    if b != [] {
      HexByteBack(b[0]);
      HexBack(b[1..]);
      HexStep(HexByte(b[0]), ToHex(b[1..]), b[0], b[1..]);
      assert b == [b[0]] + b[1..];
    }
  }

  // ---------------------------------------------------------------- UTF-16

  // One character as its one or two UTF-16 code units.
  function UnitsOf(c: char): (u: seq<nat>)
    ensures 1 <= |u| <= 2 && forall i :: 0 <= i < |u| ==> u[i] < 0x1_0000
  {
    var n := c as int;
    if n < 0x1_0000 then [n] else [0xd800 + (n - 0x1_0000) / 0x400, 0xdc00 + (n - 0x1_0000) % 0x400]
  }

  function Utf16(s: string): (u: seq<nat>)
    ensures |u| >= |s| && forall i :: 0 <= i < |u| ==> u[i] < 0x1_0000
  {
    if s == [] then [] else UnitsOf(s[0]) + Utf16(s[1..])
  }

  // Strict decoding: an unpaired surrogate is an error.
  function FromUtf16(u: seq<nat>): Option<string> {
    if u == [] then Some("")
    else if u[0] < 0xd800 || 0xe000 <= u[0] < 0x1_0000 then
      var rest := FromUtf16(u[1..]);
      if rest == None then None else Some([u[0] as char] + rest.value)
    else if u[0] < 0xdc00 && |u| >= 2 && 0xdc00 <= u[1] < 0xe000 then
      var rest := FromUtf16(u[2..]);
      if rest == None then None
      else Some([(0x1_0000 + (u[0] - 0xd800) * 0x400 + (u[1] - 0xdc00)) as char] + rest.value)
    else None
  }

  lemma {:induction false} Utf16Back(s: string)
    ensures FromUtf16(Utf16(s)) == Some(s)
  {
    if s != [] {
      Utf16Back(s[1..]);
      var n, u, rest := s[0] as int, UnitsOf(s[0]), Utf16(s[1..]);
      assert (u + rest)[|u|..] == rest;
      assert s == [s[0]] + s[1..];
    }
  }

  predicate Bmp(s: string) { forall i :: 0 <= i < |s| ==> s[i] as int < 0x1_0000 }

  lemma {:induction false} BmpIff(s: string)
    ensures |Utf16(s)| == |s| <==> Bmp(s)
  {
    if s != [] {
      BmpIff(s[1..]);
    }
  }

  // ---------------------------------------------------------------- the checksum

  function Sum(u: seq<nat>): nat {
    if u == [] then 0 else u[0] + Sum(u[1..])
  }

  // The first `n` code units count.
  function CheckUnits(u: seq<nat>, n: nat): nat
    requires n <= |u|
  {
    Sum(u[..n]) % 0x1_0000
  }

  // The code takes as many code units as the string has characters.
  function Checksum(s: string): nat { CheckUnits(Utf16(s), |s|) }

  lemma {:induction false} SumOfChange(u: seq<nat>, k: nat, v: nat)
    requires k < |u|
    ensures Sum(u[k := v]) + u[k] == Sum(u) + v
  {
    if k > 0 {
      SumOfChange(u[1..], k - 1, v);
      assert u[k := v][1..] == u[1..][k - 1 := v];
    } else {
      assert u[k := v][1..] == u[1..];
    }
  }

  /** Changing one code unit changes the checksum exactly when that unit is among the first
      `n`, so for a BMP string always. */
  lemma CheckSeesUnitIff(u: seq<nat>, n: nat, k: nat, v: nat)
    requires n <= |u| && k < |u| && v < 0x1_0000 && u[k] < 0x1_0000 && v != u[k]
    ensures CheckUnits(u[k := v], n) != CheckUnits(u, n) <==> k < n
  {
    if k < n {
      SumOfChange(u[..n], k, v);
      assert u[k := v][..n] == u[..n][k := v];
      ModDiffers(Sum(u[..n]), Sum(u[..n][k := v]), u[k], v);
    } else {
      assert u[k := v][..n] == u[..n];
    }
  }

  lemma ModDiffers(s: nat, t: nat, a: nat, b: nat)
    requires a < 0x1_0000 && b < 0x1_0000 && a != b && t + a == s + b
    ensures t % 0x1_0000 != s % 0x1_0000
  {
  }

  lemma {:induction false} SumOfParts(u: seq<nat>, n: nat)
    requires n <= |u|
    ensures Sum(u) == Sum(u[..n]) + Sum(u[n..])
  {
    if n > 0 {
      SumOfParts(u[1..], n - 1);
      assert u[..n][1..] == u[1..][..n - 1] && u[1..][n - 1..] == u[n..];
    } else {
      assert u[0..] == u && u[..0] == [];
    }
  }

  /** The checksum is the documented sum of all code units exactly when the units past the
      first |s| add up to a multiple of 2^16; a BMP string has no such units. */
  lemma ChecksumIsDocumentedIff(s: string)
    ensures Checksum(s) == Sum(Utf16(s)) % 0x1_0000 <==> Sum(Utf16(s)[|s|..]) % 0x1_0000 == 0
    ensures Bmp(s) ==> Utf16(s)[|s|..] == [] && Checksum(s) == Sum(Utf16(s)) % 0x1_0000
  {
    CheckIsSumIff(Utf16(s), |s|);
    if Bmp(s) {
      BmpIff(s);
      CheckAll(Utf16(s));
    }
  }

  lemma Utf16Front(front: string, c: char, s: string)
    requires front == [c]
    ensures Utf16(front + s) == UnitsOf(c) + Utf16(s)
  {
    assert (front + s)[0] == c && (front + s)[1..] == s;
  }

  lemma {:induction false} Utf16Append(a: string, b: string)
    ensures Utf16(a + b) == Utf16(a) + Utf16(b)
  {
    if a == [] {
      assert a + b == b;
    } else {
      Utf16Append(a[1..], b);
      Utf16Front(a[..1], a[0], a[1..] + b);
      Assoc(a[..1], a[1..], b);
      assert a[..1] + a[1..] == a;
      Assoc(UnitsOf(a[0]), Utf16(a[1..]), Utf16(b));
    }
  }

  /** A string whose only character beyond the BMP is its last one has a checksum that is not
      the documented sum: the low surrogate is left out. */
  lemma LastSurrogateDropped(init: string, c: char)
    requires Bmp(init) && c as int >= 0x1_0000
    ensures Checksum(init + [c]) != Sum(Utf16(init + [c])) % 0x1_0000
  {
    BmpIff(init);
    Utf16Append(init, [c]);
    Utf16Front([c], c, "");
    assert [c] + "" == [c];
    LastUnit(Utf16(init), UnitsOf(c));
    ChecksumIsDocumentedIff(init + [c]);
  }

  lemma LastUnit(head: seq<nat>, pair: seq<nat>)
    requires |pair| == 2 && 0 < pair[1] < 0x1_0000
    ensures Sum((head + (pair + []))[|head| + 1..]) % 0x1_0000 != 0
  {
    assert (head + (pair + []))[|head| + 1..] == [pair[1]];
    assert Sum([pair[1]]) == pair[1] + Sum([]);
  }

  lemma CheckIsSumIff(u: seq<nat>, n: nat)
    requires n <= |u|
    ensures CheckUnits(u, n) == Sum(u) % 0x1_0000 <==> Sum(u[n..]) % 0x1_0000 == 0
  {
    SumOfParts(u, n);
    ModOfParts(Sum(u), Sum(u[..n]), Sum(u[n..]));
  }

  lemma ModOfParts(total: nat, a: nat, b: nat)
    requires total == a + b
    ensures a % 0x1_0000 == total % 0x1_0000 <==> b % 0x1_0000 == 0
  {
    ModSum(a, b);
  }

  lemma CheckAll(u: seq<nat>)
    ensures CheckUnits(u, |u|) == Sum(u) % 0x1_0000 && u[|u|..] == []
  {
    assert u[..|u|] == u;
  }

  lemma ModSum(a: nat, b: nat)
    ensures (a + b) % 0x1_0000 == a % 0x1_0000 <==> b % 0x1_0000 == 0
  {
  }

  // ---------------------------------------------------------------- the blob

  function UnitBytes(u: seq<nat>): (b: Bytes)
    requires forall i :: 0 <= i < |u| ==> u[i] < 0x1_0000
    ensures |b| == 2 * |u|
  {
    if u == [] then [] else UnitPair(u[0]) + UnitBytes(u[1..])
  }

  // The low byte first.
  function UnitPair(n: nat): (b: Bytes)
    requires n < 0x1_0000
    ensures |b| == 2
  {
    [n % 0x100, n / 0x100]
  }

  // An odd byte count is an error.
  function BytesUnits(b: Bytes): Option<seq<nat>> {
    if b == [] then Some([])
    else if |b| == 1 then None
    else
      var rest := BytesUnits(b[2..]);
      if rest == None then None else Some([UnitOf(b[0], b[1])] + rest.value)
  }

  function UnitOf(low: Byte, high: Byte): nat { low + 0x100 * high }

  lemma UnitOfPair(n: nat)
    requires n < 0x1_0000
    ensures UnitOf(UnitPair(n)[0], UnitPair(n)[1]) == n
  {
  }

  lemma {:induction false} UnitBytesBack(u: seq<nat>)
    requires forall i :: 0 <= i < |u| ==> u[i] < 0x1_0000
    ensures BytesUnits(UnitBytes(u)) == Some(u)
  {
    if u != [] {
      UnitBytesBack(u[1..]);
      UnitOfPair(u[0]);
      BytesStep(u[0], UnitPair(u[0]), UnitBytes(u[1..]), u[1..]);
      assert u == [u[0]] + u[1..];
    }
  }

  lemma BytesStep(n: nat, pair: Bytes, rest: Bytes, units: seq<nat>)
    requires |pair| == 2 && UnitOf(pair[0], pair[1]) == n && BytesUnits(rest) == Some(units)
    ensures BytesUnits(pair + rest) == Some([n] + units)
  {
    assert (pair + rest)[2..] == rest;
  }

  const HEADER: nat := 1

  function Plaintext(joined: string): Bytes {
    UnitBytes([HEADER, Checksum(joined)] + Utf16(joined))
  }

  function EncodeUrls(urls: seq<string>): string {
    ToHex(Swapped(Encode(Plaintext(Text.Join(urls, ';')))))
  }

  // The decoder skips the first four bytes unread.
  function ReadPlaintext(pt: Bytes): Option<seq<string>> {
    var units := BytesUnits(if |pt| <= 4 then [] else pt[4..]);
    if units == None then None
    else
      var body := FromUtf16(units.value);
      if body == None then None
      else if body.value == "" then Some([])
      else Some(Text.Split(body.value, ';'))
  }

  function DecodeBlob(blob: string): Option<seq<string>> {
    var raw := FromHex(Text.Strip(blob));
    if raw == None then None else ReadPlaintext(Decode(Swapped(raw.value)))
  }

  lemma BlobBack(pt: Bytes)
    ensures var blob := ToHex(Swapped(Encode(pt))); DecodeBlob(blob) == ReadPlaintext(pt) && Text.Trim(blob)
  {
    var raw := Swapped(Encode(pt));
    HexBack(raw);
    assert Text.Strip(ToHex(raw)) == ToHex(raw);
    SwapTwice(Encode(pt));
    CipherIsABijection(pt);
  }

  lemma PlaintextBack(joined: string)
    ensures ReadPlaintext(Plaintext(joined)) == Some(if joined == "" then [] else Text.Split(joined, ';'))
  {
    var units := [HEADER, Checksum(joined)] + Utf16(joined);
    assert units[1..] == [Checksum(joined)] + Utf16(joined) && units[1..][1..] == Utf16(joined);
    var pt := Plaintext(joined);
    assert pt[2..] == UnitBytes(units[1..]);
    assert pt[2..][2..] == UnitBytes(Utf16(joined));
    assert pt[4..] == pt[2..][2..];
    assert |pt| <= 4 ==> UnitBytes(Utf16(joined)) == [];
    UnitBytesBack(Utf16(joined));
    Utf16Back(joined);
  }

  /** Decoding a blob gives its URL list back exactly when no URL holds the delimiter and
      the list is not one empty URL; so always for non-empty URLs without ';'. */
  lemma DecodeOfEncode(urls: seq<string>)
    ensures DecodeBlob(EncodeUrls(urls)) == Some(urls) <==> Text.Without(urls, ';') && urls != [""]
    ensures Text.Trim(EncodeUrls(urls)) && EncodeUrls(urls) != ""
  {
    var joined := Text.Join(urls, ';');
    BlobBack(Plaintext(joined));
    PlaintextBack(joined);
    Text.SplitOfJoin(urls, ';');
    assert |Plaintext(joined)| >= 4;
    assert Swapped(Encode(Plaintext(joined))) != [];
  }
}
