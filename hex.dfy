/** Hexadecimal text as Ethereum's JSON-RPC uses it.
    - `EncodeBytes` is Go's hex.EncodeToString (lower-case, no prefix).
    - `EncodeData` is go-ethereum's hexutil.Encode, the DATA encoding: "0x"
      followed by two lower-case digits per byte.
    - `EncodeUint64` is hexutil.EncodeUint64, the QUANTITY encoding: "0x"
      followed by the shortest lower-case hex numeral ("0x0" for zero).
    The decoders are the readers a JSON-RPC peer applies; the round-trip
    lemmas below relate each encoder to its decoder in both directions. */
module Hex {
  import opened Results
  import opened EthTypes
  import opened Text

  predicate IsLowerHexDigit(c: char) {
    ('0' <= c <= '9') || ('a' <= c <= 'f')
  }

  predicate IsHexDigit(c: char) {
    IsLowerHexDigit(c) || ('A' <= c <= 'F')
  }

  predicate AllLowerHex(s: string) {
    forall k :: 0 <= k < |s| ==> IsLowerHexDigit(s[k])
  }

  predicate AllHex(s: string) {
    forall k :: 0 <= k < |s| ==> IsHexDigit(s[k])
  }

  function DigitValue(c: char): (d: nat)
    requires IsHexDigit(c)
    ensures d < 16
    ensures d == 0 <==> c == '0'
  {
    if '0' <= c <= '9' then c as int - '0' as int
    else if 'a' <= c <= 'f' then c as int - 'a' as int + 10
    else c as int - 'A' as int + 10
  }

  function HexDigit(d: nat): (c: char)
    requires d < 16
    ensures IsLowerHexDigit(c) && DigitValue(c) == d
  {
    if d < 10 then ('0' as int + d) as char else ('a' as int + d - 10) as char
  }

  lemma DigitRoundTrip(c: char)
    requires IsLowerHexDigit(c)
    ensures HexDigit(DigitValue(c)) == c
  {
  }

  /** hex.EncodeToString: two lower-case digits per byte, high nibble first. */
  function EncodeBytes(b: seq<Byte>): (r: string)
    ensures |r| == 2 * |b|
    ensures AllLowerHex(r)
  {
    if b == [] then [] else [HexDigit(b[0] / 16), HexDigit(b[0] % 16)] + EncodeBytes(b[1..])
  }

  /** Reads pairs of hex digits back into bytes; None for an odd length or a
      character that is not a hex digit. */
  function DecodeBytes(s: string): (r: Option<seq<Byte>>)
    ensures r.Some? ==> 2 * |r.value| == |s|
    decreases |s|
  {
    if s == [] then Some([])
    else if |s| == 1 || !IsHexDigit(s[0]) || !IsHexDigit(s[1]) then None
    else
      match DecodeBytes(s[2..])
      case None => None
      case Some(rest) => Some([DigitValue(s[0]) * 16 + DigitValue(s[1])] + rest)
  }

  lemma {:induction false} DecodeEncodeBytes(b: seq<Byte>)
    ensures DecodeBytes(EncodeBytes(b)) == Some(b)
  {
    if b != [] {
      var s := EncodeBytes(b);
      assert s[2..] == EncodeBytes(b[1..]);
      DecodeEncodeBytes(b[1..]);
      assert [b[0]] + b[1..] == b;
    }
  }

  lemma {:induction false} EncodeDecodeBytes(s: string)
    requires AllLowerHex(s)
    requires DecodeBytes(s).Some?
    ensures EncodeBytes(DecodeBytes(s).value) == s
    decreases |s|
  {
    if s != [] {
      var rest := DecodeBytes(s[2..]).value;
      var hi, lo := DigitValue(s[0]), DigitValue(s[1]);
      var x: Byte := hi * 16 + lo;
      assert DecodeBytes(s).value == [x] + rest;
      assert x / 16 == hi && x % 16 == lo;
      DigitRoundTrip(s[0]);
      DigitRoundTrip(s[1]);
      EncodeDecodeBytes(s[2..]);
      assert ([x] + rest)[1..] == rest;
      assert s == s[..2] + s[2..];
    }
  }

  /** hexutil.Encode: the JSON-RPC DATA encoding of a byte string. */
  function EncodeData(b: seq<Byte>): (r: string)
    ensures |r| == 2 + 2 * |b| && HasPrefix(r, "0x") && AllLowerHex(r[2..])
  {
    "0x" + EncodeBytes(b)
  }

  /** Reads DATA back: a "0x"/"0X" prefix and an even number of hex digits. */
  function DecodeData(s: string): Option<seq<Byte>> {
    if |s| >= 2 && s[0] == '0' && (s[1] == 'x' || s[1] == 'X') then DecodeBytes(s[2..]) else None
  }

  lemma DataRoundTrip(b: seq<Byte>)
    ensures DecodeData(EncodeData(b)) == Some(b)
  {
    assert EncodeData(b)[2..] == EncodeBytes(b);
    DecodeEncodeBytes(b);
  }

  /** Every lower-case DATA string that decodes is the encoding of what it
      decodes to: the encoding is the only spelling of its bytes. */
  lemma DataCanonical(s: string)
    requires HasPrefix(s, "0x") && AllLowerHex(s[2..])
    requires DecodeData(s).Some?
    ensures EncodeData(DecodeData(s).value) == s
  {
    EncodeDecodeBytes(s[2..]);
    assert s == s[..2] + s[2..];
  }

  /** The shortest base-16 numeral of `n`, in lower case. */
  function NatToHex(n: nat): (r: string)
    ensures |r| >= 1 && AllLowerHex(r)
    decreases n
  {
    if n < 16 then [HexDigit(n)] else NatToHex(n / 16) + [HexDigit(n % 16)]
  }

  /** The value of a base-16 numeral (most significant digit first). */
  function HexToNat(s: string): nat
    requires AllHex(s)
    decreases |s|
  {
    if s == [] then 0 else HexToNat(s[..|s| - 1]) * 16 + DigitValue(s[|s| - 1])
  }

  lemma {:induction false} HexToNatOfNatToHex(n: nat)
    ensures HexToNat(NatToHex(n)) == n
    decreases n
  {
    if n >= 16 {
      var s := NatToHex(n);
      assert s[..|s| - 1] == NatToHex(n / 16);
      HexToNatOfNatToHex(n / 16);
    }
  }

  /** The numeral has no leading zero: only zero itself is spelled with '0'
      first. */
  lemma {:induction false} NatToHexMinimal(n: nat)
    ensures NatToHex(n)[0] == '0' <==> n == 0
    decreases n
  {
    if n >= 16 {
      NatToHexMinimal(n / 16);
    }
  }

  function Pow16(k: nat): (r: nat)
    ensures r >= 1
  {
    if k == 0 then 1 else 16 * Pow16(k - 1)
  }

  lemma Pow16Of16()
    ensures Pow16(16) == U64Modulus
  {
    assert Pow16(1) == 0x10;
    assert Pow16(2) == 0x100;
    assert Pow16(3) == 0x1000;
    assert Pow16(4) == 0x10000;
    assert Pow16(5) == 0x100000;
    assert Pow16(6) == 0x1000000;
    assert Pow16(7) == 0x10000000;
    assert Pow16(8) == 0x100000000;
    assert Pow16(9) == 0x1000000000;
    assert Pow16(10) == 0x10000000000;
    assert Pow16(11) == 0x100000000000;
    assert Pow16(12) == 0x1000000000000;
    assert Pow16(13) == 0x10000000000000;
    assert Pow16(14) == 0x100000000000000;
    assert Pow16(15) == 0x1000000000000000;
    assert Pow16(16) == 0x10000000000000000;
  }

  lemma {:induction false} NatToHexLength(n: nat, k: nat)
    requires 1 <= k && n < Pow16(k)
    ensures |NatToHex(n)| <= k
    decreases n
  {
    if n >= 16 {
      assert k >= 2;
      assert n / 16 < Pow16(k - 1);
      NatToHexLength(n / 16, k - 1);
    }
  }

  lemma {:induction false} LeadingDigitNonZero(s: string)
    requires |s| >= 1 && AllHex(s) && s[0] != '0'
    ensures HexToNat(s) >= Pow16(|s| - 1)
    decreases |s|
  {
    if |s| > 1 {
      LeadingDigitNonZero(s[..|s| - 1]);
    }
  }

  lemma {:induction false} NatToHexOfHexToNat(s: string)
    requires |s| >= 1 && AllLowerHex(s) && (|s| == 1 || s[0] != '0')
    ensures NatToHex(HexToNat(s)) == s
    decreases |s|
  {
    var last := s[|s| - 1];
    DigitRoundTrip(last);
    if |s| > 1 {
      var init := s[..|s| - 1];
      var m := HexToNat(init);
      var v := DigitValue(last);
      LeadingDigitNonZero(init);
      assert m >= 1;
      var n := m * 16 + v;
      assert n / 16 == m && n % 16 == v;
      NatToHexOfHexToNat(init);
      assert s == init + [last];
    }
  }

  /** hexutil.EncodeUint64: the JSON-RPC QUANTITY encoding. */
  function EncodeUint64(n: nat): (r: string)
    requires IsU64(n)
    ensures HasPrefix(r, "0x") && 3 <= |r| <= 18 && AllLowerHex(r[2..])
    ensures r[2] == '0' <==> n == 0
  {
    Pow16Of16();
    NatToHexLength(n, 16);
    NatToHexMinimal(n);
    "0x" + NatToHex(n)
  }

  /** Reads a QUANTITY back: "0x", then at least one hex digit, no leading
      zero unless the numeral is "0", and a value that fits in 64 bits. */
  function DecodeQuantity(s: string): (r: Option<nat>)
    ensures r.Some? ==> IsU64(r.value)
  {
    if |s| < 3 || s[..2] != "0x" then None
    else
      var digits := s[2..];
      if !AllHex(digits) || (|digits| > 1 && digits[0] == '0') then None
      else
        var n := HexToNat(digits);
        if IsU64(n) then Some(n) else None
  }

  lemma QuantityRoundTrip(n: nat)
    requires IsU64(n)
    ensures DecodeQuantity(EncodeUint64(n)) == Some(n)
  {
    var s := EncodeUint64(n);
    assert s[2..] == NatToHex(n);
    HexToNatOfNatToHex(n);
    NatToHexMinimal(n);
  }

  /** A lower-case QUANTITY that decodes is exactly the encoding of its value. */
  lemma QuantityCanonical(s: string)
    requires DecodeQuantity(s).Some? && AllLowerHex(s[2..])
    ensures EncodeUint64(DecodeQuantity(s).value) == s
  {
    NatToHexOfHexToNat(s[2..]);
    assert s == s[..2] + s[2..];
  }
}
