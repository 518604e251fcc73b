/** The hexadecimal codec of the ICON provider (relayer/chains/icon/types/types.go). */
module IconHex {
  import opened BigInts
  import opened RelayTypes

  const INT64_LIMIT: nat := 0x8000_0000_0000_0000
  const INT32_LIMIT: nat := 0x8000_0000

  // ----- Hexadecimal digits

  predicate IsHex(c: char) {
    '0' <= c <= '9' || 'a' <= c <= 'f' || 'A' <= c <= 'F'
  }

  function HexValue(c: char): (v: nat)
    requires IsHex(c)
    ensures v < 16
  {
    if c <= '9' then c as int - '0' as int
    else if c <= 'F' then c as int - 'A' as int + 10
    else c as int - 'a' as int + 10
  }

  function HexDigit(v: nat): (c: char)
    requires v < 16
    ensures IsHex(c) && HexValue(c) == v && c != '-' && c != '+'
  {
    if v < 10 then '0' + v as char else 'a' + (v - 10) as char
  }

  /** The digits in their order. */
  lemma HexDigits(v: nat)
    requires v < 16
    ensures HexDigit(v) == "0123456789abcdef"[v]
    ensures IsHex("0123456789abcdef"[v]) && HexValue("0123456789abcdef"[v]) == v
    ensures IsHex("0123456789ABCDEF"[v]) && HexValue("0123456789ABCDEF"[v]) == v
  {
  }

  /** And no other character is one. */
  lemma HexCharacters(c: char)
    ensures IsHex(c) <==> c in "0123456789abcdefABCDEF"
  {
    if IsHex(c) {
      assert if HexValue(c) < 10 then c == "0123456789abcdefABCDEF"[HexValue(c)]
             else c == "0123456789abcdefABCDEF"[HexValue(c)] || c == "0123456789abcdefABCDEF"[HexValue(c) + 6];
    }
  }

  predicate AllHex(s: string) {
    forall i :: 0 <= i < |s| ==> IsHex(s[i])
  }

  function Base16(s: string): nat
    requires AllHex(s)
  {
    if s == "" then 0 else 16 * Base16(s[..|s| - 1]) + HexValue(s[|s| - 1])
  }

  /** The value of a digit depends on how many follow it. */
  lemma {:induction false} Base16Leading(c: char, s: string)
    requires IsHex(c) && AllHex(s)
    ensures AllHex([c] + s) && Base16([c] + s) == HexValue(c) * Pow2(4 * |s|) + Base16(s)
    decreases |s|
  {
    if s == "" {
      assert ([c] + s)[..0] == "";
    } else {
      var n := |s| - 1;
      Base16Leading(c, s[..n]);
      assert ([c] + s)[..|s|] == [c] + s[..n] && ([c] + s)[|s|] == s[n];
      hide IsHex, HexValue, Pow2;
      SixteenMore(HexValue(c), 4 * n);
    }
  }

  lemma SixteenMore(v: nat, n: nat)
    ensures v * Pow2(n + 4) == 16 * (v * Pow2(n))
  {
    assert Pow2(n + 4) == 2 * Pow2(n + 3) && Pow2(n + 3) == 2 * Pow2(n + 2) && Pow2(n + 2) == 2 * Pow2(n + 1);
  }

  /** hex.DecodeString: an odd length or a character that is no digit is an error. */
  function DecodeString(s: string): Option<seq<byte>> {
    if |s| % 2 == 1 || !AllHex(s) then None else Some(PairBytes(s))
  }

  function PairBytes(s: string): (r: seq<byte>)
    requires |s| % 2 == 0 && AllHex(s)
    ensures |r| == |s| / 2
  {
    if s == "" then []
    else PairBytes(s[..|s| - 2]) + [16 * HexValue(s[|s| - 2]) + HexValue(s[|s| - 1])]
  }

  /** hex.EncodeToString. */
  function EncodeToString(bs: seq<byte>): (s: string)
    ensures |s| == 2 * |bs| && AllHex(s)
  {
    if bs == [] then ""
    else EncodeToString(bs[..|bs| - 1]) + [HexDigit(bs[|bs| - 1] / 16), HexDigit(bs[|bs| - 1] % 16)]
  }

  lemma HexAppended(s: string, a: char, b: char)
    requires AllHex(s) && IsHex(a) && IsHex(b)
    ensures AllHex(s + [a, b])
  {
  }

  lemma PairAppended(s: string, a: char, b: char)
    requires |s| % 2 == 0 && AllHex(s) && IsHex(a) && IsHex(b)
    ensures AllHex(s + [a, b]) && PairBytes(s + [a, b]) == PairBytes(s) + [16 * HexValue(a) + HexValue(b)]
  {
    HexAppended(s, a, b);
    PairBytesUnfold(s + [a, b], s, a, b);
  }

  lemma PairBytesUnfold(x: string, s: string, a: char, b: char)
    requires |x| % 2 == 0 && AllHex(x) && |x| == |s| + 2 && x[..|s|] == s && x[|s|] == a && x[|s| + 1] == b
    requires AllHex(s) && IsHex(a) && IsHex(b)
    ensures PairBytes(x) == PairBytes(s) + [16 * HexValue(a) + HexValue(b)]
  {
    hide AllHex, IsHex, HexValue;
  }

  lemma EncodeAppended(bs: seq<byte>, x: byte)
    ensures EncodeToString(bs + [x]) == EncodeToString(bs) + [HexDigit(x / 16), HexDigit(x % 16)]
  {
    hide HexDigit;
    assert (bs + [x])[..|bs|] == bs && (bs + [x])[|bs|] == x;
  }

  /** Two lower-case digits for each byte, the high one first. */
  lemma {:induction false} EncodeAt(bs: seq<byte>, i: nat)
    requires i < |bs|
    ensures EncodeToString(bs)[2 * i] == "0123456789abcdef"[bs[i] / 16]
    ensures EncodeToString(bs)[2 * i + 1] == "0123456789abcdef"[bs[i] % 16]
  {
    var n := |bs| - 1;
    if i < n {
      EncodeAt(bs[..n], i);
    } else {
      HexDigits(bs[i] / 16);
      HexDigits(bs[i] % 16);
    }
  }

  lemma {:induction false} EncodeDecode(bs: seq<byte>)
    ensures DecodeString(EncodeToString(bs)) == Some(bs)
  {
    if bs != [] {
      hide PairBytes, AllHex, IsHex, HexValue;
      var n := |bs| - 1;
      EncodeDecode(bs[..n]);
      PairAppended(EncodeToString(bs[..n]), HexDigit(bs[n] / 16), HexDigit(bs[n] % 16));
      assert bs == bs[..n] + [bs[n]];
    }
  }

  lemma Base16Two(s: string)
    requires |s| >= 2 && AllHex(s)
    ensures Base16(s) == 256 * Base16(s[..|s| - 2]) + (16 * HexValue(s[|s| - 2]) + HexValue(s[|s| - 1]))
  {
    hide IsHex, HexValue;
    var n := |s|;
    assert s[..n - 1][..n - 2] == s[..n - 2] && s[..n - 1][n - 2] == s[n - 2];
    assert Base16(s[..n - 1]) == 16 * Base16(s[..n - 2]) + HexValue(s[n - 2]);
  }

  lemma Base256Last(bs: seq<byte>, x: byte)
    ensures Base256(bs + [x]) == 256 * Base256(bs) + x
  {
    assert (bs + [x])[..|bs|] == bs;
  }

  /** Reading digits in pairs as base-256 bytes gives the base-16 value. */
  lemma {:induction false} PairsKeepValue(s: string)
    requires |s| % 2 == 0 && AllHex(s)
    ensures Base256(PairBytes(s)) == Base16(s)
  {
    if s != "" {
      var n := |s|;
      PairsKeepValue(s[..n - 2]);
      Base16Two(s);
      Base256Last(PairBytes(s[..n - 2]), 16 * HexValue(s[n - 2]) + HexValue(s[n - 1]));
      hide Base16, Base256, AllHex, IsHex, HexValue;
    }
  }

  lemma {:induction false} PaddingKeepsValue(s: string)
    requires AllHex(s)
    ensures AllHex("0" + s) && Base16("0" + s) == Base16(s)
  {
    if s == "" {
      assert ("0" + s)[..0] == "";
    } else {
      PaddingKeepsValue(s[..|s| - 1]);
      assert ("0" + s)[..|s|] == "0" + s[..|s| - 1];
    }
  }

  lemma PaddedHex(s: string)
    ensures AllHex("0" + s) <==> AllHex(s)
    ensures AllHex(s) ==> Base16("0" + s) == Base16(s)
  {
    if AllHex(s) {
      PaddingKeepsValue(s);
    } else {
      var i :| 0 <= i < |s| && !IsHex(s[i]);
      assert ("0" + s)[i + 1] == s[i];
    }
  }

  lemma DecodedValue(s: string)
    requires |s| % 2 == 0
    ensures DecodeString(s).Some? <==> AllHex(s)
    ensures AllHex(s) ==> Base256(DecodeString(s).value) == Base16(s)
  {
    if AllHex(s) {
      PairsKeepValue(s);
    }
  }

  // ----- Numbers

  predicate HasPrefix(s: string) {
    |s| >= 2 && s[..2] == "0x"
  }

  /** What is left after the sign and, if more follows, the prefix. */
  function Body(s: string): string {
    var t := if s != "" && s[0] == '-' then s[1..] else s;
    if |t| > 2 && t[..2] == "0x" then t[2..] else t
  }

  method DecodeHexNumber(s: string) returns (negative: bool, bytes: Option<seq<byte>>)
    ensures negative <==> s != "" && s[0] == '-'
    ensures bytes.Some? <==> AllHex(Body(s))
    ensures bytes.Some? ==> Base256(bytes.value) == Base16(Body(s))
  {
    var t := s;
    negative := false;
    if |t| > 0 && t[0] == '-' {
      negative := true;
      t := t[1..];
    }
    if |t| > 2 && t[..2] == "0x" {
      t := t[2..];
    }
    assert t == Body(s);
    PaddedHex(t);
    hide Body, AllHex, Base16, DecodeString, Base256;
    if |t| % 2 == 1 {
      t := "0" + t;
    }
    bytes := DecodeString(t);
    DecodedValue(t);
  }

  /** What ParseBigInt stores, or None on its error. */
  function BigValue(s: string): Option<int> {
    if !AllHex(Body(s)) then None
    else
      var v: int := Base16(Body(s));
      Some(if s != "" && s[0] == '-' then -v else v)
  }

  method ParseBigInt(i: BigInt, s: string) returns (ok: bool)
    modifies i
    ensures ok == BigValue(s).Some?
    ensures i.value == if ok then BigValue(s).value else old(i.value)
  {
    var negative, bytes := DecodeHexNumber(s);
    if bytes.None? { return false; }
    var z := i.SetBytes(bytes.value);
    if negative { z := i.Neg(i); }
    ok := true;
  }

  lemma SecondDigit(t: string)
    requires AllHex(t)
    ensures t != "" ==> t[0] != '-'
    ensures |t| > 2 ==> t[..2] != "0x"
  {
    assert t != "" ==> IsHex(t[0]);
    if |t| > 2 { assert IsHex(t[1]) && t[..2][1] == t[1]; }
  }

  lemma Bodies(t: string)
    requires AllHex(t)
    ensures Body(t) == Body("-" + t) == t
    ensures t != "" ==> Body("0x" + t) == Body("-" + ("0x" + t)) == t
    ensures Body("0x") == Body("-0x") == "0x"
  {
    SecondDigit(t);
    hide AllHex;
    assert ("-" + t)[1..] == t && "-0x"[1..] == "0x" && ("-" + ("0x" + t))[1..] == "0x" + t;
    assert ("0x" + t)[..2] == "0x" && ("0x" + t)[2..] == t;
  }

  lemma BareDigits(t: string)
    requires AllHex(t)
    ensures t != "" ==> t[0] != '-'
    ensures !AllHex("0x")
  {
    assert t != "" ==> IsHex(t[0]);
    assert !IsHex("0x"[1]);
  }

  /** Digits, signed or not, with or without the prefix; the prefix alone is no number. */
  lemma BigForms(t: string)
    requires AllHex(t)
    ensures var v: int := Base16(t);
      && BigValue(t) == Some(v) && BigValue("-" + t) == Some(-v)
      && (t != "" ==> BigValue("0x" + t) == Some(v) && BigValue("-" + ("0x" + t)) == Some(-v))
    ensures BigValue("0x") == BigValue("-0x") == None
  {
    hide Body, Base16, AllHex;
    BareDigits(t);
    Bodies(t);
  }

  /** strconv.ParseInt in base 16: an optional sign, at least one digit, and a range check. */
  function ParseInt(s: string, limit: nat): Option<int> {
    var negative := s != "" && s[0] == '-';
    var digits := if s != "" && (s[0] == '-' || s[0] == '+') then s[1..] else s;
    if digits == "" || !AllHex(digits) then None
    else
      var v: int := Base16(digits);
      if negative then (if v <= limit then Some(-v) else None)
      else if v < limit then Some(v) else None
  }

  /** A sign, then digits, and the range of the width. */
  lemma ParseSigned(t: string, limit: nat)
    requires t != "" && AllHex(t)
    ensures var v: int := Base16(t);
      && ParseInt(t, limit) == ParseInt("+" + t, limit) == (if v < limit then Some(v) else None)
      && ParseInt("-" + t, limit) == (if v <= limit then Some(-v) else None)
  {
    assert IsHex(t[0]);
    assert ("+" + t)[1..] == t && ("-" + t)[1..] == t;
  }

  function TrimPrefix(s: string): string {
    if HasPrefix(s) then s[2..] else s
  }

  /** HexInt.Value. */
  function Value(s: string): Option<int> {
    ParseInt(TrimPrefix(s), INT64_LIMIT)
  }

  /** HexInt.Int64, which parses 32 bits in spite of its name. */
  function Int64(s: string): Option<int> {
    ParseInt(TrimPrefix(s), INT32_LIMIT)
  }

  function FormatNat(n: nat): string {
    if n < 16 then [HexDigit(n)] else FormatNat(n / 16) + [HexDigit(n % 16)]
  }

  function FormatInt(v: int): string {
    if v < 0 then "-" + FormatNat(-v) else FormatNat(v)
  }

  function NewHexInt(v: int): string {
    "0x" + FormatInt(v)
  }

  lemma {:induction false} FormatParses(n: nat)
    ensures FormatNat(n) != "" && AllHex(FormatNat(n)) && Base16(FormatNat(n)) == n
  {
    if n < 16 {
      assert [HexDigit(n)][..0] == "";
    } else {
      FormatParses(n / 16);
      assert FormatNat(n)[..|FormatNat(n)| - 1] == FormatNat(n / 16);
    }
  }

  /** No leading zero. */
  lemma {:induction false} FormatLeads(n: nat)
    ensures FormatNat(n) != "" && (FormatNat(n)[0] == '0' <==> n == 0)
  {
    if n >= 16 {
      FormatLeads(n / 16);
    }
  }

  lemma Trimmed(t: string)
    ensures TrimPrefix("0x" + t) == t
  {
    assert ("0x" + t)[..2] == "0x" && ("0x" + t)[2..] == t;
  }

  lemma NoDigits()
    ensures Value("") == Value("0x") == Value("-") == Int64("0x") == None
  {
    assert "0x"[..2] == "0x" && "0x"[2..] == "" && "-"[1..] == "";
  }

  /** Value undoes NewHexInt on every int64; Int64 does exactly on every int32. */
  lemma NewHexIntValue(v: int)
    requires -0x8000_0000_0000_0000 <= v < 0x8000_0000_0000_0000
    ensures Value(NewHexInt(v)) == Some(v)
    ensures Int64(NewHexInt(v)) == if -0x8000_0000 <= v < 0x8000_0000 then Some(v) else None
  {
    hide ParseInt, FormatNat, AllHex, Base16, TrimPrefix;
    var digits := FormatNat(if v < 0 then -v else v);
    Trimmed(FormatInt(v));
    FormatParses(if v < 0 then -v else v);
    ParseSigned(digits, INT64_LIMIT);
    ParseSigned(digits, INT32_LIMIT);
  }

  lemma PrefixedBody(t: string)
    requires t != ""
    ensures Body("0x" + t) == t
  {
    assert ("0x" + t)[0] == '0' && ("0x" + t)[..2] == "0x" && ("0x" + t)[2..] == t;
  }

  /** BigInt undoes NewHexInt exactly on the numbers that are not negative: it wants the sign before the prefix. */
  lemma NewHexIntBig(v: int)
    ensures BigValue(NewHexInt(v)) == if v >= 0 then Some(v) else None
  {
    FormatParses(if v < 0 then -v else v);
    PrefixedBody(FormatInt(v));
    assert NewHexInt(v)[0] == '0';
    if v < 0 {
      assert FormatInt(v)[0] == '-';
    }
  }

  /** For "0x" and any digits, whatever their parity, ParseBigInt gives the base-16 value, and Value
      gives the same exactly below 2^63. */
  lemma PrefixedDigits(t: string)
    requires t != "" && AllHex(t)
    ensures BigValue("0x" + t) == Some(Base16(t))
    ensures Value("0x" + t) == if Base16(t) < 0x8000_0000_0000_0000 then Some(Base16(t)) else None
  {
    PrefixedBody(t);
    Trimmed(t);
    assert ("0x" + t)[0] == '0';
    assert IsHex(t[0]);
  }

  lemma ParsedDigits(s: string, limit: nat)
    requires ParseInt(s, limit).Some?
    ensures s != "" && if s[0] == '-' || s[0] == '+' then s[1..] != "" && AllHex(s[1..]) else AllHex(s)
  {
  }

  lemma PlusIsNoDigit(s: string)
    requires s != "" && s[0] == '+'
    ensures BigValue(s) == None
  {
    assert Body(s) == s && !IsHex(s[0]);
  }

  /** On every string on which both parsers succeed they agree. */
  lemma ParsersAgree(s: string)
    requires Value(s).Some? && BigValue(s).Some?
    ensures Value(s) == BigValue(s)
  {
    var t := TrimPrefix(s);
    ParsedDigits(t, INT64_LIMIT);
    if HasPrefix(s) {
      assert s == "0x" + t && s[0] == '0' && Body(s) == t;
      hide ParseInt, Base16, Body;
      PrefixedDigits(t);
    } else {
      if s[0] == '+' { PlusIsNoDigit(s); }
      var digits := if s[0] == '-' then s[1..] else s;
      assert s[0] == '-' ==> s == "-" + digits;
      hide ParseInt, Base16, Body, BigValue;
      BigForms(digits);
      ParseSigned(digits, INT64_LIMIT);
    }
  }

  // ----- Byte strings

  function NewHexBytes(bs: seq<byte>): string {
    "0x" + EncodeToString(bs)
  }

  /** HexBytes.Value of a string that is empty or has its two-character prefix. */
  function HexBytesValue(s: string): Option<seq<byte>>
    requires s == "" || |s| >= 2
  {
    if s == "" then Some([]) else DecodeString(s[2..])
  }

  lemma HexBytesRoundTrip(bs: seq<byte>)
    ensures HexBytesValue(NewHexBytes(bs)) == Some(bs)
    ensures |NewHexBytes(bs)| == 2 + 2 * |bs| && NewHexBytes(bs)[..2] == "0x"
    ensures forall i :: 0 <= i < |bs| ==>
      NewHexBytes(bs)[2 + 2 * i] == "0123456789abcdef"[bs[i] / 16] && NewHexBytes(bs)[3 + 2 * i] == "0123456789abcdef"[bs[i] % 16]
  {
    EncodeDecode(bs);
    assert NewHexBytes(bs)[2..] == EncodeToString(bs);
    forall i | 0 <= i < |bs|
      ensures NewHexBytes(bs)[2 + 2 * i] == "0123456789abcdef"[bs[i] / 16] && NewHexBytes(bs)[3 + 2 * i] == "0123456789abcdef"[bs[i] % 16]
    {
      EncodeAt(bs, i);
      assert NewHexBytes(bs)[2 + 2 * i] == NewHexBytes(bs)[2..][2 * i] && NewHexBytes(bs)[3 + 2 * i] == NewHexBytes(bs)[2..][2 * i + 1];
    }
  }
}
