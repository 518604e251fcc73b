/** ICON addresses: 21 bytes, printed as "cx" or "hx" and 40 digits (relayer/chains/icon/types/types.go). */
module IconAddress {
  import opened BigInts
  import opened IconHex
  import opened RelayTypes

  /** NewAddress: the empty address for anything but 21 bytes led by 0 or 1. */
  function NewAddress(b: seq<byte>): string {
    if |b| != 21 then ""
    else if b[0] == 1 then "cx" + EncodeToString(b[1..])
    else if b[0] == 0 then "hx" + EncodeToString(b[1..])
    else ""
  }

  /** Valid bytes, an error, or a run-time panic: slicing a string shorter than two characters, and
      decoding more than twenty bytes into twenty. */
  datatype Decoded = Bytes(bytes: seq<byte>) | Invalid | Panicked

  /** The first pair at or after pair i that is not two hexadecimal digits. */
  function GoodPairs(s: string, i: nat): (n: nat)
    ensures i <= n
    decreases |s| - 2 * i
  {
    if 2 * i + 1 < |s| && IsHex(s[2 * i]) && IsHex(s[2 * i + 1]) then GoodPairs(s, i + 1) else i
  }

  lemma {:induction false} GoodPairsAreHex(s: string, i: nat)
    requires 2 * i <= |s| && AllHex(s[..2 * i])
    ensures 2 * GoodPairs(s, i) <= |s| && AllHex(s[..2 * GoodPairs(s, i)])
    decreases |s| - 2 * i
  {
    if 2 * i + 1 < |s| && IsHex(s[2 * i]) && IsHex(s[2 * i + 1]) {
      assert s[..2 * (i + 1)] == s[..2 * i] + [s[2 * i], s[2 * i + 1]];
      GoodPairsAreHex(s, i + 1);
    }
  }

  /** The bytes of the leading good pairs. */
  function LeadingBytes(s: string): seq<byte> {
    GoodPairsAreHex(s, 0);
    PairBytes(s[..2 * GoodPairs(s, 0)])
  }

  function AddressValue(a: string): Decoded {
    if |a| < 2 then Panicked
    else if a[..2] != "cx" && a[..2] != "hx" then Invalid
    else
      var body := a[2..];
      if GoodPairs(body, 0) > 20 then Panicked
      else if GoodPairs(body, 0) == 20 && |body| == 40 then Bytes([if a[0] == 'c' then 1 else 0] + LeadingBytes(body))
      else Invalid
  }

  /** What the decoder has read and written after i pairs. */
  ghost predicate Decoding(body: string, i: nat, written: seq<byte>) {
    2 * i <= |body| && AllHex(body[..2 * i]) && GoodPairs(body, i) == GoodPairs(body, 0) &&
    written == PairBytes(body[..2 * i])
  }

  lemma PrefixGrows(s: string, k: nat)
    requires k + 1 < |s|
    ensures s[..k + 2] == s[..k] + [s[k], s[k + 1]]
  {
  }

  lemma GoodPairsStep(s: string, i: nat)
    requires 2 * i + 1 < |s|
    ensures GoodPairs(s, i) == if IsHex(s[2 * i]) && IsHex(s[2 * i + 1]) then GoodPairs(s, i + 1) else i
  {
  }

  lemma DecodingStep(body: string, i: nat, written: seq<byte>)
    requires Decoding(body, i, written) && 2 * i + 1 < |body|
    ensures !(IsHex(body[2 * i]) && IsHex(body[2 * i + 1])) ==> GoodPairs(body, 0) == i
    ensures IsHex(body[2 * i]) && IsHex(body[2 * i + 1]) ==>
      GoodPairs(body, 0) > i &&
      Decoding(body, i + 1, written + [16 * HexValue(body[2 * i]) + HexValue(body[2 * i + 1])])
  {
    hide IsHex, HexValue, PairBytes, AllHex, GoodPairs;
    GoodPairsStep(body, i);
    if IsHex(body[2 * i]) && IsHex(body[2 * i + 1]) {
      PrefixGrows(body, 2 * i);
      HexAppended(body[..2 * i], body[2 * i], body[2 * i + 1]);
      PairAppended(body[..2 * i], body[2 * i], body[2 * i + 1]);
    }
  }

  lemma DecodingDone(body: string, i: nat, written: seq<byte>)
    requires Decoding(body, i, written) && 2 * i + 1 >= |body|
    ensures GoodPairs(body, 0) == i && (|body| % 2 == 0 ==> written == LeadingBytes(body))
  {
  }

  /** Address.Value, with hex.Decode written out: it checks a pair, then writes its byte. */
  method Value(a: string) returns (r: Decoded)
    ensures r == AddressValue(a)
  {
    if |a| < 2 { return Panicked; }
    var b := new byte[21](_ => 0);
    if a[..2] == "cx" {
      b[0] := 1;
    } else if a[..2] != "hx" {
      return Invalid;
    }
    var body := a[2..];
    var i := 0;
    hide PairBytes, AllHex, IsHex, HexValue, GoodPairs, Decoding, LeadingBytes;
    StartDecoding(body, b[1..1]);
    while 2 * i + 1 < |body|
      invariant i <= 20
      invariant b[0] == if a[..2] == "cx" then 1 else 0
      invariant Decoding(body, i, b[1..i + 1])
    {
      DecodingStep(body, i, b[1..i + 1]);
      if !IsHex(body[2 * i]) || !IsHex(body[2 * i + 1]) { return Invalid; }
      if i == 20 { return Panicked; }
      ghost var before := b[1..i + 1];
      b[i + 1] := 16 * HexValue(body[2 * i]) + HexValue(body[2 * i + 1]);
      i := i + 1;
      assert b[1..i + 1] == before + [b[i]];
    }
    DecodingDone(body, i, b[1..i + 1]);
    if |body| % 2 == 1 || i != 20 { return Invalid; }
    assert b[..] == [b[0]] + b[1..21];
    r := Bytes(b[..]);
  }

  lemma StartDecoding(body: string, written: seq<byte>)
    requires written == []
    ensures Decoding(body, 0, written)
  {
  }

  lemma {:induction false} AllPairsGood(s: string, i: nat)
    requires AllHex(s) && |s| % 2 == 0 && 2 * i <= |s|
    ensures GoodPairs(s, i) == |s| / 2
    decreases |s| - 2 * i
  {
    if 2 * i + 1 < |s| {
      AllPairsGood(s, i + 1);
    }
  }

  /** An address is accepted exactly when it is a known prefix and forty hexadecimal digits. */
  lemma AcceptedAddresses(a: string)
    ensures AddressValue(a).Bytes? <==> |a| == 42 && (a[..2] == "cx" || a[..2] == "hx") && AllHex(a[2..])
    ensures AddressValue(a).Bytes? ==>
      AddressValue(a).bytes == [if a[0] == 'c' then 1 else 0] + PairBytes(a[2..])
  {
    if |a| == 42 {
      var body := a[2..];
      GoodPairsAreHex(body, 0);
      if AllHex(body) {
        AllPairsGood(body, 0);
      }
      if GoodPairs(body, 0) == 20 {
        assert body[..40] == body;
      }
    }
  }

  /** Printing then reading gives back every 21-byte array led by 0 or 1. */
  lemma PrintThenRead(b: seq<byte>)
    requires |b| == 21 && b[0] <= 1
    ensures AddressValue(NewAddress(b)) == Bytes(b)
  {
    var a := NewAddress(b);
    assert a[..2] == (if b[0] == 1 then "cx" else "hx") && a[2..] == EncodeToString(b[1..]);
    AcceptedAddresses(a);
    EncodeDecode(b[1..]);
    assert b == [b[0]] + b[1..];
  }

  function LowerHex(c: char): char
    requires IsHex(c)
  {
    HexDigit(HexValue(c))
  }

  function Lower(s: string): (r: string)
    requires AllHex(s)
    ensures |r| == |s| && forall i :: 0 <= i < |s| ==> r[i] == LowerHex(s[i])
  {
    seq(|s|, i requires 0 <= i < |s| => LowerHex(s[i]))
  }

  /** Only the letters A to F change, into a to f. */
  lemma LowerHexLetters(c: char)
    requires IsHex(c)
    ensures LowerHex(c) == if 'A' <= c <= 'F' then 'a' + (c - 'A') else c
  {
  }

  lemma LowerUnfold(x: string, s: string, a: char, b: char)
    requires |x| == |s| + 2 && x[..|s|] == s && x[|s|] == a && x[|s| + 1] == b
    requires AllHex(x) && AllHex(s) && IsHex(a) && IsHex(b)
    ensures Lower(x) == Lower(s) + [LowerHex(a), LowerHex(b)]
  {
    hide IsHex, LowerHex;
    assert forall i :: 0 <= i < |s| ==> x[i] == s[i];
  }

  lemma EncodePair(bs: seq<byte>, a: char, b: char)
    requires IsHex(a) && IsHex(b)
    ensures EncodeToString(bs + [16 * HexValue(a) + HexValue(b)]) == EncodeToString(bs) + [LowerHex(a), LowerHex(b)]
  {
    hide EncodeToString, IsHex, HexValue, HexDigit;
    EncodeAppended(bs, 16 * HexValue(a) + HexValue(b));
  }

  lemma HexParts(s: string)
    requires |s| >= 2 && AllHex(s)
    ensures AllHex(s[..|s| - 2]) && IsHex(s[|s| - 2]) && IsHex(s[|s| - 1])
  {
    hide IsHex;
  }

  lemma EncodeNothing()
    ensures AllHex("") && EncodeToString(PairBytes("")) == Lower("")
  {
  }

  lemma {:induction false} EncodePairs(s: string)
    requires AllHex(s) && |s| % 2 == 0
    ensures EncodeToString(PairBytes(s)) == Lower(s)
  {
    hide PairBytes, EncodeToString, Lower, AllHex, IsHex, HexValue, HexDigit, LowerHex;
    if s == "" {
      EncodeNothing();
    } else {
      var n := |s| - 2;
      HexParts(s);
      EncodePairs(s[..n]);
      PairBytesUnfold(s, s[..n], s[n], s[n + 1]);
      LowerUnfold(s, s[..n], s[n], s[n + 1]);
      EncodePair(PairBytes(s[..n]), s[n], s[n + 1]);
    }
  }

  /** Reading then printing lower-cases the digits and changes nothing else. */
  lemma ReadThenPrint(a: string)
    requires AddressValue(a).Bytes?
    ensures AllHex(a[2..]) && NewAddress(AddressValue(a).bytes) == a[..2] + Lower(a[2..])
  {
    AcceptedAddresses(a);
    EncodePairs(a[2..]);
    var b := AddressValue(a).bytes;
    assert b[1..] == PairBytes(a[2..]);
    assert a[..2] == "cx" <==> a[0] == 'c';
  }
}
