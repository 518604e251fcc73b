/** The keys under which the three stores share one ordered map (relayer/store/common.go), their
    injectivity, and the byte order of the map. Strings stand for byte strings. */
module StoreKeys {

  // ----- Decimal numbers

  function Digit(d: nat): char
    requires d < 10
  {
    '0' + d as char
  }

  function Decimal(n: nat): string {
    if n < 10 then [Digit(n)] else Decimal(n / 10) + [Digit(n % 10)]
  }

  /** big.Int's String. */
  function SnString(sn: int): string {
    if sn < 0 then "-" + Decimal(-sn) else Decimal(sn)
  }

  predicate Digits(s: string) {
    s != "" && forall i :: 0 <= i < |s| ==> '0' <= s[i] <= '9'
  }

  function DecimalValue(s: string): nat
    requires Digits(s)
  {
    var low := (s[|s| - 1] as int) - ('0' as int);
    if |s| == 1 then low else 10 * DecimalValue(s[..|s| - 1]) + low
  }

  lemma {:induction false} DecimalRoundTrip(n: nat)
    ensures Digits(Decimal(n)) && DecimalValue(Decimal(n)) == n
  {
    if n >= 10 {
      DecimalRoundTrip(n / 10);
      assert Decimal(n)[..|Decimal(n)| - 1] == Decimal(n / 10);
    }
  }

  /** No leading zero. */
  lemma {:induction false} DecimalLeads(n: nat)
    ensures Decimal(n) != "" && (Decimal(n)[0] == '0' <==> n == 0)
  {
    if n >= 10 {
      DecimalLeads(n / 10);
    }
  }

  // ----- Joined keys

  /** strings.Join(keys, "-"). */
  function GetKey(parts: seq<string>): string {
    if parts == [] then ""
    else if |parts| == 1 then parts[0]
    else parts[0] + "-" + GetKey(parts[1..])
  }

  function ScopedKey(prefix: string, nid: string, sn: int): string {
    GetKey([prefix, nid, SnString(sn)])
  }

  /** The key of a negative number reads like the key of a longer chain name and a positive one. */
  function Normalized(nid: string, sn: int): (string, nat) {
    if sn < 0 then (nid + "-", -sn) else (nid, sn)
  }

  lemma ScopedKeyForm(prefix: string, nid: string, sn: int)
    ensures var (n, k) := Normalized(nid, sn);
      ScopedKey(prefix, nid, sn) == prefix + "-" + (n + "-" + Decimal(k))
  {
    assert [prefix, nid, SnString(sn)][1..] == [nid, SnString(sn)];
    assert [nid, SnString(sn)][1..] == [SnString(sn)];
    assert GetKey([nid, SnString(sn)]) == nid + "-" + SnString(sn);
    if sn < 0 {
      assert nid + "-" + ("-" + Decimal(-sn)) == (nid + "-") + "-" + Decimal(-sn);
    }
  }

  lemma ChainKeyForm(prefix: string, nid: string)
    ensures GetKey([prefix, nid]) == prefix + "-" + nid
  {
    assert [prefix, nid][1..] == [nid];
  }

  /** Whatever stands before the last '-' is determined, because the decimal has none. */
  lemma SplitLastDash(n: string, d: string, n': string, d': string)
    requires Digits(d) && Digits(d') && n + "-" + d == n' + "-" + d'
    ensures n == n' && d == d'
  {
    var x := n + "-" + d;
    assert x[|n|] == '-' && x[|n'|] == '-';
    assert forall i :: |n| < i < |x| ==> x[i] == d[i - |n| - 1];
    assert forall i :: |n'| < i < |x| ==> x[i] == d'[i - |n'| - 1];
    assert n == x[..|n|] && n' == x[..|n'|];
    assert d == x[|n| + 1..] && d' == x[|n'| + 1..];
  }

  /** Two numbered keys of one store are equal exactly when chain and number are, after the sign
      of a negative number is read as part of the chain name. */
  lemma ScopedKeyEqual(prefix: string, nid: string, sn: int, nid': string, sn': int)
    ensures ScopedKey(prefix, nid, sn) == ScopedKey(prefix, nid', sn') <==> Normalized(nid, sn) == Normalized(nid', sn')
  {
    var (n, k) := Normalized(nid, sn);
    var (n', k') := Normalized(nid', sn');
    ScopedKeyForm(prefix, nid, sn);
    ScopedKeyForm(prefix, nid', sn');
    if ScopedKey(prefix, nid, sn) == ScopedKey(prefix, nid', sn') {
      var x := prefix + "-" + (n + "-" + Decimal(k));
      assert x[|prefix| + 1..] == n + "-" + Decimal(k);
      assert x[|prefix| + 1..] == n' + "-" + Decimal(k');
      DecimalRoundTrip(k);
      DecimalRoundTrip(k');
      SplitLastDash(n, Decimal(k), n', Decimal(k'));
    }
  }

  /** For numbers at least zero the key determines chain and number, dashes in the name or not. */
  lemma ScopedKeyInjective(prefix: string, nid: string, sn: nat, nid': string, sn': nat)
    ensures ScopedKey(prefix, nid, sn) == ScopedKey(prefix, nid', sn') <==> nid == nid' && sn == sn'
  {
    ScopedKeyEqual(prefix, nid, sn, nid', sn');
  }

  /** A negative number collides with its absolute value on the chain named with one more dash. */
  lemma NegativeCollides(prefix: string, nid: string, k: int)
    requires k > 0
    ensures ScopedKey(prefix, nid, -k) == ScopedKey(prefix, nid + "-", k) && nid != nid + "-"
  {
    ScopedKeyEqual(prefix, nid, -k, nid + "-", k);
    assert |nid| != |nid + "-"|;
  }

  // ----- Byte order

  predicate Less(a: string, b: string) {
    b != "" && (a == "" || a[0] < b[0] || (a[0] == b[0] && Less(a[1..], b[1..])))
  }

  /** The order of bytes: a proper prefix comes first, and otherwise the first byte that differs decides. */
  lemma {:induction false} LessIs(a: string, b: string)
    ensures Less(a, b) <==>
      (|a| < |b| && a == b[..|a|]) || (exists i :: 0 <= i < |a| && i < |b| && a[..i] == b[..i] && a[i] < b[i])
  {
    if a != "" && b != "" && a[0] == b[0] {
      LessIs(a[1..], b[1..]);
      assert |a| <= |b| ==> (a == b[..|a|] <==> a[1..] == b[1..][..|a| - 1]) by {
        if |a| <= |b| { assert b[..|a|] == [b[0]] + b[1..][..|a| - 1]; assert a == [a[0]] + a[1..]; }
      }
      if i :| 0 <= i < |a[1..]| && i < |b[1..]| && a[1..][..i] == b[1..][..i] && a[1..][i] < b[1..][i] {
        assert a[..i + 1] == [a[0]] + a[1..][..i] && b[..i + 1] == [b[0]] + b[1..][..i];
        assert a[i + 1] < b[i + 1];
      }
      if i :| 0 <= i < |a| && i < |b| && a[..i] == b[..i] && a[i] < b[i] {
        assert i > 0;
        assert a[1..][..i - 1] == a[..i][1..] && b[1..][..i - 1] == b[..i][1..];
        assert a[1..][i - 1] < b[1..][i - 1];
      }
    } else if a != "" && b != "" {
      SameStart(a, b);
      assert a[..0] == b[..0];
    }
  }

  lemma SameStart(a: string, b: string)
    ensures forall i :: 0 < i <= |a| && i <= |b| && a[..i] == b[..i] ==> a[0] == b[0]
    ensures 0 < |a| <= |b| && a == b[..|a|] ==> a[0] == b[0]
  {
    forall i | 0 < i <= |a| && i <= |b| && a[..i] == b[..i] ensures a[0] == b[0] {
      assert a[..i][0] == b[..i][0];
    }
  }

  lemma {:induction false} LessTrichotomy(a: string, b: string)
    ensures Less(a, b) || a == b || Less(b, a)
  {
    if a != "" && b != "" && a[0] == b[0] {
      LessTrichotomy(a[1..], b[1..]);
      assert a == [a[0]] + a[1..] && b == [b[0]] + b[1..];
    }
  }

  lemma {:induction false} LessIrreflexive(a: string)
    ensures !Less(a, a)
  {
    if a != "" {
      LessIrreflexive(a[1..]);
    }
  }

  lemma {:induction false} LessTransitive(a: string, b: string, c: string)
    requires Less(a, b) && Less(b, c)
    ensures Less(a, c)
  {
    if a != "" && a[0] == b[0] && b[0] == c[0] {
      LessTransitive(a[1..], b[1..], c[1..]);
    }
  }

  predicate IsLeast(m: string, keys: set<string>) {
    m in keys && forall k <- keys :: k == m || Less(m, k)
  }

  lemma {:induction false} LeastExists(keys: set<string>)
    requires keys != {}
    ensures exists m :: IsLeast(m, keys)
  {
    var k :| k in keys;
    if keys == {k} {
      assert IsLeast(k, keys);
    } else {
      LeastExists(keys - {k});
      var m :| IsLeast(m, keys - {k});
      LessTrichotomy(k, m);
      if Less(k, m) {
        forall j | j in keys ensures j == k || Less(k, j) {
          if j != k && j != m { LessTransitive(k, m, j); }
        }
        assert IsLeast(k, keys);
      } else {
        assert IsLeast(m, keys);
      }
    }
  }

  lemma LeastUnique(keys: set<string>, m: string, m': string)
    requires IsLeast(m, keys) && IsLeast(m', keys)
    ensures m == m'
  {
    if m != m' {
      LessTransitive(m, m', m);
      LessIrreflexive(m);
    }
  }

  function Least(keys: set<string>): (m: string)
    requires keys != {}
    ensures IsLeast(m, keys)
  {
    LeastExists(keys);
    assert forall m, m' :: IsLeast(m, keys) && IsLeast(m', keys) ==> m == m' by {
      forall m, m' | IsLeast(m, keys) && IsLeast(m', keys) ensures m == m' { LeastUnique(keys, m, m'); }
    }
    var m :| m in keys && IsLeast(m, keys);
    m
  }

  predicate Ascending(keys: seq<string>) {
    forall i, j :: 0 <= i < j < |keys| ==> Less(keys[i], keys[j])
  }

  /** The keys in the order an iterator of the database visits them. */
  function Ordered(keys: set<string>): (r: seq<string>)
    ensures |r| == |keys| && Ascending(r)
    ensures forall k :: k in r <==> k in keys
  {
    if keys == {} then []
    else
      var m := Least(keys);
      [m] + Ordered(keys - {m})
  }
}
