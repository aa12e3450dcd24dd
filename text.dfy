/**
 * String operations the signature relies on: Python's ordering of `str`
 * (used by `sorted`), `sorted` over a dict's keys, `"%s" % n` for an
 * integer, and `"".join`.
 */
module Text {

  /** Python's `a < b` on `str`: code-point lexicographic, a proper prefix first. */
  predicate Below(a: string, b: string) {
    if a == [] then b != []
    else if b == [] then false
    else a[0] < b[0] || (a[0] == b[0] && Below(a[1..], b[1..]))
  }

  lemma {:induction false} BelowIrreflexive(a: string)
    ensures !Below(a, a)
  {
    if a != [] {
      BelowIrreflexive(a[1..]);
    }
  }

  lemma {:induction false} BelowTransitive(a: string, b: string, c: string)
    requires Below(a, b) && Below(b, c)
    ensures Below(a, c)
  {
    if a != [] && a[0] == b[0] && b[0] == c[0] {
      BelowTransitive(a[1..], b[1..], c[1..]);
    }
  }

  lemma BelowAsymmetric(a: string, b: string)
    requires Below(a, b)
    ensures !Below(b, a)
  {
  }

  lemma {:induction false} BelowTotal(a: string, b: string)
    ensures a == b || Below(a, b) || Below(b, a)
  {
    if a != [] && b != [] && a[0] == b[0] {
      BelowTotal(a[1..], b[1..]);
      if a[1..] == b[1..] {
        assert a == [a[0]] + a[1..] && b == [b[0]] + b[1..];
      }
    }
  }

  /** `k` is the smallest of `keys` under Python's order. */
  predicate IsLeast(k: string, keys: set<string>) {
    k in keys && forall j :: j in keys && j != k ==> Below(k, j)
  }

  lemma {:induction false} LeastExists(keys: set<string>)
    requires keys != {}
    ensures exists k :: IsLeast(k, keys)
    decreases keys
  {
    var x :| x in keys;
    if keys == {x} {
      assert IsLeast(x, keys);
    } else {
      var rest := keys - {x};
      LeastExists(rest);
      var m :| IsLeast(m, rest);
      BelowTotal(x, m);
      if Below(x, m) {
        forall j | j in keys && j != x
          ensures Below(x, j)
        {
          if j != m {
            BelowTransitive(x, m, j);
          }
        }
        assert IsLeast(x, keys);
      } else {
        assert IsLeast(m, keys);
      }
    }
  }

  lemma LeastUnique(keys: set<string>)
    ensures forall a, b :: IsLeast(a, keys) && IsLeast(b, keys) ==> a == b
  {
    forall a, b | IsLeast(a, keys) && IsLeast(b, keys)
      ensures a == b
    {
      if a != b {
        BelowAsymmetric(a, b);
      }
    }
  }

  /** Every element sorts strictly before every later one. */
  predicate Ascending(ks: seq<string>) {
    forall i, j :: 0 <= i < j < |ks| ==> Below(ks[i], ks[j])
  }

  /** The smallest of a non-empty key set. */
  function Least(keys: set<string>): (k: string)
    requires keys != {}
    ensures IsLeast(k, keys)
  {
    LeastExists(keys);
    LeastUnique(keys);
    var k :| IsLeast(k, keys);
    k
  }

  /** `sorted(keys)`: the keys once each, in ascending order. */
  function SortedKeys(keys: set<string>): (ks: seq<string>)
    ensures forall k :: k in ks <==> k in keys
    decreases keys
  {
    if keys == {} then []
    else [Least(keys)] + SortedKeys(keys - {Least(keys)})
  }

  /** `sorted` lists the keys in strictly ascending order. */
  lemma {:induction false} SortedKeysAscending(keys: set<string>)
    ensures Ascending(SortedKeys(keys))
    decreases keys
  {
    if keys != {} {
      var ks := SortedKeys(keys);
      var k := ks[0];
      LeastExists(keys);
      LeastUnique(keys);
      assert IsLeast(k, keys);
      SortedKeysAscending(keys - {k});
      assert ks[1..] == SortedKeys(keys - {k});
      forall i, j | 0 <= i < j < |ks|
        ensures Below(ks[i], ks[j])
      {
        if i == 0 {
          assert ks[j] in keys - {k};
        } else {
          assert ks[i] == ks[1..][i - 1] && ks[j] == ks[1..][j - 1];
        }
      }
    }
  }

  /** An ascending listing of a key set is unique: it is `sorted(keys)`. */
  lemma {:induction false} AscendingIsSortedKeys(keys: set<string>, ks: seq<string>)
    requires Ascending(ks)
    requires forall k :: k in ks <==> k in keys
    ensures ks == SortedKeys(keys)
    decreases |ks|
  {
    if ks == [] {
      assert keys == {};
    } else {
      var k := ks[0];
      forall j | j in keys && j != k
        ensures Below(k, j)
      {
        var i :| 0 <= i < |ks| && ks[i] == j;
      }
      assert IsLeast(k, keys);
      LeastUnique(keys);
      var rest := ks[1..];
      forall j
        ensures j in rest <==> j in keys - {k}
      {
        if j in rest {
          var i :| 0 <= i < |rest| && rest[i] == j;
          assert Below(ks[0], ks[i + 1]);
          BelowIrreflexive(k);
        }
        if j in keys - {k} {
          var i :| 0 <= i < |ks| && ks[i] == j;
          assert ks[i] == rest[i - 1];
        }
      }
      AscendingIsSortedKeys(keys - {k}, rest);
      assert ks == [k] + rest;
    }
  }

  predicate IsDigit(c: char) {
    '0' <= c <= '9'
  }

  predicate AllDigits(s: string) {
    forall i :: 0 <= i < |s| ==> IsDigit(s[i])
  }

  /** The decimal digits of `n`, most significant first, no leading zero. */
  function NatText(n: nat): (s: string)
    ensures s != [] && AllDigits(s)
  {
    if n < 10 then [(n + '0' as int) as char]
    else NatText(n / 10) + [(n % 10 + '0' as int) as char]
  }

  /** `"%s" % n` for a Python int. */
  function IntText(n: int): (s: string)
    ensures s != []
    ensures forall i :: 0 <= i < |s| ==> s[i] == '-' || IsDigit(s[i])
  {
    if n < 0 then "-" + NatText(-n) else NatText(n)
  }

  /** The value of a string of decimal digits. */
  function DigitsValue(s: string): nat
    requires AllDigits(s)
  {
    if s == [] then 0
    else DigitsValue(s[..|s| - 1]) * 10 + (s[|s| - 1] as int - '0' as int)
  }

  /** The value of an optionally signed decimal numeral. */
  function IntValue(s: string): int
    requires AllDigits(s) || (s != [] && s[0] == '-' && AllDigits(s[1..]))
  {
    if s != [] && s[0] == '-' then -(DigitsValue(s[1..]) as int) else DigitsValue(s)
  }

  lemma {:induction false} NatTextRoundTrip(n: nat)
    ensures DigitsValue(NatText(n)) == n
  {
    if n >= 10 {
      NatTextRoundTrip(n / 10);
      var s := NatText(n);
      assert s[..|s| - 1] == NatText(n / 10);
    }
  }

  lemma IntTextRoundTrip(n: int)
    ensures var s := IntText(n); (AllDigits(s) || (s[0] == '-' && AllDigits(s[1..]))) && IntValue(s) == n
  {
    if n < 0 {
      NatTextRoundTrip(-n);
      assert IntText(n)[1..] == NatText(-n);
    } else {
      NatTextRoundTrip(n);
    }
  }

  /** Distinct integers print differently. */
  lemma IntTextInjective(a: int, b: int)
    requires IntText(a) == IntText(b)
    ensures a == b
  {
    IntTextRoundTrip(a);
    IntTextRoundTrip(b);
  }

  /** `"".join(parts)`: the parts back to back, no separator. */
  function Join(parts: seq<string>): string {
    if parts == [] then "" else parts[0] + Join(parts[1..])
  }
}
