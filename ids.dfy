/**
 * Text forms of database ids, as the storefront writes and reads them.
 *
 * `str(n)` for a non-negative id, the product key f"{perfume.id}_{capacity.id}"
 * of the session cart, and the coercion of such a string back to an integer
 * that Django's `objects.get(id=...)` performs. Also the two list helpers the
 * cart needs (duplicate-freedom and Python's `list.remove`).
 */
module Ids {
  import opened Wrappers

  predicate IsDigit(ch: char) { '0' <= ch <= '9' }

  function DigitChar(d: nat): (ch: char)
    requires d < 10
    ensures IsDigit(ch) && (ch as int) - ('0' as int) == d
  {
    ['0', '1', '2', '3', '4', '5', '6', '7', '8', '9'][d]
  }

  /** Python's `str(n)` for a non-negative integer: its decimal digits, no sign, no leading zeros. */
  function NatToString(n: nat): (s: string)
    decreases n
  {
    if n < 10 then [DigitChar(n)] else NatToString(n / 10) + [DigitChar(n % 10)]
  }

  predicate AllDigits(s: string) {
    forall i :: 0 <= i < |s| ==> IsDigit(s[i])
  }

  /** The value of a string of decimal digits, most significant first. */
  function DigitsValue(s: string): nat
    requires AllDigits(s)
    decreases |s|
  {
    if s == [] then 0
    else DigitsValue(s[..|s| - 1]) * 10 + ((s[|s| - 1] as int) - ('0' as int))
  }

  /** The integer id a non-empty digit string denotes; `None` for anything else. */
  function ParseNat(s: string): Option<nat> {
    if s != [] && AllDigits(s) then Some(DigitsValue(s)) else None
  }

  lemma {:induction false} NatToStringDigits(n: nat)
    ensures |NatToString(n)| > 0 && AllDigits(NatToString(n))
    decreases n
  {
    if n >= 10 {
      NatToStringDigits(n / 10);
    }
  }

  /** Reading back what `str(n)` wrote gives `n`: sample ids survive the session. */
  lemma {:induction false} ParseNatToString(n: nat)
    ensures ParseNat(NatToString(n)) == Some(n)
    decreases n
  {
    NatToStringDigits(n);
    var s := NatToString(n);
    if n >= 10 {
      ParseNatToString(n / 10);
      NatToStringDigits(n / 10);
      var p := NatToString(n / 10);
      assert s[..|s| - 1] == p;
      assert DigitsValue(s) == DigitsValue(p) * 10 + n % 10;
    }
  }

  lemma NatToStringInjective(a: nat, b: nat)
    requires NatToString(a) == NatToString(b)
    ensures a == b
  {
    ParseNatToString(a);
    ParseNatToString(b);
  }

  /** The session cart's product key, f"{perfume_id}_{capacity_id}". */
  function ProductKey(perfumeId: nat, capacityId: nat): string {
    NatToString(perfumeId) + "_" + NatToString(capacityId)
  }

  /** Two different (perfume, capacity) pairs never share a key. */
  lemma {:induction false} ProductKeyInjective(p1: nat, c1: nat, p2: nat, c2: nat)
    ensures ProductKey(p1, c1) == ProductKey(p2, c2) <==> p1 == p2 && c1 == c2
  {
    if ProductKey(p1, c1) == ProductKey(p2, c2) {
      var a1, a2 := NatToString(p1), NatToString(p2);
      var b1, b2 := NatToString(c1), NatToString(c2);
      var k := ProductKey(p1, c1);
      NatToStringDigits(p1);
      NatToStringDigits(p2);
      assert k == a1 + "_" + b1 && k == a2 + "_" + b2;
      assert k[|a1|] == '_' && k[|a2|] == '_';
      assert |a1| == |a2| by {
        if |a1| < |a2| {
          assert false;
        } else if |a2| < |a1| {
          assert false;
        }
      }
      assert a1 == k[..|a1|] == a2;
      assert b1 == k[|a1| + 1..] == b2;
      NatToStringInjective(p1, p2);
      NatToStringInjective(c1, c2);
    }
  }

  predicate NoDuplicates<T(==)>(xs: seq<T>) {
    forall i, j :: 0 <= i < j < |xs| ==> xs[i] != xs[j]
  }

  /** Python's `xs.remove(x)`, without the ValueError: drops the first occurrence of `x`. */
  function RemoveFirst<T(==)>(xs: seq<T>, x: T): seq<T> {
    if xs == [] then []
    else if xs[0] == x then xs[1..]
    else [xs[0]] + RemoveFirst(xs[1..], x)
  }

  lemma {:induction false} RemoveFirstMembers<T>(xs: seq<T>, x: T)
    requires NoDuplicates(xs)
    ensures NoDuplicates(RemoveFirst(xs, x))
    ensures forall y :: y in RemoveFirst(xs, x) <==> y in xs && y != x
    ensures x in xs ==> |RemoveFirst(xs, x)| == |xs| - 1
    ensures x !in xs ==> RemoveFirst(xs, x) == xs
  {
    if xs != [] && xs[0] != x {
      assert NoDuplicates(xs[1..]) by {
        forall i, j | 0 <= i < j < |xs[1..]| ensures xs[1..][i] != xs[1..][j] {
          assert xs[1..][i] == xs[i + 1] && xs[1..][j] == xs[j + 1];
        }
      }
      RemoveFirstMembers(xs[1..], x);
      var r := RemoveFirst(xs[1..], x);
      assert xs[0] !in xs[1..];
      assert RemoveFirst(xs, x) == [xs[0]] + r;
      forall i, j | 0 <= i < j < |[xs[0]] + r| ensures ([xs[0]] + r)[i] != ([xs[0]] + r)[j] {
        if i == 0 {
          assert ([xs[0]] + r)[j] == r[j - 1];
          assert r[j - 1] in r;
        } else {
          assert ([xs[0]] + r)[i] == r[i - 1] && ([xs[0]] + r)[j] == r[j - 1];
        }
      }
      assert xs == [xs[0]] + xs[1..];
    } else if xs != [] {
      assert xs == [xs[0]] + xs[1..];
      forall i, j | 0 <= i < j < |xs[1..]| ensures xs[1..][i] != xs[1..][j] {
        assert xs[1..][i] == xs[i + 1] && xs[1..][j] == xs[j + 1];
      }
      assert x !in xs[1..] by {
        forall k | 0 <= k < |xs[1..]| ensures xs[1..][k] != x {
          assert xs[1..][k] == xs[k + 1];
        }
      }
    }
  }
}
