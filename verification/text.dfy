/** String helpers the views rely on: `String(n)` of a non-negative integer,
    `padStart(2, '0')`, JavaScript's default string order (used by
    `Array.prototype.sort()` without a comparator), `String.prototype.includes`
    and `s.split('/')[0]`. Strings are sequences of characters, compared by code
    point. */
module Text {

  /** The character of a decimal digit. */
  function DigitChar(d: nat): (c: char)
    requires d < 10
    ensures '0' <= c <= '9'
  {
    ('0' as int + d) as char
  }

  /** The number a string of decimal digits spells, most significant digit first. */
  function DecValue(s: string): int
  {
    if s == [] then 0 else 10 * DecValue(s[..|s| - 1]) + (s[|s| - 1] as int - '0' as int)
  }

  /** `String(n)` for a non-negative integer: its decimal digits, no leading zero. */
  function Dec(n: nat): (s: string)
    ensures |s| >= 1
    ensures forall i :: 0 <= i < |s| ==> '0' <= s[i] <= '9'
    ensures (|s| == 1) == (n < 10)
    ensures |s| > 1 ==> s[0] != '0'
  {
    if n < 10 then [DigitChar(n)] else Dec(n / 10) + [DigitChar(n % 10)]
  }

  /** `String(n)` reads back as `n`: its digits, most significant first, spell the number. */
  lemma {:induction false} DecReadsBack(n: nat)
    ensures DecValue(Dec(n)) == n
  {
    if n >= 10 {
      DecReadsBack(n / 10);
      var s := Dec(n);
      assert s[..|s| - 1] == Dec(n / 10);
    }
  }

  /** `String(n).padStart(2, '0')`. */
  function Pad2(n: nat): (s: string)
    ensures |s| >= 2
    ensures n < 100 ==> s == [DigitChar(n / 10), DigitChar(n % 10)]
  {
    var d := Dec(n);
    if |d| < 2 then "0" + d
    else
      assert 10 <= n < 100 ==> Dec(n / 10) == [DigitChar(n / 10)];
      d
  }

  /** JavaScript's default ordering of strings: lexicographic by character. */
  predicate StrLt(a: string, b: string)
  {
    if a == [] then b != []
    else if b == [] then false
    else if a[0] < b[0] then true
    else if a[0] == b[0] then StrLt(a[1..], b[1..])
    else false
  }

  lemma {:induction false} StrLtIrreflexive(a: string)
    ensures !StrLt(a, a)
  {
    if a != [] {
      StrLtIrreflexive(a[1..]);
    }
  }

  lemma {:induction false} StrLtTransitive(a: string, b: string, c: string)
    requires StrLt(a, b) && StrLt(b, c)
    ensures StrLt(a, c)
  {
    if a != [] && b != [] && c != [] && a[0] == b[0] == c[0] {
      StrLtTransitive(a[1..], b[1..], c[1..]);
    }
  }

  /** Distinct strings are always ordered one way or the other. */
  lemma {:induction false} StrLtTotal(a: string, b: string)
    requires a != b
    ensures StrLt(a, b) || StrLt(b, a)
  {
    if a != [] && b != [] && a[0] == b[0] {
      assert a == [a[0]] + a[1..] && b == [b[0]] + b[1..];
      StrLtTotal(a[1..], b[1..]);
    }
  }

  /** Comparing two strings that start with prefixes of equal length compares
      the prefixes first and the rest only when the prefixes are equal. */
  lemma {:induction false} StrLtConcat(p: string, q: string, c: string, d: string)
    requires |p| == |q|
    ensures StrLt(p + c, q + d) <==> StrLt(p, q) || (p == q && StrLt(c, d))
  {
    if p != [] {
      assert (p + c)[1..] == p[1..] + c && (p + d)[1..] == p[1..] + d;
      assert (q + d)[1..] == q[1..] + d;
      StrLtConcat(p[1..], q[1..], c, d);
      if p[0] == q[0] && p[1..] == q[1..] {
        assert p == [p[0]] + p[1..] && q == [q[0]] + q[1..];
      }
    } else {
      assert p + c == c && q + d == d;
    }
  }

  lemma StrLtLast(p: string, q: string, x: char, y: char)
    requires |p| == |q|
    ensures StrLt(p + [x], q + [y]) <==> StrLt(p, q) || (p == q && x < y)
  {
    StrLtConcat(p, q, [x], [y]);
  }

  /** Decimal strings of equal length compare like the numbers they denote. */
  lemma {:induction false} DecOrder(a: nat, b: nat)
    requires |Dec(a)| == |Dec(b)|
    ensures StrLt(Dec(a), Dec(b)) <==> a < b
    ensures Dec(a) == Dec(b) <==> a == b
  {
    if a < 10 {
      assert b < 10;
      assert Dec(a) == [DigitChar(a)] && Dec(b) == [DigitChar(b)];
      assert StrLt([DigitChar(a)], [DigitChar(b)]) <==> DigitChar(a) < DigitChar(b) by {
        assert [DigitChar(a)][1..] == [] && [DigitChar(b)][1..] == [];
      }
    } else {
      assert b >= 10;
      DecOrder(a / 10, b / 10);
      StrLtLast(Dec(a / 10), Dec(b / 10), DigitChar(a % 10), DigitChar(b % 10));
      assert a == 10 * (a / 10) + a % 10 && b == 10 * (b / 10) + b % 10;
      if Dec(a) == Dec(b) {
        assert Dec(a)[..|Dec(a)| - 1] == Dec(a / 10) && Dec(b)[..|Dec(b)| - 1] == Dec(b / 10);
        assert Dec(a)[|Dec(a)| - 1] == DigitChar(a % 10) && Dec(b)[|Dec(b)| - 1] == DigitChar(b % 10);
      }
      StrLtIrreflexive(Dec(a));
    }
  }

  /** `String(n)` never repeats: distinct numbers have distinct decimal strings. */
  lemma DecInjective(a: nat, b: nat)
    requires Dec(a) == Dec(b)
    ensures a == b
  {
    DecOrder(a, b);
  }

  /** `s.includes(sub)`: `sub` occurs in `s` as a contiguous block. */
  predicate Contains(s: string, sub: string)
    decreases |s|
  {
    if |sub| > |s| then false
    else s[..|sub|] == sub || (s != [] && Contains(s[1..], sub))
  }

  /** `sub` occurs in `s` starting at index `i`. */
  predicate OccursAt(s: string, sub: string, i: nat)
  {
    i + |sub| <= |s| && s[i..i + |sub|] == sub
  }

  /** `Contains` finds `sub` exactly when it occurs somewhere in `s`. */
  lemma {:induction false} ContainsIffOccurs(s: string, sub: string)
    ensures Contains(s, sub) <==> exists i: nat :: OccursAt(s, sub, i)
    decreases |s|
  {
    if |sub| <= |s| && s != [] {
      ContainsIffOccurs(s[1..], sub);
      if s[..|sub|] == sub {
        assert OccursAt(s, sub, 0);
      }
      if exists i: nat :: OccursAt(s, sub, i) {
        var i: nat :| OccursAt(s, sub, i);
        if i > 0 {
          assert OccursAt(s[1..], sub, i - 1) by {
            assert s[1..][i - 1..i - 1 + |sub|] == s[i..i + |sub|];
          }
        }
      }
      if Contains(s[1..], sub) {
        var i: nat :| OccursAt(s[1..], sub, i);
        assert OccursAt(s, sub, i + 1) by {
          assert i + 1 + |sub| <= |s|;
          var w := s[1..][i..i + |sub|];
          assert forall k :: 0 <= k < |sub| ==> w[k] == s[i + 1 + k];
        }
      }
    } else if |sub| <= |s| {
      assert OccursAt(s, sub, 0);
    }
  }

  /** `s.split('/')[0]`: the text before the first '/', or all of `s`. */
  function FirstSegment(s: string): (r: string)
    ensures |r| <= |s| && r == s[..|r|]
    ensures '/' !in r
    ensures |r| < |s| ==> s[|r|] == '/'
  {
    if s == [] then []
    else if s[0] == '/' then []
    else [s[0]] + FirstSegment(s[1..])
  }
}
