/** Character-level helpers for the source's string handling: Python's
    `str(int)` and `int(...)` on decimal digits, the `in` test for a
    character, and `str.replace`. */
module Text {

  predicate IsDigit(c: char) {
    '0' <= c <= '9'
  }

  predicate AllDigits(s: string) {
    forall k :: 0 <= k < |s| ==> IsDigit(s[k])
  }

  function DigitChar(d: nat): (c: char)
    requires d < 10
    ensures IsDigit(c) && (c as int) - ('0' as int) == d
  {
    ((('0' as int) + d) as char)
  }

  function DigitValue(c: char): (d: nat)
    requires IsDigit(c)
    ensures d < 10 && DigitChar(d) == c
  {
    (c as int) - ('0' as int)
  }

  /** Python's `str(n)` for a non-negative integer: decimal digits, no leading zero. */
  function NatToString(n: nat): (s: string)
    ensures 1 <= |s| && AllDigits(s)
    ensures (|s| > 1) == (n >= 10)
    decreases n
  {
    if n < 10 then [DigitChar(n)] else NatToString(n / 10) + [DigitChar(n % 10)]
  }

  /** Python's `int(s)` for a string of decimal digits. */
  function DigitsValue(s: string): nat
    requires AllDigits(s)
  {
    if |s| == 0 then 0 else DigitsValue(s[..|s| - 1]) * 10 + DigitValue(s[|s| - 1])
  }

  lemma {:induction false} DigitsValueOfToString(n: nat)
    ensures DigitsValue(NatToString(n)) == n
    decreases n
  {
    if n >= 10 {
      var s := NatToString(n);
      assert s[..|s| - 1] == NatToString(n / 10);
      DigitsValueOfToString(n / 10);
    }
  }

  lemma NatToStringInjective(m: nat, n: nat)
    requires NatToString(m) == NatToString(n)
    ensures m == n
  {
    DigitsValueOfToString(m);
    DigitsValueOfToString(n);
  }

  /** Python's `str(i)` for any integer. */
  function IntToString(i: int): (s: string)
    ensures 1 <= |s|
    ensures s[0] == '-' <==> i < 0
    ensures i >= 0 ==> s == NatToString(i)
  {
    if i < 0 then "-" + NatToString(-i) else NatToString(i)
  }

  lemma IntToStringInjective(i: int, j: int)
    requires IntToString(i) == IntToString(j)
    ensures i == j
  {
    if i < 0 {
      assert IntToString(i)[1..] == NatToString(-i);
      assert IntToString(j)[1..] == NatToString(-j);
      NatToStringInjective(-i, -j);
    } else {
      NatToStringInjective(i, j);
    }
  }

  /** Python's `s.replace(pat, rep)`: every non-overlapping occurrence of the
      non-empty `pat`, scanning from the left, is replaced by `rep`. */
  function ReplaceAll(s: string, pat: string, rep: string): string
    requires |pat| > 0
    decreases |s|
  {
    if |s| == 0 then ""
    else if |pat| <= |s| && s[..|pat|] == pat then rep + ReplaceAll(s[|pat|..], pat, rep)
    else [s[0]] + ReplaceAll(s[1..], pat, rep)
  }

  /** Replacing one character by another changes exactly the positions holding it. */
  lemma {:induction false} ReplaceCharAt(s: string, c: char, d: char)
    ensures |ReplaceAll(s, [c], [d])| == |s|
    ensures forall k :: 0 <= k < |s| ==> ReplaceAll(s, [c], [d])[k] == if s[k] == c then d else s[k]
    decreases |s|
  {
    if |s| > 0 {
      ReplaceCharAt(s[1..], c, d);
      var r := ReplaceAll(s, [c], [d]);
      var rest := ReplaceAll(s[1..], [c], [d]);
      assert r == [if s[0] == c then d else s[0]] + rest by {
        if s[..1] == [c] { assert s[0] == c; } else { assert s[0] != c; }
      }
      forall k | 0 < k < |s| ensures r[k] == if s[k] == c then d else s[k] {
        assert r[k] == rest[k - 1] && s[1..][k - 1] == s[k];
      }
    }
  }

  /** No `x` immediately followed by `y`. */
  predicate NoPair(t: string, x: char, y: char) {
    forall k :: 0 <= k < |t| - 1 ==> !(t[k] == x && t[k + 1] == y)
  }

  /** Replacing `xy` by `xz` keeps the length and the first character, and
      changes only `y`s into `z`s; when `x` and `y` differ, occurrences cannot
      overlap, and exactly the `y`s right after an `x` become `z`. */
  lemma {:induction false} ReplacePairShape(s: string, x: char, y: char, z: char)
    ensures |ReplaceAll(s, [x, y], [x, z])| == |s|
    ensures |s| > 0 ==> ReplaceAll(s, [x, y], [x, z])[0] == s[0]
    ensures forall k :: 0 <= k < |s| ==>
      ReplaceAll(s, [x, y], [x, z])[k] == s[k] || (s[k] == y && ReplaceAll(s, [x, y], [x, z])[k] == z)
    ensures x != y ==> forall k :: 0 <= k < |s| ==>
      ReplaceAll(s, [x, y], [x, z])[k] == if 0 < k && s[k - 1] == x && s[k] == y then z else s[k]
    decreases |s|
  {
    var r := ReplaceAll(s, [x, y], [x, z]);
    if |s| > 0 {
      if 2 <= |s| && s[..2] == [x, y] {
        assert s[0] == x && s[1] == y;
        var rest := ReplaceAll(s[2..], [x, y], [x, z]);
        ReplacePairShape(s[2..], x, y, z);
        assert r == [x, z] + rest;
        forall k | 2 <= k < |s|
          ensures r[k] == s[k] || (s[k] == y && r[k] == z)
          ensures x != y ==> r[k] == if 0 < k && s[k - 1] == x && s[k] == y then z else s[k]
        {
          assert r[k] == rest[k - 2] && s[2..][k - 2] == s[k];
          if k > 2 { assert s[2..][k - 3] == s[k - 1]; }
        }
      } else {
        var rest := ReplaceAll(s[1..], [x, y], [x, z]);
        ReplacePairShape(s[1..], x, y, z);
        assert r == [s[0]] + rest;
        forall k | 1 <= k < |s|
          ensures r[k] == s[k] || (s[k] == y && r[k] == z)
          ensures x != y ==> r[k] == if 0 < k && s[k - 1] == x && s[k] == y then z else s[k]
        {
          assert r[k] == rest[k - 1] && s[1..][k - 1] == s[k];
          if k > 1 { assert s[1..][k - 2] == s[k - 1]; }
          else { assert s[..2] == [s[0], s[1]]; }
        }
      }
    }
  }

  /** Replacing `xy` by `xz`, with `z` distinct from both, leaves no `xy` behind. */
  lemma {:induction false} ReplacePairRemoves(s: string, x: char, y: char, z: char)
    requires z != x && z != y
    ensures NoPair(ReplaceAll(s, [x, y], [x, z]), x, y)
    decreases |s|
  {
    var r := ReplaceAll(s, [x, y], [x, z]);
    if |s| > 0 {
      if 2 <= |s| && s[..2] == [x, y] {
        var rest := ReplaceAll(s[2..], [x, y], [x, z]);
        ReplacePairRemoves(s[2..], x, y, z);
        assert r == [x, z] + rest;
        forall k | 0 <= k < |r| - 1 ensures !(r[k] == x && r[k + 1] == y) {
          if k >= 2 { assert r[k] == rest[k - 2] && r[k + 1] == rest[k - 1]; }
          else if k == 1 { assert r[k] == z; }
        }
      } else {
        var rest := ReplaceAll(s[1..], [x, y], [x, z]);
        ReplacePairRemoves(s[1..], x, y, z);
        ReplacePairShape(s[1..], x, y, z);
        assert r == [s[0]] + rest;
        forall k | 0 <= k < |r| - 1 ensures !(r[k] == x && r[k + 1] == y) {
          if k >= 1 {
            assert r[k] == rest[k - 1] && r[k + 1] == rest[k];
          } else {
            assert r[1] == rest[0] == s[1];
            assert s[..2] == [s[0], s[1]];
          }
        }
      }
    }
  }
}
