/**
 * The string operations the dashboard relies on: `toLowerCase`,
 * `toUpperCase`, `includes` and the `<` relation JavaScript applies to two
 * strings.
 */
module Text {

  /** `toLowerCase` on one character, restricted to ASCII letters. */
  function LowerChar(c: char): char
  {
    if 'A' <= c <= 'Z' then (c as int + 32) as char else c
  }

  /** `toUpperCase` on one character, restricted to ASCII letters. */
  function UpperChar(c: char): char
  {
    if 'a' <= c <= 'z' then (c as int - 32) as char else c
  }

  function ToLower(s: string): string
  {
    seq(|s|, i requires 0 <= i < |s| => LowerChar(s[i]))
  }

  function ToUpper(s: string): string
  {
    seq(|s|, i requires 0 <= i < |s| => UpperChar(s[i]))
  }

  /** `haystack.includes(needle)`: needle occurs in haystack at some position. */
  predicate Includes(haystack: string, needle: string)
  {
    needle <= haystack || (|haystack| > 0 && Includes(haystack[1..], needle))
  }

  /** JavaScript's `a < b` on strings: lexicographic by character code, a
      proper prefix being smaller. */
  predicate LessThan(a: string, b: string)
  {
    |b| > 0 && (|a| == 0 || a[0] < b[0] || (a[0] == b[0] && LessThan(a[1..], b[1..])))
  }

  /** Lower-casing forgets the upper-casing that came before it, so a
      search term and its upper-cased form look the same to a
      case-insensitive comparison. */
  lemma LowerOfUpper(s: string)
    ensures ToLower(ToUpper(s)) == ToLower(s)
  {
  }

  /** Every string includes the empty string (an empty search matches). */
  lemma IncludesEmpty(s: string)
    ensures Includes(s, "")
  {
  }

  /** The needle occurs at an explicit position exactly when Includes holds. */
  lemma {:induction false} IncludesAt(haystack: string, needle: string)
    ensures Includes(haystack, needle) <==>
      exists k :: 0 <= k <= |haystack| - |needle| && needle <= haystack[k..]
  {
    if |haystack| > 0 {
      IncludesAt(haystack[1..], needle);
      if Includes(haystack[1..], needle) {
        var k :| 0 <= k <= |haystack| - 1 - |needle| && needle <= haystack[1..][k..];
        assert haystack[1..][k..] == haystack[k + 1..];
      }
      if exists k :: 0 <= k <= |haystack| - |needle| && needle <= haystack[k..] {
        var k :| 0 <= k <= |haystack| - |needle| && needle <= haystack[k..];
        if k > 0 {
          assert haystack[1..][k - 1..] == haystack[k..];
        }
      }
    } else {
      if exists k :: 0 <= k <= |haystack| - |needle| && needle <= haystack[k..] {
        var k :| 0 <= k <= |haystack| - |needle| && needle <= haystack[k..];
        assert k == 0;
      }
    }
  }

  lemma {:induction false} LessThanIrreflexive(a: string)
    ensures !LessThan(a, a)
  {
    if |a| > 0 {
      LessThanIrreflexive(a[1..]);
    }
  }

  lemma {:induction false} LessThanTransitive(a: string, b: string, c: string)
    ensures LessThan(a, b) && LessThan(b, c) ==> LessThan(a, c)
  {
    if |a| > 0 && |b| > 0 && |c| > 0 && a[0] == b[0] && b[0] == c[0] {
      LessThanTransitive(a[1..], b[1..], c[1..]);
    }
  }

  /** Two different strings are always ordered one way or the other. */
  lemma {:induction false} LessThanTotal(a: string, b: string)
    requires a != b
    ensures LessThan(a, b) || LessThan(b, a)
  {
    if |a| > 0 && |b| > 0 && a[0] == b[0] {
      assert a == [a[0]] + a[1..] && b == [b[0]] + b[1..];
      LessThanTotal(a[1..], b[1..]);
    }
  }

  lemma {:induction false} LessThanAsymmetric(a: string, b: string)
    requires LessThan(a, b)
    ensures !LessThan(b, a)
  {
    if |a| > 0 && a[0] == b[0] {
      LessThanAsymmetric(a[1..], b[1..]);
    }
  }
}
