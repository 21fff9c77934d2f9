/**
 * String operations the checkers use: Python's `str.startswith`, `str.endswith`,
 * the substring test `needle in s`, and `str.strip()` over ASCII whitespace.
 */
module Text {

  /** The `(valid, message)` pair the text-level checkers return. */
  datatype CheckResult = CheckResult(valid: bool, message: string)

  /** Python `s.startswith(prefix)`. */
  predicate StartsWith(s: string, prefix: string) {
    |prefix| <= |s| && s[..|prefix|] == prefix
  }

  /** Python `s.endswith(suffix)`. */
  predicate EndsWith(s: string, suffix: string) {
    |suffix| <= |s| && s[|s| - |suffix|..] == suffix
  }

  /** Python `needle in s` for two strings: `needle` occurs somewhere in `s`. */
  predicate HasSubstring(s: string, needle: string)
    decreases |s|
  {
    StartsWith(s, needle) || (|s| > 0 && HasSubstring(s[1..], needle))
  }

  /** An occurrence of `needle` at any offset makes `needle in s` true. */
  lemma {:induction false} SubstringAt(s: string, needle: string, i: nat)
    requires i + |needle| <= |s| && s[i..i + |needle|] == needle
    ensures HasSubstring(s, needle)
    decreases i
  {
    if i == 0 {
      assert s[..|needle|] == needle;
    } else {
      assert s[1..][i - 1..i - 1 + |needle|] == s[i..i + |needle|];
      SubstringAt(s[1..], needle, i - 1);
    }
  }

  /** `needle` occurs in `s` at offset `i`. */
  predicate OccursAt(s: string, needle: string, i: nat) {
    i + |needle| <= |s| && s[i..i + |needle|] == needle
  }

  /** `needle in s` holds exactly when `needle` occurs in `s` at some offset. */
  lemma HasSubstringIff(s: string, needle: string)
    ensures HasSubstring(s, needle) <==> exists i: nat :: OccursAt(s, needle, i)
  {
    if HasSubstring(s, needle) {
      var i := SubstringWitness(s, needle);
      assert OccursAt(s, needle, i);
    }
    if i: nat :| OccursAt(s, needle, i) {
      SubstringAt(s, needle, i);
    }
  }

  /** Conversely, `needle in s` has a witness offset. */
  lemma {:induction false} SubstringWitness(s: string, needle: string) returns (i: nat)
    requires HasSubstring(s, needle)
    ensures i + |needle| <= |s| && s[i..i + |needle|] == needle
    decreases |s|
  {
    if StartsWith(s, needle) {
      i := 0;
    } else {
      var j := SubstringWitness(s[1..], needle);
      assert s[1..][j..j + |needle|] == s[j + 1..j + 1 + |needle|];
      i := j + 1;
    }
  }

  /** A suffix is in particular a substring. */
  lemma EndsWithImpliesSubstring(s: string, suffix: string)
    requires EndsWith(s, suffix)
    ensures HasSubstring(s, suffix)
  {
    SubstringAt(s, suffix, |s| - |suffix|);
  }

  /** A prefix is in particular a substring. */
  lemma StartsWithImpliesSubstring(s: string, prefix: string)
    requires StartsWith(s, prefix)
    ensures HasSubstring(s, prefix)
  {
    SubstringAt(s, prefix, 0);
  }

  /** What Python's `str.isspace` accepts among ASCII characters. */
  predicate IsSpace(c: char) {
    c == ' ' || ('\t' <= c <= '\r') || (28 <= c as int <= 31)
  }

  function TrimLeft(s: string): string
    decreases |s|
  {
    if |s| > 0 && IsSpace(s[0]) then TrimLeft(s[1..]) else s
  }

  function TrimRight(s: string): string
    decreases |s|
  {
    if |s| > 0 && IsSpace(s[|s| - 1]) then TrimRight(s[..|s| - 1]) else s
  }

  /** Python `s.strip()` with no argument. */
  function Strip(s: string): string {
    TrimRight(TrimLeft(s))
  }

  predicate AllSpace(s: string) {
    forall i | 0 <= i < |s| :: IsSpace(s[i])
  }

  lemma {:induction false} TrimLeftEmptyIff(s: string)
    ensures TrimLeft(s) == [] <==> AllSpace(s)
    decreases |s|
  {
    if |s| > 0 && IsSpace(s[0]) {
      TrimLeftEmptyIff(s[1..]);
      assert AllSpace(s) <==> AllSpace(s[1..]) by {
        if AllSpace(s[1..]) {
          forall i | 0 <= i < |s| ensures IsSpace(s[i]) {
            if i > 0 { assert s[i] == s[1..][i - 1]; }
          }
        }
      }
    }
  }

  lemma {:induction false} TrimRightEmptyIff(s: string)
    ensures TrimRight(s) == [] <==> AllSpace(s)
    decreases |s|
  {
    if |s| > 0 && IsSpace(s[|s| - 1]) {
      TrimRightEmptyIff(s[..|s| - 1]);
      assert AllSpace(s) <==> AllSpace(s[..|s| - 1]) by {
        if AllSpace(s[..|s| - 1]) {
          forall i | 0 <= i < |s| ensures IsSpace(s[i]) {
            if i < |s| - 1 { assert s[i] == s[..|s| - 1][i]; }
          }
        }
      }
    }
  }

  /** Trimming only removes characters from the ends. */
  lemma {:induction false} TrimLeftIsSuffix(s: string)
    ensures |TrimLeft(s)| <= |s| && TrimLeft(s) == s[|s| - |TrimLeft(s)|..]
    ensures |TrimLeft(s)| > 0 ==> !IsSpace(TrimLeft(s)[0])
    decreases |s|
  {
    if |s| > 0 && IsSpace(s[0]) {
      TrimLeftIsSuffix(s[1..]);
    }
  }

  /** `s.strip()` is empty exactly when `s` is empty or whitespace only. */
  lemma StripEmptyIff(s: string)
    ensures Strip(s) == [] <==> AllSpace(s)
  {
    var t := TrimLeft(s);
    TrimLeftEmptyIff(s);
    TrimRightEmptyIff(t);
    TrimLeftIsSuffix(s);
    if |t| > 0 {
      assert t[0] == s[|s| - |t|];
    }
  }
}
