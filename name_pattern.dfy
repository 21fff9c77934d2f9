/**
 * The manifest-name convention of the standards validator, the regular
 * expression `^[a-z]+-[a-z]+-[a-z-]+-[a-z]+$` used with `re.match`, written as
 * an explicit predicate over the positions of the three separating dashes.
 */
module NamePattern {

  predicate IsLower(c: char) {
    'a' <= c <= 'z'
  }

  /** `[a-z]+` without the `+`: every character is a lower-case letter. */
  predicate AllLower(s: string) {
    forall i | 0 <= i < |s| :: IsLower(s[i])
  }

  /** `[a-z-]+` without the `+`. */
  predicate AllLowerOrDash(s: string) {
    forall i | 0 <= i < |s| :: IsLower(s[i]) || s[i] == '-'
  }

  /**
   * `s` is `a-b-c-d` with `a`, `b`, `d` non-empty runs of lower-case letters and
   * `c` a non-empty run of lower-case letters and dashes; `i`, `j`, `k` are the
   * positions of the three dashes that the pattern spells out.
   */
  predicate SplitsAt(s: string, i: int, j: int, k: int) {
    && 0 < i && i + 1 < j && j + 1 < k && k + 1 < |s|
    && s[i] == '-' && s[j] == '-' && s[k] == '-'
    && AllLower(s[..i]) && AllLower(s[i + 1..j])
    && AllLowerOrDash(s[j + 1..k]) && AllLower(s[k + 1..])
  }

  /** `re.match(r'^[a-z]+-[a-z]+-[a-z-]+-[a-z]+$', s)` succeeds. */
  predicate MatchesNamePattern(s: string) {
    exists i, j, k | 0 < i < |s| && i < j < |s| && j < k < |s| :: SplitsAt(s, i, j, k)
  }

  /** A matching name is made of lower-case letters and dashes only, with a letter at each end. */
  lemma MatchImpliesAlphabet(s: string)
    requires MatchesNamePattern(s)
    ensures AllLowerOrDash(s)
    ensures |s| >= 7 && IsLower(s[0]) && IsLower(s[|s| - 1])
  {
    var i, j, k :| 0 < i < |s| && i < j < |s| && j < k < |s| && SplitsAt(s, i, j, k);
    var a, b, c, d := s[..i], s[i + 1..j], s[j + 1..k], s[k + 1..];
    assert AllLower(a) && AllLower(b) && AllLowerOrDash(c) && AllLower(d);
    forall p | 0 <= p < |s| ensures IsLower(s[p]) || s[p] == '-' {
      if p < i {
        assert s[p] == a[p];
      } else if i < p < j {
        assert s[p] == b[p - i - 1];
      } else if j < p < k {
        assert s[p] == c[p - j - 1];
      } else if k < p {
        assert s[p] == d[p - k - 1];
      }
    }
    assert s[0] == a[0];
    assert s[|s| - 1] == d[|d| - 1];
  }

  /** The empty name, the default for a missing `metadata.name`, never matches. */
  lemma EmptyNameFails()
    ensures !MatchesNamePattern("")
  {
  }

  /** Any name `banking-team-<x>-prod` with a non-empty `x` of letters and dashes matches. */
  lemma BankingProdNameMatches(x: string)
    requires |x| > 0 && AllLowerOrDash(x)
    ensures MatchesNamePattern("banking-team-" + x + "-prod")
  {
    var s := "banking-team-" + x + "-prod";
    var i, j, k := 7, 12, 13 + |x|;
    assert s == "banking-team-" + (x + "-prod");
    assert s[..13] == "banking-team-";
    assert s[13..] == x + "-prod";
    assert s[..i] == "banking";
    assert s[i + 1..j] == "team";
    assert s[j + 1..k] == x;
    assert s[k + 1..] == "prod";
    assert SplitsAt(s, i, j, k);
  }
}
