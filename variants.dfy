/**
 * How the two manifest checkers and the two text checkers relate. The
 * standards validator and the issue-list checker state several rules
 * differently on purpose; these lemmas say which way each difference goes,
 * with a concrete input wherever the implication does not reverse.
 */
module Variants {
  import opened Yaml
  import opened Text
  import opened Scan
  import opened NamePattern
  import Standards
  import Compliance
  import StructureCheck
  import SyntaxCheck

  // ---------------------------------------------------------------------------
  // Capabilities: exactly `['ALL']` against `'ALL' in drop`

  /** The issue-list checker's `drop == ['ALL']` implies the standards validator's `'ALL' in drop`. */
  lemma ExactDropImpliesMember(c: Node)
    requires Compliance.Drop(c) == Seq([Str("ALL")])
    ensures In("ALL", Standards.DropList(Sub(c, "securityContext")))
  {
    assert Str("ALL") in [Str("ALL")];
  }

  /** The converse fails: dropping `ALL` and `NET_ADMIN` passes membership but draws a capability issue. */
  lemma MemberDoesNotImplyExact()
    ensures var sec := Map(map["capabilities" := Map(map["drop" := Seq([Str("ALL"), Str("NET_ADMIN")])])]);
            var c := Map(map["securityContext" := sec]);
            && In("ALL", Standards.DropList(sec))
            && Compliance.MustDropAll in Compliance.SecurityIssues(c, EmptyMap)
  {
    var sec := Map(map["capabilities" := Map(map["drop" := Seq([Str("ALL"), Str("NET_ADMIN")])])]);
    var c := Map(map["securityContext" := sec]);
    assert Standards.DropList(sec).items[0] == Str("ALL");
    assert Compliance.Drop(c) == Seq([Str("ALL"), Str("NET_ADMIN")]);
    Compliance.SecurityIssuesIff(c, EmptyMap);
  }

  /** Both checkers read `runAsNonRoot` and `readOnlyRootFilesystem` of a container by truthiness. */
  lemma ContainerFlagsAgree(c: Node, podSecurity: Node)
    requires Standards.ContainerSecurityFault(c).None?
    ensures Compliance.MissingRunAsNonRoot !in Compliance.SecurityIssues(c, podSecurity)
    ensures Compliance.MissingReadOnlyRoot !in Compliance.SecurityIssues(c, podSecurity)
  {
    Compliance.SecurityIssuesIff(c, podSecurity);
  }

  // ---------------------------------------------------------------------------
  // Images: `:latest` anywhere against `:latest` at the end

  /** An image with no issue-list image issues passes the standards validator's image rule. */
  lemma NoImageIssuesPassesRule03(c: Node)
    requires Compliance.ImageIssues(Standards.Image(c)) == []
    ensures Standards.ImageFault(c).None?
  {
    var image := Standards.Image(c);
    Compliance.ImageIssuesIff(image);
    if EndsWith(image, ":latest") {
      EndsWithImpliesSubstring(image, ":latest");
    }
  }

  /** An approved image whose tag is `latest` but which is also pinned by digest. */
  const LatestBeforeDigest: string := "registry.bank.internal/a:latest@sha256:0"

  lemma LatestBeforeDigestFacts()
    ensures HasSubstring(LatestBeforeDigest, ":latest") && !EndsWith(LatestBeforeDigest, ":latest")
    ensures Standards.FromApprovedRegistry(LatestBeforeDigest) && HasSubstring(LatestBeforeDigest, "@sha256:")
  {
    var image := LatestBeforeDigest;
    assert image[24..31] == ":latest";
    SubstringAt(image, ":latest", 24);
    assert image[31..39] == "@sha256:";
    SubstringAt(image, "@sha256:", 31);
    assert image[..23] == "registry.bank.internal/";
  }

  /** The converse fails: `:latest` before a digest passes the standards validator but is a `:latest` issue. */
  lemma LatestInsideImage()
    ensures var c := Map(map["image" := Str(LatestBeforeDigest)]);
            && Standards.ImageFault(c).None?
            && Compliance.LatestTag in Compliance.ImageIssues(Standards.Image(c))
  {
    var c := Map(map["image" := Str(LatestBeforeDigest)]);
    assert Standards.Image(c) == LatestBeforeDigest;
    LatestBeforeDigestFacts();
    Compliance.ImageIssuesIff(LatestBeforeDigest);
  }

  // ---------------------------------------------------------------------------
  // Resources: truthiness against key presence

  /** All four quantities set to truthy values means no issue-list resource issue. */
  lemma DeclaredResourcesHaveNoIssues(c: Node)
    requires Standards.ResourcesDeclared(c)
    ensures Compliance.ResourceIssues(c) == []
  {
    assert forall k | 0 <= k < 4 :: Truthy(Standards.ResourceField(c, k));
    assert Truthy(Standards.ResourceField(c, 0)) && Truthy(Standards.ResourceField(c, 1));
    assert Truthy(Standards.ResourceField(c, 2)) && Truthy(Standards.ResourceField(c, 3));
  }

  /** The converse fails: `cpu: 0` is present, so no issue, but falsy, so a Rule 01 violation. */
  lemma ZeroCpuIsPresentButUnset()
    ensures var c := Map(map["resources" := Map(map[
              "requests" := Map(map["cpu" := Int(0), "memory" := Int(1)]),
              "limits" := Map(map["cpu" := Int(1), "memory" := Int(1)])])]);
            && Compliance.ResourceIssues(c) == []
            && Standards.ResourceFault(c) == Some("Missing CPU requests")
  {
  }

  // ---------------------------------------------------------------------------
  // Names: prefix and suffix against the regular expression

  /** A `banking-team-<x>-prod` name with a lower-case middle satisfies both conventions. */
  lemma ConformingLowerCaseNameMatches(x: string)
    requires |x| > 0 && AllLowerOrDash(x)
    ensures Compliance.NameConforms("banking-team-" + x + "-prod")
    ensures MatchesNamePattern("banking-team-" + x + "-prod")
  {
    BankingProdNameMatches(x);
    var s := "banking-team-" + x + "-prod";
    assert s == "banking-team-" + (x + "-prod");
    assert s[..13] == "banking-team-";
    assert s[|s| - 5..] == "-prod";
  }

  /** An upper-case letter passes the prefix and suffix test but not the regular expression. */
  lemma UpperCaseNameDiffers()
    ensures Compliance.NameConforms("banking-team-Credit-prod")
    ensures !MatchesNamePattern("banking-team-Credit-prod")
  {
    var s := "banking-team-Credit-prod";
    assert s[..13] == "banking-team-";
    assert s[|s| - 5..] == "-prod";
    assert !IsLower(s[13]) && s[13] != '-';
    assert !AllLowerOrDash(s);
    if MatchesNamePattern(s) {
      MatchImpliesAlphabet(s);
      assert false;
    }
  }

  /** A name the regular expression accepts can still fail the prefix test. */
  lemma PatternNameDiffers()
    ensures MatchesNamePattern("ab-cd-ef-gh")
    ensures !Compliance.NameConforms("ab-cd-ef-gh")
  {
    var s := "ab-cd-ef-gh";
    assert s[..2] == "ab" && s[3..5] == "cd" && s[6..8] == "ef" && s[9..] == "gh";
    assert SplitsAt(s, 2, 5, 8);
  }

  // ---------------------------------------------------------------------------
  // The two text checkers

  /** Content the structure checker accepts is accepted by the syntax checker. */
  lemma StructureImpliesSyntax(raw: string)
    requires StructureCheck.Verdict(raw).valid
    ensures SyntaxCheck.BasicYamlCheck(raw).valid
  {
    StructureCheck.VerdictValidIff(raw);
  }

  /** The converse fails: any non-blank text passes the syntax checker. */
  lemma SyntaxDoesNotImplyStructure()
    ensures SyntaxCheck.BasicYamlCheck("x").valid
    ensures !StructureCheck.Verdict("x").valid
  {
    assert !IsSpace("x"[0]);
    assert Strip("x") == "x";
  }
}
