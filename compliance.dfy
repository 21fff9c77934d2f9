/**
 * The issue-list checker of validate_k8s.py (`check_k8s_standards_compliance`).
 * It reads only the first container of one Deployment, appends one message per
 * problem it finds without stopping early, and passes exactly when the list
 * stays empty. The Service and ConfigMap documents it also loads are never
 * consulted, so the model takes the Deployment alone.
 *
 * Its rules differ on purpose from the standards validator: key presence
 * instead of truthiness for resources, `drop == ['ALL']` instead of membership,
 * `:latest` anywhere instead of as a suffix, and a `banking-team-`/`-prod`
 * name instead of the regular expression.
 */
module Compliance {
  import opened Yaml
  import opened Text
  import Standards

  // ---------------------------------------------------------------------------
  // Reading the Deployment: `d[k]` where the source indexes, `.get` where it calls `.get`

  /** `deployment['spec']['template']['spec']`. */
  function PodSpec(d: Node): Node {
    Index(Index(Index(d, "spec"), "template"), "spec")
  }

  /** `deployment['spec']['template']['spec']['containers'][0]`. */
  function FirstContainer(d: Node): Node {
    var cs := Items(Index(PodSpec(d), "containers"));
    if |cs| > 0 then cs[0] else Null
  }

  /** `deployment['spec']['template']['spec'].get('securityContext', {})`. */
  function PodSecurity(d: Node): Node {
    Sub(PodSpec(d), "securityContext")
  }

  /** `deployment['metadata'].get('labels', {})`. */
  function Labels(d: Node): Node {
    Sub(Index(d, "metadata"), "labels")
  }

  /** `deployment['metadata'].get('name', '')`. */
  function Name(d: Node): string {
    StrOf(Get(Index(d, "metadata"), "name", Str("")))
  }

  predicate HasKey(n: Node, key: string) {
    n.Map? && key in n.entries
  }

  /** The container fields read with `.get` are mappings, the image a string; `requests` and `limits`, once both present, accept `in`. */
  predicate ContainerShaped(c: Node) {
    var resources := Sub(c, "resources");
    var sec := Sub(c, "securityContext");
    && c.Map?
    && resources.Map?
    && (In("requests", resources) && In("limits", resources) ==>
          SupportsIn(Index(resources, "requests")) && SupportsIn(Index(resources, "limits")))
    && sec.Map? && Sub(sec, "capabilities").Map?
    && Get(c, "image", Str("")).Str?
  }

  /** Everything the source indexes exists, with the types it is used at. */
  predicate DeploymentShaped(d: Node) {
    && HasKey(d, "spec") && HasKey(Index(d, "spec"), "template") && HasKey(Index(Index(d, "spec"), "template"), "spec")
    && HasKey(PodSpec(d), "containers") && Index(PodSpec(d), "containers").Seq?
    && |Index(PodSpec(d), "containers").items| > 0
    && ContainerShaped(FirstContainer(d))
    && PodSecurity(d).Map? && Sub(PodSecurity(d), "seccompProfile").Map?
    && HasKey(d, "metadata") && Index(d, "metadata").Map?
    && SupportsIn(Labels(d))
    && Get(Index(d, "metadata"), "name", Str("")).Str?
  }

  // ---------------------------------------------------------------------------
  // The issues, in the order the checks run

  /** One entry of the `issues` list; `Message` gives the text the source appends. */
  datatype Issue =
    | MissingResources | MissingCpu | MissingMemory
    | MissingRunAsNonRoot | MissingReadOnlyRoot | MustDropAll | MissingSeccomp
    | LatestTag | UnapprovedRegistry | MissingDigest
    | MissingLabel(key: string) | BadName

  /** The text the source appends: `Rule 0N: ` for the issue's rule, then what is wrong. */
  function Message(issue: Issue): string {
    "Rule 0" + [('0' as int + RuleOf(issue)) as char] + ": " + Detail(issue)
  }

  function Detail(issue: Issue): string {
    match issue
    case MissingResources => "Missing resource requests or limits"
    case MissingCpu => "Missing CPU requests or limits"
    case MissingMemory => "Missing memory requests or limits"
    case MissingRunAsNonRoot => "Missing runAsNonRoot in container securityContext"
    case MissingReadOnlyRoot => "Missing readOnlyRootFilesystem"
    case MustDropAll => "Must drop ALL capabilities"
    case MissingSeccomp => "Missing RuntimeDefault seccompProfile"
    case LatestTag => "Using :latest tag is forbidden"
    case UnapprovedRegistry => "Image not from approved registry"
    case MissingDigest => "Image should be pinned with SHA digest"
    case MissingLabel(key) => "Missing required label " + key
    case BadName => "Deployment name should follow team-app-env pattern"
  }

  /** The rule an issue belongs to, from 1 to 4. */
  function RuleOf(issue: Issue): nat {
    match issue
    case MissingResources | MissingCpu | MissingMemory => 1
    case MissingRunAsNonRoot | MissingReadOnlyRoot | MustDropAll | MissingSeccomp => 2
    case LatestTag | UnapprovedRegistry | MissingDigest => 3
    case MissingLabel(_) | BadName => 4
  }

  /** The rule number can be read back from the message, and a label issue's message names its label. */
  lemma {:induction false} MessageNamesRule(issue: Issue)
    ensures |Message(issue)| > 9 && Message(issue)[..6] == "Rule 0" && Message(issue)[7..9] == ": "
    ensures Message(issue)[6] as int - '0' as int == RuleOf(issue)
    ensures Message(issue)[9..] == Detail(issue)
    ensures issue.MissingLabel? ==> Detail(issue)[|"Missing required label "|..] == issue.key
  {
    MessageParts([('0' as int + RuleOf(issue)) as char], Detail(issue));
    if issue.MissingLabel? {
      MessageParts("Missing required label ", issue.key);
    }
  }

  lemma MessageParts(head: string, tail: string)
    ensures ("Rule 0" + head + ": " + tail)[..6] == "Rule 0"
    ensures |head| == 1 ==> && ("Rule 0" + head + ": " + tail)[6] == head[0] && ("Rule 0" + head + ": " + tail)[7..9] == ": "
                            && ("Rule 0" + head + ": " + tail)[9..] == tail
    ensures (head + tail)[|head|..] == tail
  {
    assert "Rule 0" + head + ": " + tail == "Rule 0" + (head + ": " + tail);
  }

  /** `[issue]` when `cond` holds, else nothing: one `if cond: issues.append(...)`. */
  function When(cond: bool, issue: Issue): seq<Issue> {
    if cond then [issue] else []
  }

  /** `capabilities.get('drop')` of the container security context. */
  function Drop(c: Node): Node {
    Get(Sub(Sub(c, "securityContext"), "capabilities"), "drop", Null)
  }

  /** `pod_security.get('seccompProfile', {}).get('type')`. */
  function SeccompType(podSecurity: Node): Node {
    Get(Sub(podSecurity, "seccompProfile"), "type", Null)
  }

  // ---------------------------------------------------------------------------
  // The issue list as a function of the Deployment

  function ResourceIssues(c: Node): seq<Issue> {
    var resources := Sub(c, "resources");
    if !In("requests", resources) || !In("limits", resources) then [MissingResources]
    else
      var requests := Index(resources, "requests");
      var limits := Index(resources, "limits");
      When(!In("cpu", requests) || !In("cpu", limits), MissingCpu) +
      When(!In("memory", requests) || !In("memory", limits), MissingMemory)
  }

  function SecurityIssues(c: Node, podSecurity: Node): seq<Issue> {
    var sec := Sub(c, "securityContext");
    When(!Truthy(Get(sec, "runAsNonRoot", Null)), MissingRunAsNonRoot) +
    When(!Truthy(Get(sec, "readOnlyRootFilesystem", Null)), MissingReadOnlyRoot) +
    When(Drop(c) != Seq([Str("ALL")]), MustDropAll) +
    When(SeccompType(podSecurity) != Str("RuntimeDefault"), MissingSeccomp)
  }

  function ImageIssues(image: string): seq<Issue> {
    When(HasSubstring(image, ":latest"), LatestTag) +
    When(!Standards.FromApprovedRegistry(image), UnapprovedRegistry) +
    When(!HasSubstring(image, "@sha256:"), MissingDigest)
  }

  /** One message per label of `ls` missing from `labels`, in the order of `ls`. */
  function LabelIssues(labels: Node, ls: seq<string>): seq<Issue>
    decreases |ls|
  {
    if ls == [] then []
    else
      var key := ls[|ls| - 1];
      LabelIssues(labels, ls[..|ls| - 1]) + When(!In(key, labels), MissingLabel(key))
  }

  predicate NameConforms(name: string) {
    StartsWith(name, "banking-team-") && EndsWith(name, "-prod")
  }

  function NameIssues(name: string): seq<Issue> {
    When(!NameConforms(name), BadName)
  }

  function Issues(d: Node): seq<Issue> {
    var c := FirstContainer(d);
    ResourceIssues(c) + SecurityIssues(c, PodSecurity(d)) + ImageIssues(Standards.Image(c)) +
    LabelIssues(Labels(d), Standards.RequiredLabels) + NameIssues(Name(d))
  }

  // ---------------------------------------------------------------------------
  // The checker, appending as the source does

  method CheckStandardsCompliance(deployment: Node) returns (compliant: bool, issues: seq<Issue>)
    requires DeploymentShaped(deployment)
    ensures issues == Issues(deployment)
    ensures compliant <==> issues == []
  {
    issues := [];
    var container := FirstContainer(deployment);
    issues := CheckResources(issues, container);
    assert issues == ResourceIssues(container);
    issues := CheckSecurity(issues, container, PodSecurity(deployment));
    issues := CheckImage(issues, Standards.Image(container));
    issues := CheckLabels(issues, Labels(deployment), Standards.RequiredLabels);
    ghost var upToLabels := issues;

    var deploymentName := Name(deployment);
    if !StartsWith(deploymentName, "banking-team-") || !EndsWith(deploymentName, "-prod") {
      issues := issues + [BadName];
    }
    assert issues == upToLabels + NameIssues(Name(deployment));
    compliant := issues == [];
  }

  /** Rule 04 of the checker, first half: one issue per required label missing from `labels`. */
  method CheckLabels(issues: seq<Issue>, labels: Node, requiredLabels: seq<string>) returns (r: seq<Issue>)
    ensures r == issues + LabelIssues(labels, requiredLabels)
  {
    r := issues;
    for k := 0 to |requiredLabels|
      invariant r == issues + LabelIssues(labels, requiredLabels[..k])
    {
      assert requiredLabels[..k + 1][..k] == requiredLabels[..k];
      if !In(requiredLabels[k], labels) {
        r := r + [MissingLabel(requiredLabels[k])];
      }
    }
    assert requiredLabels[..|requiredLabels|] == requiredLabels;
  }

  /** Rule 01 of the checker: the `resources` block of the first container. */
  method CheckResources(issues: seq<Issue>, container: Node) returns (r: seq<Issue>)
    ensures r == issues + ResourceIssues(container)
  {
    r := issues;
    var resources := Sub(container, "resources");
    if !In("requests", resources) || !In("limits", resources) {
      r := r + [MissingResources];
    } else {
      var requests := Index(resources, "requests");
      var limits := Index(resources, "limits");
      if !In("cpu", requests) || !In("cpu", limits) {
        r := r + [MissingCpu];
      }
      if !In("memory", requests) || !In("memory", limits) {
        r := r + [MissingMemory];
      }
    }
  }

  /** Rule 02 of the checker: the container and pod security contexts. */
  method CheckSecurity(issues: seq<Issue>, container: Node, podSecurity: Node) returns (r: seq<Issue>)
    ensures r == issues + SecurityIssues(container, podSecurity)
  {
    r := issues;
    var containerSecurity := Sub(container, "securityContext");
    if !Truthy(Get(containerSecurity, "runAsNonRoot", Null)) {
      r := r + [MissingRunAsNonRoot];
    }
    ghost var w1 := When(!Truthy(Get(containerSecurity, "runAsNonRoot", Null)), MissingRunAsNonRoot);
    assert r == issues + w1;
    ghost var step := r;
    if !Truthy(Get(containerSecurity, "readOnlyRootFilesystem", Null)) {
      r := r + [MissingReadOnlyRoot];
    }
    ghost var w2 := When(!Truthy(Get(containerSecurity, "readOnlyRootFilesystem", Null)), MissingReadOnlyRoot);
    assert r == step + w2;
    step := r;
    var capabilities := Sub(containerSecurity, "capabilities");
    if Get(capabilities, "drop", Null) != Seq([Str("ALL")]) {
      r := r + [MustDropAll];
    }
    ghost var w3 := When(Drop(container) != Seq([Str("ALL")]), MustDropAll);
    assert r == step + w3;
    step := r;
    if Get(Sub(podSecurity, "seccompProfile"), "type", Null) != Str("RuntimeDefault") {
      r := r + [MissingSeccomp];
    }
    ghost var w4 := When(SeccompType(podSecurity) != Str("RuntimeDefault"), MissingSeccomp);
    assert r == step + w4;
    AppendFour(issues, w1, w2, w3, w4);
  }

  lemma AppendFour<T>(x: seq<T>, a: seq<T>, b: seq<T>, c: seq<T>, d: seq<T>)
    ensures x + a + b + c + d == x + (a + b + c + d)
  {
  }

  /** Rule 03 of the checker: the first container's image reference. */
  method CheckImage(issues: seq<Issue>, image: string) returns (r: seq<Issue>)
    ensures r == issues + ImageIssues(image)
  {
    r := issues;
    if HasSubstring(image, ":latest") {
      r := r + [LatestTag];
    }
    if !StartsWith(image, "registry.bank.internal/") && !StartsWith(image, "quay.io/redhat-openshift-approved/") {
      r := r + [UnapprovedRegistry];
    }
    if !HasSubstring(image, "@sha256:") {
      r := r + [MissingDigest];
    }
  }

  // ---------------------------------------------------------------------------
  // What the issue list says

  /** Without `requests` or `limits` there is exactly one resource issue; with both, one per resource missing from either. */
  lemma ResourceIssuesCardinality(c: Node)
    ensures var resources := Sub(c, "resources");
            !In("requests", resources) || !In("limits", resources) ==> ResourceIssues(c) == [MissingResources]
    ensures var resources := Sub(c, "resources");
            var requests := Index(resources, "requests");
            var limits := Index(resources, "limits");
            In("requests", resources) && In("limits", resources) ==>
              && |ResourceIssues(c)| <= 2
              && MissingResources !in ResourceIssues(c)
              && (MissingCpu in ResourceIssues(c) <==> !In("cpu", requests) || !In("cpu", limits))
              && (MissingMemory in ResourceIssues(c) <==> !In("memory", requests) || !In("memory", limits))
  {
  }

  /**
   * Each security issue has its own cause: the capability issue unless `drop`
   * is exactly `['ALL']`, the seccomp issue from the pod context alone, the
   * non-root and read-only issues from the container context alone.
   */
  lemma SecurityIssuesIff(c: Node, podSecurity: Node)
    ensures var sec := Sub(c, "securityContext");
            && (MissingRunAsNonRoot in SecurityIssues(c, podSecurity) <==> !Truthy(Get(sec, "runAsNonRoot", Null)))
            && (MissingReadOnlyRoot in SecurityIssues(c, podSecurity) <==> !Truthy(Get(sec, "readOnlyRootFilesystem", Null)))
            && (MustDropAll in SecurityIssues(c, podSecurity) <==> Drop(c) != Seq([Str("ALL")]))
            && (MissingSeccomp in SecurityIssues(c, podSecurity) <==> SeccompType(podSecurity) != Str("RuntimeDefault"))
  {
  }

  /** Dropping `ALL` together with another capability, or dropping nothing, is a capability issue. */
  lemma DropMustBeExactlyAll()
    ensures var c := Map(map["securityContext" := Map(map["capabilities" := Map(map["drop" := Seq([Str("ALL"), Str("NET_ADMIN")])])])]);
            MustDropAll in SecurityIssues(c, EmptyMap)
    ensures MustDropAll in SecurityIssues(EmptyMap, EmptyMap)
  {
    SecurityIssuesIff(Map(map["securityContext" := Map(map["capabilities" := Map(map["drop" := Seq([Str("ALL"), Str("NET_ADMIN")])])])]), EmptyMap);
    SecurityIssuesIff(EmptyMap, EmptyMap);
  }

  /** The three image checks are independent: each issue is present exactly when its own test fails. */
  lemma ImageIssuesIff(image: string)
    ensures LatestTag in ImageIssues(image) <==> HasSubstring(image, ":latest")
    ensures UnapprovedRegistry in ImageIssues(image) <==> !Standards.FromApprovedRegistry(image)
    ensures MissingDigest in ImageIssues(image) <==> !HasSubstring(image, "@sha256:")
    ensures |ImageIssues(image)| <= 3
  {
  }

  /** One image can draw all three image issues. */
  lemma UntrustedLatestImageDrawsAllThree()
    ensures ImageIssues("x:latest") == [LatestTag, UnapprovedRegistry, MissingDigest]
  {
    SubstringAt("x:latest", ":latest", 1);
    assert !HasSubstring("x:latest", "@sha256:");
  }

  /** Labels are reported in list order: the issues for `a + b` are those for `a`, then those for `b`. */
  lemma {:induction false} LabelIssuesAppend(labels: Node, a: seq<string>, b: seq<string>)
    ensures LabelIssues(labels, a + b) == LabelIssues(labels, a) + LabelIssues(labels, b)
    decreases |b|
  {
    if b == [] {
      assert a + b == a;
    } else {
      var b' := b[..|b| - 1];
      assert (a + b)[..|a + b| - 1] == a + b';
      assert (a + b)[|a + b| - 1] == b[|b| - 1];
      LabelIssuesAppend(labels, a, b');
    }
  }

  /** Exactly the missing labels are reported, each once, and nothing else. */
  lemma {:induction false} LabelIssuesExact(labels: Node, ls: seq<string>)
    ensures forall key :: MissingLabel(key) in LabelIssues(labels, ls) <==> key in ls && !In(key, labels)
    ensures forall issue | issue in LabelIssues(labels, ls) :: exists key | key in ls :: issue == MissingLabel(key)
    ensures |LabelIssues(labels, ls)| <= |ls|
    decreases |ls|
  {
    if ls != [] {
      var init := ls[..|ls| - 1];
      var last := ls[|ls| - 1];
      LabelIssuesExact(labels, init);
      assert ls == init + [last];
    }
  }

  /** Each missing required label is reported once for every time the required list names it, and a present one never. */
  lemma {:induction false} LabelIssuesCount(labels: Node, ls: seq<string>)
    ensures forall key :: multiset(LabelIssues(labels, ls))[MissingLabel(key)] ==
              if In(key, labels) then 0 else multiset(ls)[key]
    decreases |ls|
  {
    if ls != [] {
      var init := ls[..|ls| - 1];
      var last := ls[|ls| - 1];
      LabelIssuesCount(labels, init);
      assert ls == init + [last];
      assert multiset(ls) == multiset(init) + multiset{last};
    }
  }

  /** The name issue is present exactly when the name fails the prefix and suffix test, and then it is the last issue. */
  lemma NameIssueIff(d: Node)
    ensures BadName in Issues(d) <==> !NameConforms(Name(d))
    ensures !NameConforms(Name(d)) ==> Issues(d)[|Issues(d)| - 1] == BadName
  {
    var c := FirstContainer(d);
    var r := ResourceIssues(c);
    var sc := SecurityIssues(c, PodSecurity(d));
    var m := ImageIssues(Standards.Image(c));
    var l := LabelIssues(Labels(d), Standards.RequiredLabels);
    ResourceIssuesAreRule01(c);
    SecurityIssuesAreRule02(c, PodSecurity(d));
    ImageIssuesAreRule03(Standards.Image(c));
    LabelIssuesExact(Labels(d), Standards.RequiredLabels);
    assert BadName !in r + sc + m + l by {
      NoBadNameOfRule(r, 1);
      NoBadNameOfRule(sc, 2);
      NoBadNameOfRule(m, 3);
    }
    assert Issues(d) == r + sc + m + l + NameIssues(Name(d));
    BadNameOnlyFromName(r + sc + m + l, Name(d));
  }

  lemma NoBadNameOfRule(issues: seq<Issue>, n: int)
    requires AllOfRule(issues, n) && n != 4
    ensures BadName !in issues
  {
  }

  lemma BadNameOnlyFromName(before: seq<Issue>, name: string)
    requires BadName !in before
    ensures BadName in before + NameIssues(name) <==> !NameConforms(name)
    ensures !NameConforms(name) ==> (before + NameIssues(name))[|before| + |NameIssues(name)| - 1] == BadName
  {
  }

  /** A Deployment missing only one required label gets exactly one label issue, naming it. */
  lemma {:induction false} OneMissingLabelOneIssue(labels: Node, ls: seq<string>, k: nat)
    requires k < |ls|
    requires !In(ls[k], labels)
    requires forall j | 0 <= j < |ls| && j != k :: In(ls[j], labels)
    ensures LabelIssues(labels, ls) == [MissingLabel(ls[k])]
    decreases |ls|
  {
    var init := ls[..|ls| - 1];
    if k == |ls| - 1 {
      assert LabelIssues(labels, init) == [] by {
        LabelIssuesNone(labels, init);
      }
    } else {
      OneMissingLabelOneIssue(labels, init, k);
    }
  }

  lemma {:induction false} LabelIssuesNone(labels: Node, ls: seq<string>)
    requires forall j | 0 <= j < |ls| :: In(ls[j], labels)
    ensures LabelIssues(labels, ls) == []
    decreases |ls|
  {
    if ls != [] {
      LabelIssuesNone(labels, ls[..|ls| - 1]);
    }
  }

  predicate AllOfRule(issues: seq<Issue>, n: int) {
    forall i | 0 <= i < |issues| :: RuleOf(issues[i]) == n
  }

  predicate OrderedByRule(issues: seq<Issue>) {
    forall i, j | 0 <= i < j < |issues| :: RuleOf(issues[i]) <= RuleOf(issues[j])
  }

  lemma {:induction false} LabelIssuesAreRule04(labels: Node, ls: seq<string>)
    ensures AllOfRule(LabelIssues(labels, ls), 4)
    decreases |ls|
  {
    if ls != [] {
      var key := ls[|ls| - 1];
      LabelIssuesAreRule04(labels, ls[..|ls| - 1]);
      AllOfRuleConcat(LabelIssues(labels, ls[..|ls| - 1]), When(!In(key, labels), MissingLabel(key)), 4);
    }
  }

  lemma AllOfRuleConcat(a: seq<Issue>, b: seq<Issue>, n: int)
    requires AllOfRule(a, n) && AllOfRule(b, n)
    ensures AllOfRule(a + b, n)
  {
    forall i | 0 <= i < |a + b| ensures RuleOf((a + b)[i]) == n {
      if i >= |a| { assert (a + b)[i] == b[i - |a|]; }
    }
  }

  lemma OrderedAppend(a: seq<Issue>, b: seq<Issue>, m: int)
    requires OrderedByRule(a) && AllOfRule(b, m)
    requires forall i | 0 <= i < |a| :: RuleOf(a[i]) <= m
    ensures OrderedByRule(a + b)
    ensures forall i | 0 <= i < |a + b| :: RuleOf((a + b)[i]) <= m
  {
    forall i | 0 <= i < |a + b| ensures RuleOf((a + b)[i]) <= m {
      if i >= |a| { assert (a + b)[i] == b[i - |a|]; }
    }
    forall i, j | 0 <= i < j < |a + b| ensures RuleOf((a + b)[i]) <= RuleOf((a + b)[j]) {
      if j >= |a| {
        assert (a + b)[j] == b[j - |a|];
        if i >= |a| { assert (a + b)[i] == b[i - |a|]; }
      }
    }
  }

  lemma WhenOfRule(cond: bool, issue: Issue)
    ensures AllOfRule(When(cond, issue), RuleOf(issue))
  {
  }

  lemma ResourceIssuesAreRule01(c: Node)
    ensures AllOfRule(ResourceIssues(c), 1)
  {
  }

  lemma SecurityIssuesAreRule02(c: Node, podSecurity: Node)
    ensures AllOfRule(SecurityIssues(c, podSecurity), 2)
  {
    var sec := Sub(c, "securityContext");
    var w1 := When(!Truthy(Get(sec, "runAsNonRoot", Null)), MissingRunAsNonRoot);
    var w2 := When(!Truthy(Get(sec, "readOnlyRootFilesystem", Null)), MissingReadOnlyRoot);
    var w3 := When(Drop(c) != Seq([Str("ALL")]), MustDropAll);
    var w4 := When(SeccompType(podSecurity) != Str("RuntimeDefault"), MissingSeccomp);
    AllOfRuleConcat(w1, w2, 2);
    AllOfRuleConcat(w1 + w2, w3, 2);
    AllOfRuleConcat(w1 + w2 + w3, w4, 2);
  }

  lemma ImageIssuesAreRule03(image: string)
    ensures AllOfRule(ImageIssues(image), 3)
  {
    var v1 := When(HasSubstring(image, ":latest"), LatestTag);
    var v2 := When(!Standards.FromApprovedRegistry(image), UnapprovedRegistry);
    var v3 := When(!HasSubstring(image, "@sha256:"), MissingDigest);
    AllOfRuleConcat(v1, v2, 3);
    AllOfRuleConcat(v1 + v2, v3, 3);
  }

  /** Five blocks of issues of rules 1, 2, 3, 4 and 4, laid end to end, are ordered by rule. */
  lemma BlocksInRuleOrder(r: seq<Issue>, s: seq<Issue>, m: seq<Issue>, l: seq<Issue>, n: seq<Issue>)
    requires AllOfRule(r, 1) && AllOfRule(s, 2) && AllOfRule(m, 3) && AllOfRule(l, 4) && AllOfRule(n, 4)
    ensures OrderedByRule(r + s + m + l + n)
  {
    OrderedAppend([], r, 1);
    assert [] + r == r;
    OrderedAppend(r, s, 2);
    OrderedAppend(r + s, m, 3);
    OrderedAppend(r + s + m, l, 4);
    OrderedAppend(r + s + m + l, n, 4);
  }

  /** Issues come in check order: every Rule 01 issue before every Rule 02 issue, and so on up to Rule 04. */
  lemma IssuesInRuleOrder(d: Node)
    ensures OrderedByRule(Issues(d))
  {
    var c := FirstContainer(d);
    var r := ResourceIssues(c);
    var s := SecurityIssues(c, PodSecurity(d));
    var m := ImageIssues(Standards.Image(c));
    var l := LabelIssues(Labels(d), Standards.RequiredLabels);
    var n := NameIssues(Name(d));
    ResourceIssuesAreRule01(c);
    SecurityIssuesAreRule02(c, PodSecurity(d));
    ImageIssuesAreRule03(Standards.Image(c));
    assert AllOfRule(n, 4);
    LabelIssuesAreRule04(Labels(d), Standards.RequiredLabels);
    BlocksInRuleOrder(r, s, m, l, n);
  }

  /** The Deployment is compliant exactly when every check passes. */
  lemma CompliantIff(d: Node)
    ensures Issues(d) == [] <==>
      var c := FirstContainer(d);
      var resources := Sub(c, "resources");
      var sec := Sub(c, "securityContext");
      var image := Standards.Image(c);
      && In("requests", resources) && In("limits", resources)
      && In("cpu", Index(resources, "requests")) && In("cpu", Index(resources, "limits"))
      && In("memory", Index(resources, "requests")) && In("memory", Index(resources, "limits"))
      && Truthy(Get(sec, "runAsNonRoot", Null)) && Truthy(Get(sec, "readOnlyRootFilesystem", Null))
      && Drop(c) == Seq([Str("ALL")])
      && SeccompType(PodSecurity(d)) == Str("RuntimeDefault")
      && !HasSubstring(image, ":latest") && Standards.FromApprovedRegistry(image) && HasSubstring(image, "@sha256:")
      && (forall key | key in Standards.RequiredLabels :: In(key, Labels(d)))
      && NameConforms(Name(d))
  {
    var c := FirstContainer(d);
    var r := ResourceIssues(c);
    var s := SecurityIssues(c, PodSecurity(d));
    var m := ImageIssues(Standards.Image(c));
    var l := LabelIssues(Labels(d), Standards.RequiredLabels);
    var n := NameIssues(Name(d));
    assert Issues(d) == r + s + m + l + n;
    assert r + s + m + l + n == [] <==> r == [] && s == [] && m == [] && l == [] && n == [] by {
      assert |r + s + m + l + n| == |r| + |s| + |m| + |l| + |n|;
    }
    SecurityIssuesEmptyIff(c, PodSecurity(d));
    ImageIssuesEmptyIff(Standards.Image(c));
    LabelIssuesEmptyIff(Labels(d), Standards.RequiredLabels);
  }

  lemma SecurityIssuesEmptyIff(c: Node, podSecurity: Node)
    ensures SecurityIssues(c, podSecurity) == [] <==>
      var sec := Sub(c, "securityContext");
      && Truthy(Get(sec, "runAsNonRoot", Null)) && Truthy(Get(sec, "readOnlyRootFilesystem", Null))
      && Drop(c) == Seq([Str("ALL")]) && SeccompType(podSecurity) == Str("RuntimeDefault")
  {
    SecurityIssuesIff(c, podSecurity);
  }

  lemma ImageIssuesEmptyIff(image: string)
    ensures ImageIssues(image) == [] <==>
      !HasSubstring(image, ":latest") && Standards.FromApprovedRegistry(image) && HasSubstring(image, "@sha256:")
  {
    ImageIssuesIff(image);
  }

  lemma LabelIssuesEmptyIff(labels: Node, ls: seq<string>)
    ensures LabelIssues(labels, ls) == [] <==> forall key | key in ls :: In(key, labels)
  {
    LabelIssuesExact(labels, ls);
    if forall key | key in ls :: In(key, labels) {
      LabelIssuesNone(labels, ls);
      assert forall j | 0 <= j < |ls| :: ls[j] in ls;
    } else {
      var key :| key in ls && !In(key, labels);
      assert MissingLabel(key) in LabelIssues(labels, ls);
    }
  }

  /** Only `containers[0]`, the pod security context and the metadata labels and name decide the result. */
  lemma OnlyFirstContainerMatters(d1: Node, d2: Node)
    requires FirstContainer(d1) == FirstContainer(d2)
    requires PodSecurity(d1) == PodSecurity(d2)
    requires Labels(d1) == Labels(d2) && Name(d1) == Name(d2)
    ensures Issues(d1) == Issues(d2)
  {
  }
}
