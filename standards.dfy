/**
 * The six-rule standards validator (validate_k8s_standards.py). Each rule walks
 * the loaded `(file name, manifest)` pairs in order and stops at the first
 * violation, reporting the file and the reason; the driver runs all six rules
 * and passes only when every one of them does.
 *
 * For each rule there is a specification function built from `Scan.First`
 * (RuleNN) and a method with the source's loops (ValidateRuleNN...) proved
 * equal to it; the lemmas state what passing a rule means.
 */
module Standards {
  import opened Scan
  import opened Yaml
  import opened Text
  import opened NamePattern

  /** One loaded file: its name and its parsed manifest. */
  type Entry = (string, Node)

  /** The violation a rule reports before it returns `False`. */
  datatype Failure = Failure(file: string, reason: string)

  /** `manifest.get('kind') == k`. */
  predicate IsKind(m: Node, k: string) {
    Get(m, "kind", Null) == Str(k)
  }

  predicate IsDeployment(m: Node) {
    IsKind(m, "Deployment")
  }

  /** `manifest.get('spec', {}).get('template', {}).get('spec', {})`. */
  function PodSpec(m: Node): Node {
    Sub(Sub(Sub(m, "spec"), "template"), "spec")
  }

  /** `PodSpec(m).get('containers', [])`, iterated. */
  function Containers(m: Node): seq<Node> {
    Items(Get(PodSpec(m), "containers", EmptySeq))
  }

  /** Every step of the chain that reaches the pod spec is a mapping. */
  predicate PodSpecShaped(m: Node) {
    m.Map? && Sub(m, "spec").Map? && Sub(Sub(m, "spec"), "template").Map? && PodSpec(m).Map?
  }

  /** The pod spec is reached through mappings and holds a list of container mappings. */
  predicate ContainersShaped(m: Node) {
    && PodSpecShaped(m)
    && Get(PodSpec(m), "containers", EmptySeq).Seq?
    && forall c | c in Containers(m) :: c.Map?
  }

  /** Attach the file name to a manifest's violation. */
  function Blame(file: string, fault: Option<string>): Option<Failure> {
    if fault.Some? then Some(Failure(file, fault.value)) else None
  }

  // ---------------------------------------------------------------------------
  // Rule 01: resource requests and limits

  function ResourceField(c: Node, k: nat): Node
    requires k < 4
  {
    var resources := Sub(c, "resources");
    var section := Get(resources, if k < 2 then "requests" else "limits", EmptyMap);
    Get(section, if k % 2 == 0 then "cpu" else "memory", Null)
  }

  const ResourceMessages: seq<string> :=
    ["Missing CPU requests", "Missing memory requests", "Missing CPU limits", "Missing memory limits"]

  /** The four checks of one container, in the source's order. */
  function ResourceFault(c: Node): Option<string> {
    var resources := Sub(c, "resources");
    var requests := Sub(resources, "requests");
    var limits := Sub(resources, "limits");
    if !Truthy(Get(requests, "cpu", Null)) then Some("Missing CPU requests")
    else if !Truthy(Get(requests, "memory", Null)) then Some("Missing memory requests")
    else if !Truthy(Get(limits, "cpu", Null)) then Some("Missing CPU limits")
    else if !Truthy(Get(limits, "memory", Null)) then Some("Missing memory limits")
    else None
  }

  function Rule01Manifest(m: Node): Option<string> {
    if IsDeployment(m) then First(Containers(m), ResourceFault) else None
  }

  function Rule01Entry(e: Entry): Option<Failure> {
    Blame(e.0, Rule01Manifest(e.1))
  }

  function Rule01(ms: seq<Entry>): Option<Failure> {
    First(ms, Rule01Entry)
  }

  predicate Rule01Shaped(m: Node) {
    && m.Map?
    && (IsDeployment(m) ==>
          && ContainersShaped(m)
          && forall c | c in Containers(m) ::
               Sub(c, "resources").Map? && Sub(Sub(c, "resources"), "requests").Map? && Sub(Sub(c, "resources"), "limits").Map?)
  }

  method ValidateRule01Resources(ms: seq<Entry>) returns (r: Option<Failure>)
    requires forall e | e in ms :: Rule01Shaped(e.1)
    ensures r == Rule01(ms)
  {
    var i := 0;
    assert ms[0..] == ms;
    while i < |ms|
      invariant 0 <= i <= |ms|
      invariant First(ms[i..], Rule01Entry) == Rule01(ms)
    {
      FirstStep(ms, i, Rule01Entry);
      var (filename, manifest) := ms[i];
      if IsDeployment(manifest) {
        var fault := FindFirst(Containers(manifest), ResourceFault);
        if fault.Some? {
          return Some(Failure(filename, fault.value));
        }
      }
      i := i + 1;
    }
    return None;
  }

  /** A container declares CPU and memory under both `requests` and `limits`, each truthy. */
  predicate ResourcesDeclared(c: Node) {
    forall k | 0 <= k < 4 :: Truthy(ResourceField(c, k))
  }

  /** The violation reported for a container is its first unset field, in the order requests.cpu, requests.memory, limits.cpu, limits.memory. */
  lemma ResourceFaultIsFirstUnset(c: Node, k: nat)
    requires k < 4
    ensures ResourceFault(c) == Some(ResourceMessages[k]) <==>
              !Truthy(ResourceField(c, k)) && forall j | 0 <= j < k :: Truthy(ResourceField(c, j))
    ensures ResourceFault(c).None? <==> ResourcesDeclared(c)
  {
    var resources := Sub(c, "resources");
    assert ResourceField(c, 0) == Get(Sub(resources, "requests"), "cpu", Null);
    assert ResourceField(c, 1) == Get(Sub(resources, "requests"), "memory", Null);
    assert ResourceField(c, 2) == Get(Sub(resources, "limits"), "cpu", Null);
    assert ResourceField(c, 3) == Get(Sub(resources, "limits"), "memory", Null);
  }

  /** Rule 01 passes exactly when every container of every Deployment declares its resources. */
  lemma Rule01PassesIff(ms: seq<Entry>)
    ensures Rule01(ms).None? <==>
              forall e | e in ms :: IsDeployment(e.1) ==> forall c | c in Containers(e.1) :: ResourcesDeclared(c)
  {
    FirstIsNoneIff(ms, Rule01Entry);
    forall e | e in ms
      ensures Rule01Entry(e).None? <==> (IsDeployment(e.1) ==> forall c | c in Containers(e.1) :: ResourcesDeclared(c))
    {
      FirstIsNoneIff(Containers(e.1), ResourceFault);
      forall c | c in Containers(e.1) ensures ResourceFault(c).None? <==> ResourcesDeclared(c) {
        ResourceFaultIsFirstUnset(c, 0);
      }
    }
  }

  /** A failing Rule 01 names the first failing file, a Deployment, and that container's first unset field. */
  lemma Rule01ReportsFirstFailure(ms: seq<Entry>)
    requires Rule01(ms).Some?
    ensures exists i, k | 0 <= i < |ms| && 0 <= k < |Containers(ms[i].1)| ::
              && ms[i].0 == Rule01(ms).value.file
              && IsDeployment(ms[i].1)
              && (forall j | 0 <= j < i :: Rule01Entry(ms[j]).None?)
              && ResourceFault(Containers(ms[i].1)[k]) == Some(Rule01(ms).value.reason)
              && forall j | 0 <= j < k :: ResourceFault(Containers(ms[i].1)[j]).None?
  {
    var i := FirstIsEarliest(ms, Rule01Entry);
    var m := ms[i].1;
    var k := FirstIsEarliest(Containers(m), ResourceFault);
  }

  // ---------------------------------------------------------------------------
  // Rule 02: pod security baseline

  function PodSecurity(m: Node): Node {
    Sub(PodSpec(m), "securityContext")
  }

  /** The pod-level checks, made before any container is looked at. */
  function PodSecurityFault(m: Node): Option<string> {
    var podSecurity := PodSecurity(m);
    if !Truthy(Get(podSecurity, "runAsNonRoot", Null)) then Some("Missing pod runAsNonRoot")
    else if Get(Sub(podSecurity, "seccompProfile"), "type", Null) != Str("RuntimeDefault")
    then Some("Missing pod seccompProfile")
    else None
  }

  /** `sec_ctx.get('capabilities', {}).get('drop', [])` of a container security context. */
  function DropList(sec: Node): Node {
    Get(Sub(sec, "capabilities"), "drop", EmptySeq)
  }

  function ContainerSecurityFault(c: Node): Option<string> {
    var sec := Sub(c, "securityContext");
    if !Truthy(Get(sec, "runAsNonRoot", Null)) then Some("Missing container runAsNonRoot")
    else if !Truthy(Get(sec, "readOnlyRootFilesystem", Null)) then Some("Missing readOnlyRootFilesystem")
    else if !In("ALL", DropList(sec)) then Some("Missing capabilities drop ALL")
    else if !IsFalse(Get(sec, "allowPrivilegeEscalation", Null)) then Some("allowPrivilegeEscalation should be false")
    else None
  }

  function Rule02Manifest(m: Node): Option<string> {
    if !IsDeployment(m) then None
    else if PodSecurityFault(m).Some? then PodSecurityFault(m)
    else First(Containers(m), ContainerSecurityFault)
  }

  function Rule02Entry(e: Entry): Option<Failure> {
    Blame(e.0, Rule02Manifest(e.1))
  }

  function Rule02(ms: seq<Entry>): Option<Failure> {
    First(ms, Rule02Entry)
  }

  predicate Rule02Shaped(m: Node) {
    && m.Map?
    && (IsDeployment(m) ==>
          && ContainersShaped(m)
          && PodSecurity(m).Map? && Sub(PodSecurity(m), "seccompProfile").Map?
          && forall c | c in Containers(m) ::
               && Sub(c, "securityContext").Map? && Sub(Sub(c, "securityContext"), "capabilities").Map?
               && SupportsIn(DropList(Sub(c, "securityContext"))))
  }

  method ValidateRule02Security(ms: seq<Entry>) returns (r: Option<Failure>)
    requires forall e | e in ms :: Rule02Shaped(e.1)
    ensures r == Rule02(ms)
  {
    var i := 0;
    assert ms[0..] == ms;
    while i < |ms|
      invariant 0 <= i <= |ms|
      invariant First(ms[i..], Rule02Entry) == Rule02(ms)
    {
      FirstStep(ms, i, Rule02Entry);
      var (filename, manifest) := ms[i];
      if IsDeployment(manifest) {
        var podFault := PodSecurityFault(manifest);
        if podFault.Some? {
          return Some(Failure(filename, podFault.value));
        }
        var fault := FindFirst(Containers(manifest), ContainerSecurityFault);
        if fault.Some? {
          return Some(Failure(filename, fault.value));
        }
      }
      i := i + 1;
    }
    return None;
  }

  /** The pod-level part of the baseline. */
  predicate PodSecure(m: Node) {
    && Truthy(Get(PodSecurity(m), "runAsNonRoot", Null))
    && Get(Sub(PodSecurity(m), "seccompProfile"), "type", Null) == Str("RuntimeDefault")
  }

  /** The container-level part: non-root, read-only root filesystem, `ALL` among the dropped capabilities, escalation exactly `False`. */
  predicate ContainerSecure(c: Node) {
    var sec := Sub(c, "securityContext");
    && Truthy(Get(sec, "runAsNonRoot", Null))
    && Truthy(Get(sec, "readOnlyRootFilesystem", Null))
    && In("ALL", DropList(sec))
    && IsFalse(Get(sec, "allowPrivilegeEscalation", Null))
  }

  /** Rule 02 passes exactly when every Deployment is secure at pod level and in every container. */
  lemma Rule02PassesIff(ms: seq<Entry>)
    ensures Rule02(ms).None? <==>
              forall e | e in ms :: IsDeployment(e.1) ==>
                PodSecure(e.1) && forall c | c in Containers(e.1) :: ContainerSecure(c)
  {
    FirstIsNoneIff(ms, Rule02Entry);
    forall e | e in ms
      ensures Rule02Entry(e).None? <==>
                (IsDeployment(e.1) ==> PodSecure(e.1) && forall c | c in Containers(e.1) :: ContainerSecure(c))
    {
      FirstIsNoneIff(Containers(e.1), ContainerSecurityFault);
    }
  }

  /** Dropping `ALL` together with other capabilities satisfies the membership test; an absent list does not. */
  lemma DropAllAmongOthersPasses()
    ensures DropList(Map(map["capabilities" := Map(map["drop" := Seq([Str("ALL"), Str("NET_ADMIN")])])])) ==
              Seq([Str("ALL"), Str("NET_ADMIN")])
    ensures In("ALL", Seq([Str("ALL"), Str("NET_ADMIN")]))
    ensures !In("ALL", DropList(EmptyMap))
  {
  }

  /** `allowPrivilegeEscalation` must be the boolean `False`: absent or `null`, `0`, or `true` all fail. */
  lemma EscalationMustBeFalse(c: Node)
    requires Get(Sub(c, "securityContext"), "allowPrivilegeEscalation", Null) in {Null, Int(0), Bool(true)}
    ensures !ContainerSecure(c)
  {
  }

  // ---------------------------------------------------------------------------
  // Rule 03: image provenance

  /** `container.get('image', '')`. */
  function Image(c: Node): string {
    StrOf(Get(c, "image", Str("")))
  }

  predicate FromApprovedRegistry(image: string) {
    StartsWith(image, "registry.bank.internal/") || StartsWith(image, "quay.io/redhat-openshift-approved/")
  }

  function ImageFault(c: Node): Option<string> {
    var image := Image(c);
    if EndsWith(image, ":latest") then Some("Image uses :latest tag")
    else if !FromApprovedRegistry(image) then Some("Image not from approved registry")
    else if !HasSubstring(image, "@sha256:") then Some("Image not pinned with digest")
    else None
  }

  function Rule03Manifest(m: Node): Option<string> {
    if IsDeployment(m) then First(Containers(m), ImageFault) else None
  }

  function Rule03Entry(e: Entry): Option<Failure> {
    Blame(e.0, Rule03Manifest(e.1))
  }

  function Rule03(ms: seq<Entry>): Option<Failure> {
    First(ms, Rule03Entry)
  }

  predicate Rule03Shaped(m: Node) {
    && m.Map?
    && (IsDeployment(m) ==>
          && ContainersShaped(m)
          && forall c | c in Containers(m) :: Get(c, "image", Str("")).Str?)
  }

  method ValidateRule03Images(ms: seq<Entry>) returns (r: Option<Failure>)
    requires forall e | e in ms :: Rule03Shaped(e.1)
    ensures r == Rule03(ms)
  {
    var i := 0;
    assert ms[0..] == ms;
    while i < |ms|
      invariant 0 <= i <= |ms|
      invariant First(ms[i..], Rule03Entry) == Rule03(ms)
    {
      FirstStep(ms, i, Rule03Entry);
      var (filename, manifest) := ms[i];
      if IsDeployment(manifest) {
        var fault := FindFirst(Containers(manifest), ImageFault);
        if fault.Some? {
          return Some(Failure(filename, fault.value));
        }
      }
      i := i + 1;
    }
    return None;
  }

  /** An immutable, trusted image: no `:latest` suffix, an approved registry, a digest pin. */
  predicate ImageTrusted(image: string) {
    !EndsWith(image, ":latest") && FromApprovedRegistry(image) && HasSubstring(image, "@sha256:")
  }

  /** Rule 03 passes exactly when every Deployment container's image is trusted. */
  lemma Rule03PassesIff(ms: seq<Entry>)
    ensures Rule03(ms).None? <==>
              forall e | e in ms :: IsDeployment(e.1) ==> forall c | c in Containers(e.1) :: ImageTrusted(Image(c))
  {
    FirstIsNoneIff(ms, Rule03Entry);
    forall e | e in ms
      ensures Rule03Entry(e).None? <==> (IsDeployment(e.1) ==> forall c | c in Containers(e.1) :: ImageTrusted(Image(c)))
    {
      FirstIsNoneIff(Containers(e.1), ImageFault);
    }
  }

  /** A container without an image is read as `''` and fails the registry check. */
  lemma MissingImageFailsRegistry(c: Node)
    requires !In("image", c)
    ensures ImageFault(c) == Some("Image not from approved registry")
  {
  }

  // ---------------------------------------------------------------------------
  // Rule 04: naming and labels (every manifest, whatever its kind)

  const RequiredLabels: seq<string> :=
    ["app.kubernetes.io/name", "app.kubernetes.io/version", "app.kubernetes.io/part-of", "environment", "managed-by"]

  /** `manifest.get('metadata', {}).get('labels', {})`. */
  function Labels(m: Node): Node {
    Sub(Sub(m, "metadata"), "labels")
  }

  /** `manifest.get('metadata', {}).get('name', '')`. */
  function Name(m: Node): string {
    StrOf(Get(Sub(m, "metadata"), "name", Str("")))
  }

  /** The first label of `ls` that is not `in labels`. */
  function FirstMissingLabel(labels: Node, ls: seq<string>): Option<string>
    decreases |ls|
  {
    if ls == [] then None
    else if !In(ls[0], labels) then Some(ls[0])
    else FirstMissingLabel(labels, ls[1..])
  }

  function Rule04Manifest(m: Node): Option<string> {
    var missing := FirstMissingLabel(Labels(m), RequiredLabels);
    if missing.Some? then Some("Missing required label " + missing.value)
    else if !MatchesNamePattern(Name(m)) then Some("Name doesn't follow team-app-env convention")
    else None
  }

  function Rule04Entry(e: Entry): Option<Failure> {
    Blame(e.0, Rule04Manifest(e.1))
  }

  function Rule04(ms: seq<Entry>): Option<Failure> {
    First(ms, Rule04Entry)
  }

  predicate Rule04Shaped(m: Node) {
    && m.Map? && Sub(m, "metadata").Map?
    && SupportsIn(Labels(m))
    && Get(Sub(m, "metadata"), "name", Str("")).Str?
  }

  method ValidateRule04Naming(ms: seq<Entry>) returns (r: Option<Failure>)
    requires forall e | e in ms :: Rule04Shaped(e.1)
    ensures r == Rule04(ms)
  {
    var i := 0;
    assert ms[0..] == ms;
    while i < |ms|
      invariant 0 <= i <= |ms|
      invariant First(ms[i..], Rule04Entry) == Rule04(ms)
    {
      FirstStep(ms, i, Rule04Entry);
      r := CheckNaming(ms[i].0, ms[i].1);
      if r.Some? {
        return;
      }
      i := i + 1;
    }
    return None;
  }

  /** The body of the Rule 04 loop for one manifest: labels first, then the name. */
  method CheckNaming(filename: string, manifest: Node) returns (r: Option<Failure>)
    ensures r == Rule04Entry((filename, manifest))
  {
    var missing := FindMissingLabel(Labels(manifest), RequiredLabels);
    if missing.Some? {
      return Some(Failure(filename, "Missing required label " + missing.value));
    }
    if !MatchesNamePattern(Name(manifest)) {
      return Some(Failure(filename, "Name doesn't follow team-app-env convention"));
    }
    return None;
  }

  /** The inner loop of Rule 04 over the required labels, returning at the first one absent. */
  method FindMissingLabel(labels: Node, ls: seq<string>) returns (r: Option<string>)
    ensures r == FirstMissingLabel(labels, ls)
  {
    var k := 0;
    assert ls[0..] == ls;
    while k < |ls|
      invariant 0 <= k <= |ls|
      invariant FirstMissingLabel(labels, ls[k..]) == FirstMissingLabel(labels, ls)
    {
      assert ls[k..][1..] == ls[k + 1..];
      var key := ls[k];
      if !In(key, labels) {
        return Some(key);
      }
      k := k + 1;
    }
    return None;
  }

  /** The first missing label is one that is absent, after labels that are all present. */
  lemma {:induction false} FirstMissingLabelIsFirst(labels: Node, ls: seq<string>)
    ensures FirstMissingLabel(labels, ls).None? <==> forall l | l in ls :: In(l, labels)
    ensures FirstMissingLabel(labels, ls).Some? ==>
              exists k | 0 <= k < |ls| ::
                ls[k] == FirstMissingLabel(labels, ls).value && !In(ls[k], labels) &&
                forall j | 0 <= j < k :: In(ls[j], labels)
    decreases |ls|
  {
    if ls != [] {
      FirstMissingLabelIsFirst(labels, ls[1..]);
      assert forall l | l in ls :: l == ls[0] || l in ls[1..];
      if In(ls[0], labels) && FirstMissingLabel(labels, ls).Some? {
        var k :| 0 <= k < |ls[1..]| && ls[1..][k] == FirstMissingLabel(labels, ls).value && !In(ls[1..][k], labels) &&
                 forall j | 0 <= j < k :: In(ls[1..][j], labels);
        assert ls[k + 1] == ls[1..][k];
        forall j | 0 <= j < k + 1 ensures In(ls[j], labels) {
          if j > 0 { assert ls[j] == ls[1..][j - 1]; }
        }
      }
    }
  }

  /** Rule 04 passes exactly when every manifest has all five label keys and a conforming name. */
  lemma Rule04PassesIff(ms: seq<Entry>)
    ensures Rule04(ms).None? <==>
              forall e | e in ms :: (forall l | l in RequiredLabels :: In(l, Labels(e.1))) && MatchesNamePattern(Name(e.1))
  {
    FirstIsNoneIff(ms, Rule04Entry);
    forall e | e in ms
      ensures Rule04Entry(e).None? <==>
                (forall l | l in RequiredLabels :: In(l, Labels(e.1))) && MatchesNamePattern(Name(e.1))
    {
      FirstMissingLabelIsFirst(Labels(e.1), RequiredLabels);
    }
  }

  /** A manifest without a name fails Rule 04 even with every label in place. */
  lemma MissingNameFails(m: Node)
    requires !In("name", Sub(m, "metadata"))
    ensures Rule04Manifest(m).Some?
  {
    EmptyNameFails();
  }

  // ---------------------------------------------------------------------------
  // Rule 05: observability annotations (Deployments and Services)

  /** `manifest.get('metadata', {}).get('annotations', {})`. */
  function Annotations(m: Node): Node {
    Sub(Sub(m, "metadata"), "annotations")
  }

  predicate IsObserved(m: Node) {
    IsKind(m, "Deployment") || IsKind(m, "Service")
  }

  function Rule05Manifest(m: Node): Option<string> {
    if !IsObserved(m) then None
    else if !In("prometheus.io/scrape", Annotations(m)) then Some("Missing prometheus.io/scrape annotation")
    else if !In("prometheus.io/port", Annotations(m)) then Some("Missing prometheus.io/port annotation")
    else None
  }

  function Rule05Entry(e: Entry): Option<Failure> {
    Blame(e.0, Rule05Manifest(e.1))
  }

  function Rule05(ms: seq<Entry>): Option<Failure> {
    First(ms, Rule05Entry)
  }

  predicate Rule05Shaped(m: Node) {
    && m.Map?
    && (IsObserved(m) ==> Sub(m, "metadata").Map? && SupportsIn(Annotations(m)))
  }

  method ValidateRule05Observability(ms: seq<Entry>) returns (r: Option<Failure>)
    requires forall e | e in ms :: Rule05Shaped(e.1)
    ensures r == Rule05(ms)
  {
    var i := 0;
    assert ms[0..] == ms;
    while i < |ms|
      invariant 0 <= i <= |ms|
      invariant First(ms[i..], Rule05Entry) == Rule05(ms)
    {
      FirstStep(ms, i, Rule05Entry);
      var (filename, manifest) := ms[i];
      if IsObserved(manifest) {
        var annotations := Annotations(manifest);
        if !In("prometheus.io/scrape", annotations) {
          return Some(Failure(filename, "Missing prometheus.io/scrape annotation"));
        }
        if !In("prometheus.io/port", annotations) {
          return Some(Failure(filename, "Missing prometheus.io/port annotation"));
        }
      }
      i := i + 1;
    }
    return None;
  }

  /** Rule 05 passes exactly when every Deployment and Service carries both annotation keys, whatever their values. */
  lemma Rule05PassesIff(ms: seq<Entry>)
    ensures Rule05(ms).None? <==>
              forall e | e in ms :: IsObserved(e.1) ==>
                In("prometheus.io/scrape", Annotations(e.1)) && In("prometheus.io/port", Annotations(e.1))
  {
    FirstIsNoneIff(ms, Rule05Entry);
  }

  // ---------------------------------------------------------------------------
  // Rule 06: health probes

  function ProbeFault(c: Node): Option<string> {
    if !Truthy(Get(c, "livenessProbe", Null)) then Some("Missing liveness probe")
    else if !Truthy(Get(c, "readinessProbe", Null)) then Some("Missing readiness probe")
    else None
  }

  function Rule06Manifest(m: Node): Option<string> {
    if IsDeployment(m) then First(Containers(m), ProbeFault) else None
  }

  function Rule06Entry(e: Entry): Option<Failure> {
    Blame(e.0, Rule06Manifest(e.1))
  }

  function Rule06(ms: seq<Entry>): Option<Failure> {
    First(ms, Rule06Entry)
  }

  predicate Rule06Shaped(m: Node) {
    m.Map? && (IsDeployment(m) ==> ContainersShaped(m))
  }

  method ValidateRule06HealthProbes(ms: seq<Entry>) returns (r: Option<Failure>)
    requires forall e | e in ms :: Rule06Shaped(e.1)
    ensures r == Rule06(ms)
  {
    var i := 0;
    assert ms[0..] == ms;
    while i < |ms|
      invariant 0 <= i <= |ms|
      invariant First(ms[i..], Rule06Entry) == Rule06(ms)
    {
      FirstStep(ms, i, Rule06Entry);
      var (filename, manifest) := ms[i];
      if IsDeployment(manifest) {
        var fault := FindFirst(Containers(manifest), ProbeFault);
        if fault.Some? {
          return Some(Failure(filename, fault.value));
        }
      }
      i := i + 1;
    }
    return None;
  }

  /** Rule 06 passes exactly when every Deployment container has truthy liveness and readiness probes. */
  lemma Rule06PassesIff(ms: seq<Entry>)
    ensures Rule06(ms).None? <==>
              forall e | e in ms :: IsDeployment(e.1) ==>
                forall c | c in Containers(e.1) ::
                  Truthy(Get(c, "livenessProbe", Null)) && Truthy(Get(c, "readinessProbe", Null))
  {
    FirstIsNoneIff(ms, Rule06Entry);
    forall e | e in ms
      ensures Rule06Entry(e).None? <==>
                (IsDeployment(e.1) ==> forall c | c in Containers(e.1) ::
                   Truthy(Get(c, "livenessProbe", Null)) && Truthy(Get(c, "readinessProbe", Null)))
    {
      FirstIsNoneIff(Containers(e.1), ProbeFault);
    }
  }

  /** An empty probe mapping counts as a missing probe. */
  lemma EmptyProbeIsMissing(c: Node)
    requires Get(c, "livenessProbe", Null) == EmptyMap
    ensures ProbeFault(c) == Some("Missing liveness probe")
  {
  }

  // ---------------------------------------------------------------------------
  // Properties shared by the rules

  /** A Deployment without containers passes Rules 01, 03 and 06, while Rule 02 still checks its pod context. */
  lemma NoContainersIsVacuous(m: Node)
    requires IsDeployment(m)
    requires !In("containers", PodSpec(m)) || Get(PodSpec(m), "containers", EmptySeq) == EmptySeq
    ensures Containers(m) == []
    ensures Rule01Manifest(m).None? && Rule03Manifest(m).None? && Rule06Manifest(m).None?
    ensures Rule02Manifest(m) == PodSecurityFault(m)
  {
  }

  /** The six rules, in the order the driver runs them. */
  datatype Rule = Resources | Security | Images | Naming | Observability | HealthProbes

  const Rules: seq<Rule> := [Resources, Security, Images, Naming, Observability, HealthProbes]

  function Outcome(rule: Rule, ms: seq<Entry>): Option<Failure> {
    match rule
    case Resources => Rule01(ms)
    case Security => Rule02(ms)
    case Images => Rule03(ms)
    case Naming => Rule04(ms)
    case Observability => Rule05(ms)
    case HealthProbes => Rule06(ms)
  }

  /** Manifests that no rule would crash on. */
  predicate Shaped(m: Node) {
    Rule01Shaped(m) && Rule02Shaped(m) && Rule03Shaped(m) && Rule04Shaped(m) && Rule05Shaped(m) && Rule06Shaped(m)
  }

  /** A manifest with a kind other than the ones a rule filters on changes nothing in that rule's outcome. */
  lemma OtherKindsIgnored(rule: Rule, a: seq<Entry>, e: Entry, b: seq<Entry>)
    requires rule != Naming
    requires !IsDeployment(e.1)
    requires rule == Observability ==> !IsKind(e.1, "Service")
    ensures Outcome(rule, a + [e] + b) == Outcome(rule, a + b)
  {
    match rule
    case Resources =>
      FirstAppend(a + [e], b, Rule01Entry); FirstAppend(a, [e], Rule01Entry); FirstAppend(a, b, Rule01Entry);
    case Security =>
      FirstAppend(a + [e], b, Rule02Entry); FirstAppend(a, [e], Rule02Entry); FirstAppend(a, b, Rule02Entry);
    case Images =>
      FirstAppend(a + [e], b, Rule03Entry); FirstAppend(a, [e], Rule03Entry); FirstAppend(a, b, Rule03Entry);
    case Observability =>
      FirstAppend(a + [e], b, Rule05Entry); FirstAppend(a, [e], Rule05Entry); FirstAppend(a, b, Rule05Entry);
    case HealthProbes =>
      FirstAppend(a + [e], b, Rule06Entry); FirstAppend(a, [e], Rule06Entry); FirstAppend(a, b, Rule06Entry);
  }

  /**
   * The driver: every rule runs, whatever the earlier ones returned, and the
   * verdict is that all of them passed. `outcomes[k]` is what rule `k` returned.
   */
  method RunAllRules(ms: seq<Entry>) returns (allPassed: bool, outcomes: seq<Option<Failure>>)
    requires forall e | e in ms :: Shaped(e.1)
    ensures |outcomes| == |Rules|
    ensures forall k | 0 <= k < |Rules| :: outcomes[k] == Outcome(Rules[k], ms)
    ensures allPassed <==> forall k | 0 <= k < |Rules| :: outcomes[k].None?
  {
    allPassed := true;
    outcomes := [];
    for k := 0 to |Rules|
      invariant |outcomes| == k
      invariant forall j | 0 <= j < k :: outcomes[j] == Outcome(Rules[j], ms)
      invariant allPassed <==> forall j | 0 <= j < k :: outcomes[j].None?
    {
      var r: Option<Failure>;
      match Rules[k] {
        case Resources => r := ValidateRule01Resources(ms);
        case Security => r := ValidateRule02Security(ms);
        case Images => r := ValidateRule03Images(ms);
        case Naming => r := ValidateRule04Naming(ms);
        case Observability => r := ValidateRule05Observability(ms);
        case HealthProbes => r := ValidateRule06HealthProbes(ms);
      }
      outcomes := outcomes + [r];
      if r.Some? {
        allPassed := false;
      }
    }
  }
}
