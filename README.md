# Kubernetes manifest policy checkers, modelled in Dafny

The repository holds four small Python scripts. Each one checks a banking
team's Kubernetes manifests against house rules:

- `validate_k8s_standards.py` runs six rules over every loaded manifest.
  - Rule 01: resource requests and limits.
  - Rule 02: the pod and container security contexts.
  - Rule 03: image provenance.
  - Rule 04: labels and the name convention.
  - Rule 05: Prometheus annotations.
  - Rule 06: health probes.
  
  Each rule stops at its first violation. The driver runs all six rules and passes only if each one passes.
- `validate_k8s.py` (`check_k8s_standards_compliance`) looks at the first container of one Deployment. It appends every issue it finds to an ordered list, without stopping early, and passes when the list stays empty. Its rules differ from the six-rule validator on purpose:
  - key presence instead of truthiness;
  - `drop == ['ALL']` instead of membership;
  - `:latest` anywhere instead of as a suffix;
  - a `banking-team-`/`-prod` name instead of a regular expression.
- `validate_yaml.py` and `simple_yaml_check.py` are text-level checks of a file's content. Each has a small loop over files.

The model has these modules:

| module | file | contents |
|---|---|---|
| `Text` | `text.dfy` | `startswith`, `endswith`, substring `in`, `strip()` over ASCII whitespace |
| `Scan` | `scan.dfy` | `First`, the "return at the first violation" loop every rule shares, with its loop method `FindFirst` and its lemmas |
| `Yaml` | `yaml.dfy` | a parsed YAML `Node`, plus Python's `.get`, truthiness, `key in x` and `is False` as separate notions |
| `NamePattern` | `name_pattern.dfy` | the regular expression `^[a-z]+-[a-z]+-[a-z-]+-[a-z]+$` as an explicit predicate over the positions of its three dashes |
| `Standards` | `standards.dfy` | the six-rule validator |
| `Compliance` | `compliance.dfy` | the issue-list checker |
| `StructureCheck` | `structure_check.dfy` | `validate_yaml.py` |
| `SyntaxCheck` | `syntax_check.dfy` | `simple_yaml_check.py` |
| `Variants` | `variants.dfy` | lemmas on how the two manifest checkers and the two text checkers relate, with a concrete input wherever an implication does not reverse |

The six-rule validator has two layers:

- A specification function per rule, `RuleNN`. It is `Scan.First` over the loaded `(file, manifest)` pairs and returns the first `Failure(file, reason)`, or `None` when the rule passes.
- A method per rule, `ValidateRuleNN…`. It has the source's loops and is proved equal to that function.

The Python `manifests` dict is modelled as a sequence of pairs in its iteration order.

In the issue-list checker, each entry of the list is an `Issue` value. `Message(issue)` gives the exact text the source appends. The single Python function is split into helper methods: `CheckResources` (Rule 01), `CheckSecurity` (Rule 02), `CheckImage` (Rule 03) and `CheckLabels`, the label half of Rule 04. Each appends in the source's order. `CheckStandardsCompliance` chains them and then makes the other half of Rule 04, the name check, inline.

All navigation helpers are total. Python raises on ill-typed input, for example `.get` on a list or `deployment['spec']` when there is no `spec` key. Each operation instead requires, as a `…Shaped` predicate, the shape the source reads its input at.

## Model

| member | source | states |
|---|---|---|
| Yaml.TruthyGetImpliesPresent | validate_k8s_standards.py:39-50 | a truthy `d.get(k)` implies that `k` is a key of the mapping `d` |
| Yaml.IsFalseIsNotFalsy | validate_k8s_standards.py:83 | `is not False` holds for an absent key and for `0`, both of which fail `not d.get(k)`; `is False` implies the key is present |
| Text.HasSubstringIff | validate_k8s.py:85-91 | `needle in s` holds exactly when `needle` occurs in `s` at some offset |
| Text.StripEmptyIff | validate_yaml.py:9-11 | `strip()` gives the empty string exactly when the text is empty or whitespace only |
| Scan.FindFirst | validate_k8s_standards.py:34-50 | the loop over containers that returns at the first violation computes `First` |
| Scan.FirstIsNoneIff | validate_k8s_standards.py:31-53 | a first-violation scan passes exactly when every element passes |
| Scan.FirstIsEarliest | validate_k8s_standards.py:31-53 | a failing scan reports the violation of the earliest failing element, and every earlier element passes |
| Scan.FirstAppend | validate_k8s_standards.py:31 | scanning `a + b` looks at `b` only when `a` passes |
| Standards.ValidateRule01Resources | validate_k8s_standards.py:31-53 | the nested manifest/container loop returns exactly the first Rule 01 failure, or none |
| Standards.ResourceFaultIsFirstUnset | validate_k8s_standards.py:39-50 | a container's reported field is its first falsy one in the order requests.cpu, requests.memory, limits.cpu, limits.memory; there is no fault exactly when all four are truthy |
| Standards.Rule01PassesIff | validate_k8s_standards.py:31-53 | Rule 01 passes exactly when every container of every Deployment has all four quantities truthy |
| Standards.Rule01ReportsFirstFailure | validate_k8s_standards.py:31-53 | a failure names the first failing file, that file is a Deployment, and the reason is the fault of its first failing container, every earlier container passing |
| Standards.ValidateRule02Security | validate_k8s_standards.py:59-88 | the loop returns exactly the first Rule 02 failure: pod context first, then each container |
| Standards.Rule02PassesIff | validate_k8s_standards.py:60-85 | Rule 02 passes exactly when every Deployment has a truthy pod `runAsNonRoot`, a `RuntimeDefault` seccomp type, and in every container truthy `runAsNonRoot` and `readOnlyRootFilesystem`, `ALL` among the dropped capabilities and `allowPrivilegeEscalation` exactly `False` |
| Standards.DropAllAmongOthersPasses | validate_k8s_standards.py:80 | `drop: [ALL, NET_ADMIN]` passes the membership test; an absent drop list does not |
| Standards.EscalationMustBeFalse | validate_k8s_standards.py:83-85 | an absent, `0` or `true` `allowPrivilegeEscalation` makes the container insecure |
| Standards.ValidateRule03Images | validate_k8s_standards.py:94-114 | the loop returns exactly the first Rule 03 failure |
| Standards.Rule03PassesIff | validate_k8s_standards.py:98-111 | Rule 03 passes exactly when every Deployment image does not end in `:latest`, starts with an approved registry and contains `@sha256:` |
| Standards.MissingImageFailsRegistry | validate_k8s_standards.py:98-107 | a container without `image` is read as `''` and fails on the registry check |
| Standards.ValidateRule04Naming | validate_k8s_standards.py:128-142 | the loop over all manifests, whatever their kind, returns exactly the first Rule 04 failure |
| Standards.CheckNaming | validate_k8s_standards.py:129-139 | for one manifest, the labels are checked first and then the name |
| Standards.FindMissingLabel | validate_k8s_standards.py:131-134 | the label loop returns the first required label that is absent |
| Standards.FirstMissingLabelIsFirst | validate_k8s_standards.py:131-134 | no label is reported exactly when all are present; a reported label is absent and every label before it is present |
| Standards.Rule04PassesIff | validate_k8s_standards.py:120-139 | Rule 04 passes exactly when every manifest has all five label keys, whatever their values, and a name matching the pattern |
| Standards.MissingNameFails | validate_k8s_standards.py:136-139 | a manifest without `metadata.name` fails Rule 04 |
| Standards.ValidateRule05Observability | validate_k8s_standards.py:148-160 | the loop returns exactly the first Rule 05 failure |
| Standards.Rule05PassesIff | validate_k8s_standards.py:149-157 | Rule 05 passes exactly when every Deployment and Service has both annotation keys, whatever their values |
| Standards.ValidateRule06HealthProbes | validate_k8s_standards.py:166-181 | the loop returns exactly the first Rule 06 failure |
| Standards.Rule06PassesIff | validate_k8s_standards.py:170-178 | Rule 06 passes exactly when every Deployment container has truthy liveness and readiness probes |
| Standards.EmptyProbeIsMissing | validate_k8s_standards.py:170-173 | an empty probe mapping counts as missing |
| Standards.NoContainersIsVacuous | validate_k8s_standards.py:61-71 | a Deployment with no or an empty container list passes Rules 01, 03 and 06, while Rule 02 still reports its pod-level fault |
| Standards.OtherKindsIgnored | validate_k8s_standards.py:32 | inserting a manifest of another kind anywhere leaves every kind-filtered rule's outcome unchanged |
| Standards.RunAllRules | validate_k8s_standards.py:200-212 | all six rules run even after one fails, each outcome is that rule's result, and the verdict is true exactly when every rule passed |
| NamePattern.MatchImpliesAlphabet | validate_k8s_standards.py:137 | a matching name has only lower-case letters and dashes, a letter at each end, and at least seven characters |
| NamePattern.EmptyNameFails | validate_k8s_standards.py:136-137 | the default name `''` never matches |
| NamePattern.BankingProdNameMatches | validate_k8s_standards.py:137 | `banking-team-<x>-prod` matches for any non-empty `x` of letters and dashes |
| Compliance.CheckStandardsCompliance | validate_k8s.py:51-118 | the issue list is exactly `Issues(deployment)`, and the result is true exactly when the list is empty |
| Compliance.CheckResources | validate_k8s.py:54-66 | appends precisely the Rule 01 issues |
| Compliance.CheckSecurity | validate_k8s.py:68-82 | appends precisely the Rule 02 issues |
| Compliance.CheckImage | validate_k8s.py:84-92 | appends precisely the Rule 03 issues |
| Compliance.CheckLabels | validate_k8s.py:102-105 | the label half of Rule 04: appends one label issue per missing required label, in list order |
| Compliance.MessageNamesRule | validate_k8s.py:57-109 | every message starts with `Rule 0N: ` for the issue's rule N, and a label message ends in the label's key |
| Compliance.ResourceIssuesCardinality | validate_k8s.py:56-66 | without `requests` or `limits` there is exactly one resource issue; with both there are at most two, a CPU issue exactly when `cpu` is missing from either and a memory issue likewise |
| Compliance.SecurityIssuesIff | validate_k8s.py:68-82 | each Rule 02 issue appears exactly when its own test fails: drop not exactly `['ALL']`, seccomp from the pod context only, the two flags from the container context only |
| Compliance.DropMustBeExactlyAll | validate_k8s.py:77-79 | `[ALL, NET_ADMIN]` and an absent drop list both draw the capability issue |
| Compliance.ImageIssuesIff | validate_k8s.py:84-92 | the three image issues are independent, each present exactly when its own test fails |
| Compliance.UntrustedLatestImageDrawsAllThree | validate_k8s.py:84-92 | one image can draw all three image issues |
| Compliance.LabelIssuesAppend | validate_k8s.py:103-105 | label issues come in the order of the required list |
| Compliance.LabelIssuesExact | validate_k8s.py:94-105 | a label issue names a key exactly when that key is required and missing, there are no other label issues, and there are at most as many as required labels |
| Compliance.LabelIssuesCount | validate_k8s.py:103-105 | each missing required label is reported exactly as often as the required list names it, and a present one never |
| Compliance.NameIssueIff | validate_k8s.py:107-109 | the name issue is present exactly when the name does not start with `banking-team-` and end with `-prod`, and it is then the last issue |
| Compliance.OneMissingLabelOneIssue | validate_k8s.py:103-105 | a single missing label gives exactly one label issue, naming it |
| Compliance.LabelIssuesEmptyIff | validate_k8s.py:103-105 | there is no label issue exactly when every required label is present |
| Compliance.IssuesInRuleOrder | validate_k8s.py:51-109 | the issues are ordered by rule number, Rule 01 through Rule 04 |
| Compliance.CompliantIff | validate_k8s.py:111-118 | the list is empty exactly when all fifteen individual checks pass |
| Compliance.OnlyFirstContainerMatters | validate_k8s.py:53 | two Deployments with the same first container, pod security context, labels and name get the same issues |
| StructureCheck.BasicYamlCheck | validate_yaml.py:5-22 | the method with the field loop returns exactly `Verdict(raw)` |
| StructureCheck.FirstMissingIsFirst | validate_yaml.py:17-20 | no field is reported exactly when all three occur; a reported field is absent and the fields before it occur |
| StructureCheck.EmptyIffWhitespace | validate_yaml.py:9-12 | the result is `(False, "File is empty")` exactly when the content is whitespace only |
| StructureCheck.VerdictValidIff | validate_yaml.py:11-22 | the file passes exactly when its stripped text is non-empty, starts with `apiVersion:` or `---` and contains all three fields; a pass has the message `"Basic structure looks good"` |
| StructureCheck.ApiVersionPrefixNeverMissing | validate_yaml.py:14-20 | text that starts with `apiVersion:` is never reported as missing that field |
| StructureCheck.SeparatorStillNeedsApiVersion | validate_yaml.py:14-20 | text that starts with `---` and has no `apiVersion:` is reported as missing `apiVersion:` |
| StructureCheck.ValidateAll | validate_yaml.py:28-39 | one report per fixed path, `File not found` for an absent one, and the verdict is true exactly when all three paths exist and pass |
| SyntaxCheck.BasicYamlCheck | simple_yaml_check.py:5-25 | the content passes exactly when it has a non-whitespace character; the message is `Basic syntax appears valid` or `Empty file` accordingly |
| SyntaxCheck.CheckDirectory | simple_yaml_check.py:29-44 | the selected files are `SelectYaml(listing)`, and the verdict is true exactly when every selected file passes |
| SyntaxCheck.CollectYaml | simple_yaml_check.py:31-34 | the first loop collects exactly `SelectYaml(listing)` |
| SyntaxCheck.SelectYamlIff | simple_yaml_check.py:33-34 | an entry is selected exactly when it is listed and its name ends in `.yaml` or `.yml` |
| SyntaxCheck.SelectYamlAppend | simple_yaml_check.py:32-34 | selection keeps listing order |
| SyntaxCheck.SelectYamlIdempotent | simple_yaml_check.py:33-34 | selecting from a selection adds and removes nothing |
| SyntaxCheck.NoYamlPasses | simple_yaml_check.py:36-44 | a listing with no YAML names selects nothing, so the directory passes vacuously |
| Variants.ExactDropImpliesMember | validate_k8s.py:78 | `drop == ['ALL']` implies the six-rule validator's `'ALL' in drop` |
| Variants.MemberDoesNotImplyExact | validate_k8s_standards.py:80 | `[ALL, NET_ADMIN]` passes membership but draws the capability issue |
| Variants.ContainerFlagsAgree | validate_k8s.py:71-75 | a container with no Rule 02 fault in the six-rule validator has neither flag issue in the issue list |
| Variants.NoImageIssuesPassesRule03 | validate_k8s_standards.py:100-111 | an image without issue-list image issues passes the six-rule validator's image rule |
| Variants.LatestInsideImage | validate_k8s.py:85 | `:latest` before a digest passes Rule 03 of the six-rule validator but is a `:latest` issue |
| Variants.DeclaredResourcesHaveNoIssues | validate_k8s.py:56-66 | four truthy resource quantities mean no issue-list resource issue |
| Variants.ZeroCpuIsPresentButUnset | validate_k8s_standards.py:39 | `cpu: 0` is present, so no issue, but falsy, so a Rule 01 violation |
| Variants.ConformingLowerCaseNameMatches | validate_k8s.py:108 | `banking-team-<x>-prod` with a lower-case `x` satisfies both name conventions |
| Variants.UpperCaseNameDiffers | validate_k8s_standards.py:137 | `banking-team-Credit-prod` passes the prefix/suffix test but not the regular expression |
| Variants.PatternNameDiffers | validate_k8s.py:108 | `ab-cd-ef-gh` matches the regular expression but fails the prefix test |
| Variants.StructureImpliesSyntax | simple_yaml_check.py:11-12 | content the structure checker accepts is accepted by the syntax checker |
| Variants.SyntaxDoesNotImplyStructure | validate_yaml.py:14-15 | non-blank text without `apiVersion:` passes the syntax checker and fails the structure checker |

## Left out

- File and directory I/O: `open`, `os.listdir`, `os.path.exists`, `Path.glob` and the handlers that turn read errors into messages. Content and listings are parameters: a map from path to content for `validate_yaml.py`, a list of name/content entries for `simple_yaml_check.py` and parsed `(file, manifest)` pairs for the six-rule validator.
- YAML parsing (`yaml.safe_load`, `load_yaml_files`, `validate_yaml_files`): a foreign library; a parsed `Node` is given. The `README.md` skip in `load_yaml_files` is left out with it.
- The Service and ConfigMap documents that `validate_k8s.py` loads and never reads: the model takes the Deployment alone.
- Console output, emoji and exit codes: the model returns the values the scripts print or exit on.
- `os.path.join(directory, file)` in `check_k8s_directory`: entries keep their bare names.
- The per-line loop in `simple_yaml_check.py`'s `basic_yaml_check`: every branch continues or falls through, so it cannot change the result. `SyntaxCheck.BasicYamlCheck`'s contract states the whole result without it.
- The regular expression engine: the pattern is an explicit predicate. One quirk is not modelled: Python's `$` also matches before a trailing newline, so `re.match` accepts a name ending in `\n`.
- Floats, non-string mapping keys and Unicode whitespace: scalars are `null`, booleans, integers and strings, and `strip()` removes ASCII whitespace only.
- Ill-typed input: each operation requires the shape the source uses (`…Shaped`, `DeploymentShaped`) instead of modelling the exception. These preconditions are a little narrower than the source's own demands:
  - fields that the source reads only after an early return must still be well-shaped;
  - an empty mapping or string in place of a list is excluded, even though Python iterates it without error.
  - the first container's `resources` must be a mapping, although validate_k8s.py:53-56 also accepts, for example, `resources: []` and then appends the single Rule 01 issue.
- src/main/java/com/banking/credit/ActuatorConfig.java: a Spring bean returning constant health objects, with no logic to model.
