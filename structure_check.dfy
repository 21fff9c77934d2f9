/**
 * The text-level structure checker of validate_yaml.py: `basic_yaml_check` on
 * the content of one file, and the `__main__` loop over the three fixed
 * manifest paths. Files are given as a map from path to content; a path that
 * is not in the map does not exist.
 */
module StructureCheck {
  import opened Text
  import opened Scan

  /** The fields every manifest must mention somewhere, in the order they are checked. */
  const RequiredFields: seq<string> := ["apiVersion:", "kind:", "metadata:"]

  /** The first of `fields` that does not occur in `content`. */
  function FirstMissing(content: string, fields: seq<string>): Option<string>
    decreases |fields|
  {
    if fields == [] then None
    else if !HasSubstring(content, fields[0]) then Some(fields[0])
    else FirstMissing(content, fields[1..])
  }

  /** The `(valid, message)` pair `basic_yaml_check` returns for a file whose text is `raw`. */
  function Verdict(raw: string): CheckResult {
    var content := Strip(raw);
    if content == [] then CheckResult(false, "File is empty")
    else if !(StartsWith(content, "apiVersion:") || StartsWith(content, "---")) then
      CheckResult(false, "Missing apiVersion at start")
    else
      match FirstMissing(content, RequiredFields)
      case Some(field) => CheckResult(false, "Missing required field: " + field)
      case None => CheckResult(true, "Basic structure looks good")
  }

  /** `basic_yaml_check`: strip, two early returns, then a loop over the required fields. */
  method BasicYamlCheck(raw: string) returns (r: CheckResult)
    ensures r == Verdict(raw)
  {
    var content := Strip(raw);
    if content == [] {
      return CheckResult(false, "File is empty");
    }
    if !(StartsWith(content, "apiVersion:") || StartsWith(content, "---")) {
      return CheckResult(false, "Missing apiVersion at start");
    }
    var requiredFields := RequiredFields;
    for k := 0 to |requiredFields|
      invariant FirstMissing(content, requiredFields[k..]) == FirstMissing(content, requiredFields)
    {
      assert requiredFields[k..][1..] == requiredFields[k + 1..];
      if !HasSubstring(content, requiredFields[k]) {
        return CheckResult(false, "Missing required field: " + requiredFields[k]);
      }
    }
    return CheckResult(true, "Basic structure looks good");
  }

  /** The field reported missing is the first of the list absent from the content; none is reported when all are present. */
  lemma {:induction false} FirstMissingIsFirst(content: string, fields: seq<string>)
    ensures FirstMissing(content, fields).None? <==> forall f | f in fields :: HasSubstring(content, f)
    ensures FirstMissing(content, fields).Some? ==>
              exists k | 0 <= k < |fields| ::
                && fields[k] == FirstMissing(content, fields).value
                && !HasSubstring(content, fields[k])
                && forall j | 0 <= j < k :: HasSubstring(content, fields[j])
    decreases |fields|
  {
    if fields != [] {
      FirstMissingIsFirst(content, fields[1..]);
      assert fields[0] in fields;
      assert forall f | f in fields :: f == fields[0] || f in fields[1..];
      if HasSubstring(content, fields[0]) && FirstMissing(content, fields).Some? {
        var k :| 0 <= k < |fields[1..]| && fields[1..][k] == FirstMissing(content, fields).value
                 && !HasSubstring(content, fields[1..][k])
                 && forall j | 0 <= j < k :: HasSubstring(content, fields[1..][j]);
        assert fields[k + 1] == fields[1..][k];
        forall j | 0 <= j < k + 1 ensures HasSubstring(content, fields[j]) {
          if j > 0 { assert fields[j] == fields[1..][j - 1]; }
        }
      }
    }
  }

  /** Whitespace-only content is the empty-file case, whatever else holds. */
  lemma EmptyIffWhitespace(raw: string)
    ensures Verdict(raw) == CheckResult(false, "File is empty") <==> AllSpace(raw)
  {
    StripEmptyIff(raw);
  }

  /** The file passes exactly when its stripped text is non-empty, opens with `apiVersion:` or `---`, and mentions all three fields. */
  lemma VerdictValidIff(raw: string)
    ensures Verdict(raw).valid <==>
      var content := Strip(raw);
      && !AllSpace(raw)
      && (StartsWith(content, "apiVersion:") || StartsWith(content, "---"))
      && forall f | f in RequiredFields :: HasSubstring(content, f)
    ensures Verdict(raw).valid ==> Verdict(raw).message == "Basic structure looks good"
  {
    StripEmptyIff(raw);
    FirstMissingIsFirst(Strip(raw), RequiredFields);
  }

  /** A file that opens with `apiVersion:` is never reported as missing that field. */
  lemma ApiVersionPrefixNeverMissing(raw: string)
    requires StartsWith(Strip(raw), "apiVersion:")
    ensures Verdict(raw).message != "Missing required field: apiVersion:"
  {
    var content := Strip(raw);
    StartsWithImpliesSubstring(content, "apiVersion:");
    assert RequiredFields[1..] == ["kind:", "metadata:"];
    assert RequiredFields[1..][1..] == ["metadata:"];
    var missing := FirstMissing(content, RequiredFields);
    assert missing.None? || missing.value in RequiredFields[1..];
    if missing.Some? {
      var m := "Missing required field: " + missing.value;
      assert m[|"Missing required field: "|..] == missing.value;
    }
  }

  /** Opening with `---` passes the start test, but the text must still mention `apiVersion:` later on. */
  lemma SeparatorStillNeedsApiVersion(raw: string)
    requires StartsWith(Strip(raw), "---")
    requires !HasSubstring(Strip(raw), "apiVersion:")
    ensures Verdict(raw) == CheckResult(false, "Missing required field: apiVersion:")
  {
  }

  // ---------------------------------------------------------------------------
  // `__main__`: every fixed path must exist and pass

  const YamlFiles: seq<string> := ["k8s/deployment.yaml", "k8s/service.yaml", "k8s/configmap.yaml"]

  /** What the loop prints for one path: the check's result, or `File not found`. */
  function Report(files: map<string, string>, path: string): CheckResult {
    if path in files then Verdict(files[path]) else CheckResult(false, "File not found")
  }

  method ValidateAll(files: map<string, string>) returns (allValid: bool, reports: seq<CheckResult>)
    ensures |reports| == |YamlFiles|
    ensures forall k | 0 <= k < |YamlFiles| :: reports[k] == Report(files, YamlFiles[k])
    ensures allValid <==> forall p | p in YamlFiles :: p in files && Verdict(files[p]).valid
  {
    allValid := true;
    reports := [];
    var yamlFiles := YamlFiles;
    for k := 0 to |yamlFiles|
      invariant |reports| == k
      invariant forall j | 0 <= j < k :: reports[j] == Report(files, yamlFiles[j])
      invariant allValid <==> forall j | 0 <= j < k :: Report(files, yamlFiles[j]).valid
    {
      var path := yamlFiles[k];
      if path in files {
        var r := BasicYamlCheck(files[path]);
        reports := reports + [r];
        if !r.valid {
          allValid := false;
        }
      } else {
        reports := reports + [CheckResult(false, "File not found")];
        allValid := false;
      }
    }
    assert forall p | p in yamlFiles :: exists j | 0 <= j < |yamlFiles| :: yamlFiles[j] == p;
  }
}
