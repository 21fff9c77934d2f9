/**
 * The text-level syntax checker of simple_yaml_check.py: `basic_yaml_check` on
 * the content of one file, and `check_k8s_directory`, which keeps the entries
 * of a directory listing whose names end in `.yaml` or `.yml` and passes when
 * every one of them does. The listing carries each file's content with its name.
 */
module SyntaxCheck {
  import opened Text

  /**
   * `basic_yaml_check`: only whitespace-only content fails. The per-line loop
   * of the source classifies each line, but every branch continues or falls
   * through, so it has no part in the result.
   */
  function BasicYamlCheck(content: string): (r: CheckResult)
    ensures r.valid <==> exists i | 0 <= i < |content| :: !IsSpace(content[i])
    ensures r.message == if r.valid then "Basic syntax appears valid" else "Empty file"
  {
    StripEmptyIff(content);
    if Strip(content) == [] then CheckResult(false, "Empty file")
    else CheckResult(true, "Basic syntax appears valid")
  }

  /** One name returned by `os.listdir`, with the content `open` would read. */
  datatype DirEntry = DirEntry(name: string, content: string)

  /** `file.endswith('.yaml') or file.endswith('.yml')`. */
  predicate IsYamlName(name: string) {
    EndsWith(name, ".yaml") || EndsWith(name, ".yml")
  }

  /** The entries the first loop of `check_k8s_directory` appends, in listing order. */
  function SelectYaml(listing: seq<DirEntry>): seq<DirEntry>
    decreases |listing|
  {
    if listing == [] then []
    else
      var last := listing[|listing| - 1];
      SelectYaml(listing[..|listing| - 1]) + (if IsYamlName(last.name) then [last] else [])
  }

  /** `check_k8s_directory`: select the YAML entries, then check each one. */
  method CheckDirectory(listing: seq<DirEntry>) returns (allValid: bool, yamlFiles: seq<DirEntry>)
    ensures yamlFiles == SelectYaml(listing)
    ensures allValid <==> forall k | 0 <= k < |yamlFiles| :: BasicYamlCheck(yamlFiles[k].content).valid
  {
    yamlFiles := CollectYaml(listing);
    allValid := true;
    for k := 0 to |yamlFiles|
      invariant allValid <==> forall j | 0 <= j < k :: BasicYamlCheck(yamlFiles[j].content).valid
    {
      var r := BasicYamlCheck(yamlFiles[k].content);
      if !r.valid {
        allValid := false;
      }
    }
  }

  /** The first loop of `check_k8s_directory`: append each listed name with a YAML suffix. */
  method CollectYaml(listing: seq<DirEntry>) returns (yamlFiles: seq<DirEntry>)
    ensures yamlFiles == SelectYaml(listing)
  {
    yamlFiles := [];
    for k := 0 to |listing|
      invariant yamlFiles == SelectYaml(listing[..k])
    {
      assert listing[..k + 1][..k] == listing[..k];
      if EndsWith(listing[k].name, ".yaml") || EndsWith(listing[k].name, ".yml") {
        yamlFiles := yamlFiles + [listing[k]];
      }
    }
    assert listing[..|listing|] == listing;
  }

  /** An entry is selected exactly when it is listed and its name ends in `.yaml` or `.yml`. */
  lemma {:induction false} SelectYamlIff(listing: seq<DirEntry>, e: DirEntry)
    ensures e in SelectYaml(listing) <==> e in listing && IsYamlName(e.name)
    decreases |listing|
  {
    if listing != [] {
      var init := listing[..|listing| - 1];
      SelectYamlIff(init, e);
      assert listing == init + [listing[|listing| - 1]];
    }
  }

  /** Selection keeps listing order: selecting from `a + b` selects from `a`, then from `b`. */
  lemma {:induction false} SelectYamlAppend(a: seq<DirEntry>, b: seq<DirEntry>)
    ensures SelectYaml(a + b) == SelectYaml(a) + SelectYaml(b)
    decreases |b|
  {
    if b == [] {
      assert a + b == a;
    } else {
      var b' := b[..|b| - 1];
      assert (a + b)[..|a + b| - 1] == a + b';
      assert (a + b)[|a + b| - 1] == b[|b| - 1];
      SelectYamlAppend(a, b');
    }
  }

  /** Selecting twice selects nothing more. */
  lemma {:induction false} SelectYamlIdempotent(listing: seq<DirEntry>)
    ensures SelectYaml(SelectYaml(listing)) == SelectYaml(listing)
    decreases |listing|
  {
    if listing != [] {
      var init := listing[..|listing| - 1];
      var last := listing[|listing| - 1];
      SelectYamlIdempotent(init);
      var tail := if IsYamlName(last.name) then [last] else [];
      SelectYamlAppend(SelectYaml(init), tail);
      if IsYamlName(last.name) {
        assert SelectYaml(tail) == SelectYaml([]) + [last] by {
          assert tail[..0] == [];
        }
      }
    }
  }

  /** A listing with no YAML names, or an empty one, passes. */
  lemma NoYamlPasses(listing: seq<DirEntry>)
    requires forall k | 0 <= k < |listing| :: !IsYamlName(listing[k].name)
    ensures SelectYaml(listing) == []
  {
    if SelectYaml(listing) != [] {
      var e := SelectYaml(listing)[0];
      SelectYamlIff(listing, e);
    }
  }
}
