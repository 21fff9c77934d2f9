/**
 * A parsed YAML document as the checkers see it, and the Python idioms they use
 * to read it: `d.get(k, default)`, chained `.get(k, {})`, truthiness, `key in x`,
 * `is not False` and iteration over a list.
 *
 * Every helper here is total. Where Python would raise (calling `.get` on
 * something that is not a mapping, say), the operations that model the
 * checkers require the input to have the shape the source reads it at; the
 * `Shaped` predicates of each checker state that shape.
 */
module Yaml {
  import Text

  datatype Node =
    | Null
    | Bool(b: bool)
    | Int(i: int)
    | Str(s: string)
    | Map(entries: map<string, Node>)
    | Seq(items: seq<Node>)

  /** `{}` and `[]`, the defaults the checkers pass to `.get`. */
  const EmptyMap: Node := Map(map[])
  const EmptySeq: Node := Seq([])

  /** Python `n.get(key, default)` on a mapping. */
  function Get(n: Node, key: string, default: Node): Node {
    if n.Map? && key in n.entries then n.entries[key] else default
  }

  /** Python `n[key]` on a mapping that holds `key`. */
  function Index(n: Node, key: string): Node {
    Get(n, key, Null)
  }

  /** Python `n.get(key, {})`, one step of the checkers' `.get` chains. */
  function Sub(n: Node, key: string): Node {
    Get(n, key, EmptyMap)
  }

  /** Python truthiness: `None`, `False`, `0`, `""`, `{}` and `[]` are false. */
  predicate Truthy(n: Node) {
    match n
    case Null => false
    case Bool(b) => b
    case Int(i) => i != 0
    case Str(s) => s != ""
    case Map(m) => m != map[]
    case Seq(xs) => xs != []
  }

  /** The values Python's `key in n` accepts on its right: a mapping, a list or a string. */
  predicate SupportsIn(n: Node) {
    n.Map? || n.Seq? || n.Str?
  }

  /** Python `key in n` for a string `key`: a key of a mapping, an element of a list, a substring of a string. */
  predicate In(key: string, n: Node) {
    match n
    case Map(m) => key in m
    case Seq(xs) => Str(key) in xs
    case Str(s) => Text.HasSubstring(s, key)
    case _ => false
  }

  /** Python `n is False`: only the boolean `False` itself. */
  predicate IsFalse(n: Node) {
    n == Bool(false)
  }

  /** The elements a `for x in n` loop visits, for a list `n`. */
  function Items(n: Node): seq<Node> {
    if n.Seq? then n.items else []
  }

  /** The text of a string node. */
  function StrOf(n: Node): string {
    if n.Str? then n.s else ""
  }

  /** A truthy `d.get(key)` implies that `key` is present in `d`; the converse fails for falsy values. */
  lemma TruthyGetImpliesPresent(d: Node, key: string)
    requires Truthy(Get(d, key, Null))
    ensures d.Map? && In(key, d)
  {
  }

  /** `d.get(key) is not False` holds for an absent key and for `0`, unlike `not d.get(key)`. */
  lemma IsFalseIsNotFalsy(d: Node, key: string)
    ensures !In(key, d) ==> !IsFalse(Get(d, key, Null)) && !Truthy(Get(d, key, Null))
    ensures Get(d, key, Null) == Int(0) ==> !IsFalse(Get(d, key, Null)) && !Truthy(Get(d, key, Null))
    ensures IsFalse(Get(d, key, Null)) ==> d.Map? && In(key, d)
  {
  }
}
