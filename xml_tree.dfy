/**
 * The tree that xmltodict hands back for an XML document, and the few Python
 * dictionary operations the feed code performs on it.
 *
 * An element with only text becomes a string, an empty element becomes
 * `None`, an element with children or attributes becomes a dictionary keyed
 * by child tag, and a tag repeated under one parent becomes a list.
 * xmltodict never produces an empty string, an empty dictionary or an empty
 * list; the type admits them, and the feed code treats them as false values.
 */
module XmlTree {
  import opened Wrappers

  datatype Node =
    | Str(s: string)
    | Dict(m: map<string, Node>)
    | List(l: seq<Node>)
    | Null

  /** Python truthiness of a node: `None`, `""`, `{}` and `[]` are false. */
  predicate Truthy(n: Node) {
    match n
    case Null => false
    case Str(s) => s != ""
    case Dict(m) => m != map[]
    case List(l) => l != []
  }

  /** Python truthiness of the result of `dict.get`, where a missing key gives `None`. */
  predicate TruthyGot(v: Option<Node>) {
    v.Some? && Truthy(v.value)
  }

  /** `d.get(key)`: the value at `key`, absent when the key is missing. */
  function Get(d: map<string, Node>, key: string): (r: Option<Node>)
    ensures r.Some? <==> key in d
    ensures r.Some? ==> r.value == d[key]
  {
    if key in d then Some(d[key]) else None
  }

  /** `d.get(key, default)`. */
  function GetOr(d: map<string, Node>, key: string, default: Node): (r: Node)
    ensures key in d ==> r == d[key]
    ensures key !in d ==> r == default
  {
    Get(d, key).GetOr(default)
  }
}
