/** The JSON tree the JSON-RPC layer works on, and the classifier that names
    the kind of a node in error messages. */
module JsonValues {

  import opened Wrappers

  /** A JSON node. An integer primitive keeps both the number it denotes and
      its literal text (`content`), because the codecs parse the text and the
      out-of-range message quotes it. An object is its members in order. */
  datatype Json =
    | JNull
    | JBool(b: bool)
    | JInteger(value: int, content: string)
    | JDecimal(content: string)
    | JString(s: string)
    | JArray(items: seq<Json>)
    | JObject(members: seq<(string, Json)>)
  {
    /** Primitives are every node that is not an array or an object. */
    predicate IsPrimitive() {
      !JArray? && !JObject?
    }
  }

  /** The seven kinds a node can have. */
  datatype Kind = Null | Boolean | Integer | Decimal | String | Array | Object

  function KindOf(j: Json): Kind {
    match j
    case JNull => Null
    case JBool(_) => Boolean
    case JInteger(_, _) => Integer
    case JDecimal(_) => Decimal
    case JString(_) => String
    case JArray(_) => Array
    case JObject(_) => Object
  }

  /** The lower-case name used in "Unsupported kind type" messages. */
  function KindName(k: Kind): string {
    match k
    case Null => "null"
    case Boolean => "boolean"
    case Integer => "integer"
    case Decimal => "decimal"
    case String => "string"
    case Array => "array"
    case Object => "object"
  }

  /** The `content` text of a primitive: the literal text of a number, the
      characters of a string, and the keywords of null and the booleans. */
  function Content(j: Json): string
    requires j.IsPrimitive()
  {
    match j
    case JNull => "null"
    case JBool(b) => if b then "true" else "false"
    case JInteger(_, content) => content
    case JDecimal(content) => content
    case JString(s) => s
  }

  /** Different kinds have different names, so a message names its kind. */
  lemma KindNameInjective(k1: Kind, k2: Kind)
    ensures KindName(k1) == KindName(k2) <==> k1 == k2
  {
  }

  /** The value of `key` in an object's members (the first one, keys being unique). */
  function Lookup(members: seq<(string, Json)>, key: string): (r: Option<Json>)
    ensures r.None? <==> forall i :: 0 <= i < |members| ==> members[i].0 != key
    ensures r.Some? ==> exists i :: 0 <= i < |members| && members[i] == (key, r.value)
  {
    if members == [] then None
    else if members[0].0 == key then Some(members[0].1)
    else
      var r := Lookup(members[1..], key);
      assert r.Some? ==> exists i :: 0 <= i < |members[1..]| && members[1..][i] == (key, r.value);
      assert r.Some? ==> exists i :: 0 <= i < |members| && members[i] == (key, r.value) by {
        if r.Some? {
          var i :| 0 <= i < |members[1..]| && members[1..][i] == (key, r.value);
          assert members[i + 1] == (key, r.value);
        }
      }
      r
  }
}
