/** JSON values as the controller and the validators see them once text
    has been parsed, and the text codec (JSON.parse / JSON.stringify) that
    turns them into text and back. The codec is foreign code: it is passed
    in as a value and only its round-trip law is assumed, as a requirement
    of the members that need it. */
module JsonValues {

  datatype Option<+T> = None | Some(value: T) {
    function GetOr(default: T): T {
      match this
      case Some(v) => v
      case None => default
    }
  }

  /** A parsed JSON value. Numbers are kept as reals: JSON's number
      syntax has no NaN or infinity, and only a number's kind and whether
      it is zero are ever inspected. Object members are looked up by key,
      so an object is a map. */
  datatype Json =
    | JNull
    | JBool(b: bool)
    | JNum(n: real)
    | JStr(s: string)
    | JArr(items: seq<Json>)
    | JObj(fields: map<string, Json>)

  /** `{}`: what the section fetcher returns when its retries run out. */
  const EmptyObject: Json := JObj(map[])

  /** JavaScript property access on a value that may be `undefined`
      (None). A missing member, or a member of something that is not an
      object, is `undefined`. */
  function Get(v: Option<Json>, key: string): (r: Option<Json>)
    ensures r.Some? <==> v.Some? && v.value.JObj? && key in v.value.fields
    ensures r.Some? ==> r.value == v.value.fields[key]
  {
    match v
    case Some(JObj(m)) => if key in m then Some(m[key]) else None
    case _ => None
  }

  /** A chain of property accesses, `v.k1.k2...`, each on what the one
      before gave. */
  function At(v: Option<Json>, keys: seq<string>): Option<Json>
    decreases |keys|
  {
    if keys == [] then v else At(Get(v, keys[0]), keys[1..])
  }

  /** A one-key chain is a single property access. */
  lemma AtOne(v: Option<Json>, k: string)
    ensures At(v, [k]) == Get(v, k)
  {
    assert [k][1..] == [];
  }

  /** A two-key chain is two property accesses. */
  lemma AtTwo(v: Option<Json>, k0: string, k1: string)
    ensures At(v, [k0, k1]) == Get(Get(v, k0), k1)
  {
    assert [k0, k1][1..] == [k1];
    AtOne(Get(v, k0), k1);
  }

  /** JavaScript truthiness of a value: `undefined`, `null`, `false`, `0`
      and `""` are falsy; every array and every object, empty or not, is
      truthy. */
  predicate Truthy(v: Option<Json>) {
    match v
    case None => false
    case Some(JNull) => false
    case Some(JBool(b)) => b
    case Some(JNum(n)) => n != 0.0
    case Some(JStr(s)) => s != ""
    case Some(JArr(_)) => true
    case Some(JObj(_)) => true
  }

  /** JSON.parse and JSON.stringify, as a pair of total functions. A text
      that JSON.parse rejects parses to None. */
  datatype JsonCodec = JsonCodec(parse: string -> Option<Json>, stringify: Json -> string)

  /** The one law the model assumes of the codec: stringifying a value and
      parsing the text gives the value back. */
  ghost predicate RoundTrips(c: JsonCodec) {
    forall v: Json :: c.parse(c.stringify(v)) == Some(v)
  }
}
