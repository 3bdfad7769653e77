/**
 * The parsed JSON tree that the gateway API inspects and builds, shaped
 * after JsonNode and its JsonTag (include/json/json.h). Numbers are kept
 * as integers; members of an object keep their order.
 */
module Json {
  import opened Wrappers

  datatype Tag = NullTag | BoolTag | StringTag | NumberTag | ArrayTag | ObjectTag

  datatype Json =
    | JNull
    | JBool(b: bool)
    | JString(s: string)
    | JNumber(n: int)
    | JArray(elements: seq<Json>)
    | JObject(members: seq<Member>)

  datatype Member = Member(key: string, value: Json)

  /** The node's tag field. */
  function TagOf(j: Json): Tag
  {
    match j
    case JNull => NullTag
    case JBool(_) => BoolTag
    case JString(_) => StringTag
    case JNumber(_) => NumberTag
    case JArray(_) => ArrayTag
    case JObject(_) => ObjectTag
  }

  /** The index of the first member named key, or -1. */
  function KeyIndex(ms: seq<Member>, key: string): (r: int)
    ensures -1 <= r < |ms|
    ensures r == -1 <==> forall i :: 0 <= i < |ms| ==> ms[i].key != key
    ensures r >= 0 ==> ms[r].key == key && forall i :: 0 <= i < r ==> ms[i].key != key
  {
    if |ms| == 0 then -1
    else if ms[0].key == key then 0
    else
      var k := KeyIndex(ms[1..], key);
      if k < 0 then -1 else k + 1
  }

  /**
   * json_find_member: the value of the first member named key; NULL when
   * there is none and when the node is not an object.
   */
  function FindMember(j: Json, key: string): (r: Option<Json>)
    ensures !j.JObject? ==> r.None?
    ensures j.JObject? ==> (r.Some? <==> exists i :: 0 <= i < |j.members| && j.members[i].key == key)
    ensures r.Some? ==> j.JObject? && r.value == j.members[KeyIndex(j.members, key)].value
  {
    if !j.JObject? then None
    else
      var i := KeyIndex(j.members, key);
      if i < 0 then None else Some(j.members[i].value)
  }

  /** json_mkobject followed by json_append_member for each pair, in order. */
  function MakeObject(pairs: seq<(string, Json)>): (r: Json)
    ensures r.JObject? && |r.members| == |pairs|
    ensures forall i :: 0 <= i < |pairs| ==> r.members[i] == Member(pairs[i].0, pairs[i].1)
  {
    JObject(seq(|pairs|, i requires 0 <= i < |pairs| => Member(pairs[i].0, pairs[i].1)))
  }

  /** In an object built from pairs with distinct keys, each key finds its own value. */
  lemma FindInMadeObject(pairs: seq<(string, Json)>, i: nat)
    requires i < |pairs|
    requires forall a, b :: 0 <= a < b < |pairs| ==> pairs[a].0 != pairs[b].0
    ensures FindMember(MakeObject(pairs), pairs[i].0) == Some(pairs[i].1)
  {
    var ms := MakeObject(pairs).members;
    var k := KeyIndex(ms, pairs[i].0);
    assert ms[i].key == pairs[i].0;
    assert 0 <= k <= i;
    assert ms[k].key == pairs[k].0;
  }
}
