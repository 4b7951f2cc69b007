/**
 * JSON values (section 3 of RFC 8259) and the json-lib accessors the
 * codecs use. Text rendering and parsing are outside the model: a message
 * is the value the parser would produce. Numbers are integers only.
 */
module Json {
  import opened Base

  datatype Json =
    | JNull
    | JBool(b: bool)
    | JNumber(n: int)
    | JString(s: string)
    | JArray(elems: seq<Json>)
    | JObject(members: seq<Member>)

  datatype Member = Member(key: string, value: Json)

  /** The value of the first member named `key`. */
  function Lookup(members: seq<Member>, key: string): (r: Option<Json>)
    ensures r.Some? <==> exists k :: 0 <= k < |members| && members[k].key == key
    ensures r.Some? ==> exists k :: 0 <= k < |members| && members[k] == Member(key, r.value)
  {
    if |members| == 0 then None
    else if members[0].key == key then Some(members[0].value)
    else
      var r := Lookup(members[1..], key);
      assert r.Some? ==> members[1..][0..] == members[1..];
      r
  }

  /** The value of the first member named `key` is the one at the first index bearing it. */
  lemma {:induction false} LookupFirst(members: seq<Member>, k: nat, key: string)
    requires k < |members| && members[k].key == key
    requires forall j :: 0 <= j < k ==> members[j].key != key
    ensures Lookup(members, key) == Some(members[k].value)
  {
    if k > 0 {
      LookupFirst(members[1..], k - 1, key);
    }
  }

  /** `JSONObject.get(key)` on an object; nothing on any other value. */
  function Get(j: Json, key: string): Option<Json> {
    if j.JObject? then Lookup(j.members, key) else None
  }

  /** The member names of an object, in order. */
  function Keys(j: Json): seq<string> {
    if j.JObject? then seq(|j.members|, k requires 0 <= k < |j.members| => j.members[k].key) else []
  }

  /**
   * `getInt(key)` for a number member: the number narrowed to Java `int`.
   * json-lib also parses a numeric string member; that coercion is not
   * modelled, and every member other than a number is a JSONException here.
   */
  function GetInt(j: Json, key: string): (r: Result<Int32>)
    ensures r.Ok? <==> Get(j, key).Some? && Get(j, key).value.JNumber?
    ensures r.Ok? && -TwoTo31 <= Get(j, key).value.n < TwoTo31 ==> r.value == Get(j, key).value.n
    ensures r.Throw? ==> r.exc == JsonFormat
  {
    match Get(j, key)
    case Some(JNumber(n)) => Ok(Wrap32(n))
    case _ => Throw(JsonFormat)
  }

  /**
   * `getString(key)` for a string member: its text. json-lib answers the
   * `toString()` of any other present member ("5", "true", "null"); that
   * coercion is not modelled, and every member other than a string is a
   * JSONException here.
   */
  function GetString(j: Json, key: string): (r: Result<string>)
    ensures r.Ok? <==> Get(j, key).Some? && Get(j, key).value.JString?
    ensures r.Ok? ==> Get(j, key) == Some(JString(r.value))
    ensures r.Throw? ==> r.exc == JsonFormat
  {
    match Get(j, key)
    case Some(JString(s)) => Ok(s)
    case _ => Throw(JsonFormat)
  }

  /** `getJSONArray(key)`: an array member, otherwise JSONException. */
  function GetArray(j: Json, key: string): (r: Result<seq<Json>>)
    ensures r.Ok? <==> Get(j, key).Some? && Get(j, key).value.JArray?
    ensures r.Ok? ==> Get(j, key) == Some(JArray(r.value))
    ensures r.Throw? ==> r.exc == JsonFormat
  {
    match Get(j, key)
    case Some(JArray(a)) => Ok(a)
    case _ => Throw(JsonFormat)
  }
}
