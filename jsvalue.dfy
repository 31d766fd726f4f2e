/** How the render callbacks of page.tsx read a JSON value: truthiness, property access,
    `Object.entries` and `.length`. `None` stands for `undefined`. */
module JsValue {
  import opened Wrappers
  import opened JsonValue

  /** JavaScript truthiness; `undefined`, `null`, `false`, `0` and `""` are falsy. */
  predicate Truthy(v: Option<Json>)
  {
    match v
    case None => false
    case Some(JNull) => false
    case Some(JBool(b)) => b
    case Some(JNum(n)) => n != 0.0
    case Some(JStr(s)) => s != ""
    case Some(_) => true
  }

  /** `undefined` and `null`: the values whose property access throws a TypeError. */
  predicate Nullish(v: Option<Json>)
  {
    v.None? || v.value.JNull?
  }

  /** The value stored under `key`, or `undefined`. */
  function Lookup(members: seq<(string, Json)>, key: string): (r: Option<Json>)
    ensures r.None? <==> forall k :: 0 <= k < |members| ==> members[k].0 != key
    ensures r.Some? ==> exists k :: 0 <= k < |members| && members[k] == (key, r.value)
  {
    if members == [] then None
    else if members[0].0 == key then Some(members[0].1)
    else Lookup(members[1..], key)
  }

  /** The first member named `key` is the one found. */
  lemma {:induction false} LookupFirst(members: seq<(string, Json)>, key: string, k: nat)
    requires k < |members| && members[k].0 == key
    requires forall j :: 0 <= j < k ==> members[j].0 != key
    ensures Lookup(members, key) == Some(members[k].1)
  {
    if k > 0 {
      LookupFirst(members[1..], key, k - 1);
    }
  }

  /** The property `v.key` of a value that is not nullish: the member of an object, and
      `undefined` for every name the callbacks read on any other value. */
  function Get(v: Json, key: string): Option<Json>
  {
    if v.JObj? then Lookup(v.members, key) else None
  }

  /** The decimal digits of `n`, as JavaScript writes an array index key. */
  function NatToString(n: nat): (r: string)
    ensures r != []
  {
    var d := ['0', '1', '2', '3', '4', '5', '6', '7', '8', '9'];
    if n < 10 then [d[n]] else NatToString(n / 10) + [d[n % 10]]
  }

  /** `Object.entries(v)` of a value that is not nullish: the members of an object, the
      index-keyed elements of an array and characters of a string, and nothing for a number
      or a boolean. */
  function Entries(v: Json): (r: seq<(string, Json)>)
    ensures v.JObj? ==> r == v.members
    ensures v.JArr? ==> |r| == |v.items| && forall k :: 0 <= k < |r| ==> r[k].1 == v.items[k]
    ensures v.JArr? || v.JStr? ==> forall k :: 0 <= k < |r| ==> r[k].0 == NatToString(k)
    ensures v.JStr? ==> |r| == |v.s| && forall k :: 0 <= k < |r| ==> r[k].1 == JStr([v.s[k]])
    ensures v.JNum? || v.JBool? || v.JNull? ==> r == []
  {
    match v
    case JObj(members) => members
    case JArr(items) => seq(|items|, k requires 0 <= k < |items| => (NatToString(k), items[k]))
    case JStr(s) => seq(|s|, k requires 0 <= k < |s| => (NatToString(k), JStr([s[k]])))
    case _ => []
  }

  /** `v.length` of a value that is not nullish: the element count of an array, the length
      of a string, the `length` member of an object (or `undefined`), and `undefined` for a
      number or a boolean. */
  function Length(v: Json): (r: Option<Json>)
    ensures v.JArr? ==> r == Some(JNum(|v.items| as real))
    ensures v.JStr? ==> r == Some(JNum(|v.s| as real))
    ensures v.JObj? ==> r == Lookup(v.members, "length")
    ensures v.JNum? || v.JBool? || v.JNull? ==> r.None?
  {
    match v
    case JArr(items) => Some(JNum(|items| as real))
    case JStr(s) => Some(JNum(|s| as real))
    case JObj(members) => Lookup(members, "length")
    case _ => None
  }

  /** `x > 0` under JavaScript's coercion to a number: `undefined` and an object give NaN,
      `null` gives 0 and a boolean 1 or 0. A string or an array operand is taken as not
      positive. */
  predicate Positive(x: Option<Json>)
  {
    match x
    case Some(JNum(n)) => n > 0.0
    case Some(JBool(b)) => b
    case _ => false
  }

  /** No two members of an object share a key, as both JSON parsers produce them. */
  predicate DistinctKeys(members: seq<(string, Json)>)
  {
    forall i, j :: 0 <= i < j < |members| ==> members[i].0 != members[j].0
  }

  /** With distinct keys, every member is found under its own key. */
  lemma LookupDistinct(members: seq<(string, Json)>, k: nat)
    requires DistinctKeys(members) && k < |members|
    ensures Lookup(members, members[k].0) == Some(members[k].1)
  {
    LookupFirst(members, members[k].0, k);
  }
}
