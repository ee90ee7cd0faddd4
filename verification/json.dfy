/**
 * JSON values as `JSON.parse` produces them, with the JavaScript operations the chat core
 * applies to them: property access, truthiness, conversion to a string (`String(v)` and
 * template literals) and `JSON.stringify`.
 */
module Json {
  import opened Options
  import opened Text

  /** A parsed JSON value. Numbers are integers; object members keep their textual order.
      Unlike the objects `JSON.parse` builds, a `JObject` may hold a key more than once:
      `Member` then reads the last one, as `JSON.parse` would, while `Stringify` prints every
      copy. The chat core never builds such an object. */
  datatype Json =
    | JNull
    | JBool(b: bool)
    | JNumber(n: int)
    | JString(s: string)
    | JArray(items: seq<Json>)
    | JObject(members: seq<(string, Json)>)

  /** The value of the last member named `key` (`JSON.parse` keeps the last of duplicate keys). */
  function LastMember(members: seq<(string, Json)>, key: string): (r: Option<Json>)
    ensures r.None? <==> forall i :: 0 <= i < |members| ==> members[i].0 != key
    ensures r.Some? ==> exists i :: 0 <= i < |members| && members[i] == (key, r.value)
                                    && forall k :: i < k < |members| ==> members[k].0 != key
  {
    if members == [] then None
    else if members[|members| - 1].0 == key then Some(members[|members| - 1].1)
    else LastMember(members[..|members| - 1], key)
  }

  /** An object with two distinct keys answers each with its own value. */
  lemma LastMemberOfPair(k1: string, v1: Json, k2: string, v2: Json)
    requires k1 != k2
    ensures LastMember([(k1, v1), (k2, v2)], k1) == Some(v1)
    ensures LastMember([(k1, v1), (k2, v2)], k2) == Some(v2)
  {
    var members := [(k1, v1), (k2, v2)];
    assert members[..1] == [(k1, v1)];
    assert members[..1][..0] == [];
  }

  /** `v.key`: a member of an object, `undefined` on any other value. (On `null` JavaScript
      throws instead; every caller in the core turns both outcomes into the same result.) */
  function Member(v: Json, key: string): Option<Json>
  {
    match v
    case JObject(members) => LastMember(members, key)
    case _ => None
  }

  /** JavaScript truthiness of a possibly `undefined` value. */
  predicate Truthy(v: Option<Json>) {
    match v
    case None => false
    case Some(JNull) => false
    case Some(JBool(b)) => b
    case Some(JNumber(n)) => n != 0
    case Some(JString(s)) => s != ""
    case Some(JArray(_)) => true
    case Some(JObject(_)) => true
  }

  /** `String(v)` for a value that is present: arrays join their elements with commas
      (`null` elements print as nothing), objects print as `[object Object]`. */
  function JsStringOf(j: Json): (r: string)
    ensures j.JNumber? && j.n >= 0 ==> r != [] && forall k :: 0 <= k < |r| ==> IsAsciiDigit(r[k])
  {
    match j
    case JNull => "null"
    case JBool(b) => if b then "true" else "false"
    case JNumber(n) => IntToString(n)
    case JString(s) => s
    case JArray(items) =>
      Join(seq(|items|, i requires 0 <= i < |items| => if items[i] == JNull then "" else JsStringOf(items[i])), ",")
    case JObject(_) => "[object Object]"
  }

  /** `String(v)` and `${v}`: `undefined` prints as "undefined". */
  function ToJsString(v: Option<Json>): string {
    match v
    case None => "undefined"
    case Some(j) => JsStringOf(j)
  }

  function HexDigit(d: nat): char
    requires d < 16
  {
    "0123456789abcdef"[d]
  }

  /** One character of a JSON string literal, escaped as `JSON.stringify` does. */
  function EscapeChar(c: char): string {
    if c == '"' then "\\\""
    else if c == '\\' then "\\\\"
    else if c == '\U{0008}' then "\\b"
    else if c == '\t' then "\\t"
    else if c == '\n' then "\\n"
    else if c == '\U{000C}' then "\\f"
    else if c == '\r' then "\\r"
    else if (c as int) < 0x20 then "\\u00" + [HexDigit(c as int / 16), HexDigit(c as int % 16)]
    else [c]
  }

  function Escape(s: string): string {
    if s == [] then [] else EscapeChar(s[0]) + Escape(s[1..])
  }

  /** `JSON.stringify` of a string: the escaped text in double quotes. */
  function Quote(s: string): string {
    "\"" + Escape(s) + "\""
  }

  /** `JSON.stringify(j)`: no white space, members in order. */
  function Stringify(j: Json): (r: string)
    ensures j.JObject? ==> |r| >= 2 && r[0] == '{' && r[|r| - 1] == '}'
    ensures j.JArray? ==> |r| >= 2 && r[0] == '[' && r[|r| - 1] == ']'
    ensures j.JString? ==> |r| >= 2 && r[0] == '"' && r[|r| - 1] == '"'
  {
    match j
    case JNull => "null"
    case JBool(b) => if b then "true" else "false"
    case JNumber(n) => IntToString(n)
    case JString(s) => Quote(s)
    case JArray(items) =>
      "[" + Join(seq(|items|, i requires 0 <= i < |items| => Stringify(items[i])), ",") + "]"
    case JObject(members) =>
      "{" + Join(seq(|members|, i requires 0 <= i < |members| =>
                       Quote(members[i].0) + ":" + Stringify(members[i].1)), ",") + "}"
  }

  /** No string and no key anywhere in `j` contains `c`. */
  predicate Avoids(j: Json, c: char) {
    match j
    case JString(s) => c !in s
    case JArray(items) => forall i :: 0 <= i < |items| ==> Avoids(items[i], c)
    case JObject(members) => forall i :: 0 <= i < |members| ==> c !in members[i].0 && Avoids(members[i].1, c)
    case _ => true
  }

  lemma EscapeCharKeepsBacktickOut(c: char)
    requires c != '`'
    ensures '`' !in EscapeChar(c)
  {
    assert '`' !in "0123456789abcdef";
  }

  lemma {:induction false} EscapeKeepsBacktickOut(s: string)
    requires '`' !in s
    ensures '`' !in Escape(s)
  {
    if s != [] {
      assert s[0] in s;
      EscapeCharKeepsBacktickOut(s[0]);
      assert forall x :: x in s[1..] ==> x in s;
      EscapeKeepsBacktickOut(s[1..]);
    }
  }

  /** The serialisation of a value whose strings hold no backtick holds none either, so no
      Markdown fence can appear in it. */
  lemma {:induction false} StringifyKeepsBacktickOut(j: Json)
    requires Avoids(j, '`')
    ensures '`' !in Stringify(j)
  {
    match j
    case JNull =>
    case JBool(_) =>
    case JNumber(n) =>
      assert forall c :: c in NatToString(if n < 0 then -n else n) ==> IsAsciiDigit(c);
    case JString(s) =>
      EscapeKeepsBacktickOut(s);
    case JArray(items) =>
      var parts := seq(|items|, i requires 0 <= i < |items| => Stringify(items[i]));
      forall i | 0 <= i < |items| ensures '`' !in parts[i] {
        StringifyKeepsBacktickOut(items[i]);
      }
      JoinKeepsAbsentChar(parts, ",", '`');
    case JObject(members) =>
      var parts := seq(|members|, i requires 0 <= i < |members| =>
                         Quote(members[i].0) + ":" + Stringify(members[i].1));
      forall i | 0 <= i < |members| ensures '`' !in parts[i] {
        EscapeKeepsBacktickOut(members[i].0);
        StringifyKeepsBacktickOut(members[i].1);
      }
      JoinKeepsAbsentChar(parts, ",", '`');
  }
}
