/**
 * The slice of JSON the session store relies on: `JSON.stringify` of a user
 * record and `JSON.parse` of what was stored, with the round trip proved.
 * Values are null, booleans, strings and objects; there are no numbers or
 * arrays, no whitespace, and only the quote and the backslash are escaped.
 */
module Json {
  import opened Wrappers

  datatype Json = JNull | JBool(b: bool) | JStr(s: string) | JObj(members: seq<Member>)
  datatype Member = Member(key: string, value: Json)

  /** JavaScript truthiness of a parsed value: `null`, `false` and `""` are falsy. */
  predicate Truthy(v: Json)
  {
    match v
    case JNull => false
    case JBool(b) => b
    case JStr(s) => s != ""
    case JObj(_) => true
  }

  /** The body of a string literal for `s`, followed by `rest`: quote and backslash get a backslash before them. */
  function EscapeTo(s: string, rest: string): (r: string)
    ensures '"' !in s && '\\' !in s ==> r == s + rest
  {
    if s == [] then rest
    else if s[0] == '"' || s[0] == '\\' then ['\\', s[0]] + EscapeTo(s[1..], rest)
    else [s[0]] + EscapeTo(s[1..], rest)
  }

  /** The text of `v` followed by `rest`. */
  function StringifyTo(v: Json, rest: string): string
    decreases v, 1
  {
    match v
    case JNull => "null" + rest
    case JBool(b) => (if b then "true" else "false") + rest
    case JStr(s) => ['"'] + EscapeTo(s, ['"'] + rest)
    case JObj(ms) => ['{'] + (if ms == [] then ['}'] + rest else MembersTo(ms, rest))
  }

  /** `"key":value` pairs separated by commas, the closing brace, then `rest`. */
  function MembersTo(ms: seq<Member>, rest: string): string
    requires ms != []
    decreases ms, 0
  {
    var next := if |ms| == 1 then ['}'] + rest else [','] + MembersTo(ms[1..], rest);
    ['"'] + EscapeTo(ms[0].key, ['"'] + ([':'] + StringifyTo(ms[0].value, next)))
  }

  /** `JSON.stringify`. */
  function Stringify(v: Json): string
  {
    StringifyTo(v, "")
  }

  /** Reads a string body up to its unescaped closing quote; yields the text and what follows the quote. */
  function ParseStringBody(s: string): (r: Option<(string, string)>)
    ensures r.Some? ==> |r.value.1| < |s|
    decreases |s|
  {
    if s == [] then None
    else if s[0] == '"' then Some(("", s[1..]))
    else if s[0] == '\\' then
      if |s| < 2 then None
      else match ParseStringBody(s[2..])
        case None => None
        case Some((t, rest)) => Some(([s[1]] + t, rest))
    else
      match ParseStringBody(s[1..])
      case None => None
      case Some((t, rest)) => Some(([s[0]] + t, rest))
  }

  /** Reads one value from the front of `s`; yields it and the unread rest. */
  function ParseValue(s: string): (r: Option<(Json, string)>)
    ensures r.Some? ==> |r.value.1| < |s|
    decreases |s|, 1
  {
    if s == [] then None
    else if s[0] == 'n' then
      if |s| >= 4 && s[..4] == "null" then Some((JNull, s[4..])) else None
    else if s[0] == 't' then
      if |s| >= 4 && s[..4] == "true" then Some((JBool(true), s[4..])) else None
    else if s[0] == 'f' then
      if |s| >= 5 && s[..5] == "false" then Some((JBool(false), s[5..])) else None
    else if s[0] == '"' then
      match ParseStringBody(s[1..])
      case None => None
      case Some((t, rest)) => Some((JStr(t), rest))
    else if s[0] == '{' then
      if |s| >= 2 && s[1] == '}' then Some((JObj([]), s[2..]))
      else match ParseMembers(s[1..])
        case None => None
        case Some((ms, rest)) => Some((JObj(ms), rest))
    else None
  }

  /** Reads `"key":value` pairs separated by commas, through the closing brace. */
  function ParseMembers(s: string): (r: Option<(seq<Member>, string)>)
    ensures r.Some? ==> |r.value.1| < |s|
    decreases |s|, 0
  {
    if s == [] || s[0] != '"' then None
    else match ParseStringBody(s[1..])
      case None => None
      case Some((k, r1)) =>
        if r1 == [] || r1[0] != ':' then None
        else match ParseValue(r1[1..])
          case None => None
          case Some((v, r2)) =>
            if r2 == [] then None
            else if r2[0] == '}' then Some(([Member(k, v)], r2[1..]))
            else if r2[0] == ',' then
              match ParseMembers(r2[1..])
              case None => None
              case Some((ms, r3)) => Some(([Member(k, v)] + ms, r3))
            else None
  }

  /** `JSON.parse`: one value and nothing after it. */
  function Parse(s: string): (r: Option<Json>)
    ensures r.Some? ==> ParseValue(s) == Some((r.value, ""))
  {
    match ParseValue(s)
    case Some((v, rest)) => if rest == "" then Some(v) else None
    case None => None
  }

  lemma {:induction false} StringBodyRoundTrip(t: string, rest: string)
    ensures ParseStringBody(EscapeTo(t, ['"'] + rest)) == Some((t, rest))
  {
    if t != [] {
      var tail := EscapeTo(t[1..], ['"'] + rest);
      StringBodyRoundTrip(t[1..], rest);
      if t[0] == '"' || t[0] == '\\' {
        assert (['\\', t[0]] + tail)[2..] == tail;
      } else {
        assert ([t[0]] + tail)[1..] == tail;
      }
      assert [t[0]] + t[1..] == t;
    }
  }

  lemma {:induction false} ValueRoundTrip(v: Json, rest: string)
    ensures ParseValue(StringifyTo(v, rest)) == Some((v, rest))
    decreases v, 2
  {
    var s := StringifyTo(v, rest);
    match v
    case JNull =>
      assert s[..4] == "null" && s[4..] == rest;
    case JBool(b) =>
      if b {
        assert s[..4] == "true" && s[4..] == rest;
      } else {
        assert s[..5] == "false" && s[5..] == rest;
      }
    case JStr(t) =>
      assert s[1..] == EscapeTo(t, ['"'] + rest);
      StringBodyRoundTrip(t, rest);
    case JObj(ms) =>
      if ms == [] {
        assert s[2..] == rest;
      } else {
        assert s[1..] == MembersTo(ms, rest);
        MembersRoundTrip(ms, rest);
      }
  }

  /** One step of `ParseMembers`: a key, a colon, a value, then a closing brace or a comma. */
  lemma MembersStep(s: string, k: string, r1: string, v: Json, r2: string)
    requires s != [] && s[0] == '"' && ParseStringBody(s[1..]) == Some((k, r1))
    requires r1 != [] && r1[0] == ':' && ParseValue(r1[1..]) == Some((v, r2)) && r2 != []
    ensures r2[0] == '}' ==> ParseMembers(s) == Some(([Member(k, v)], r2[1..]))
    ensures r2[0] == ',' && ParseMembers(r2[1..]).Some? ==>
              ParseMembers(s) == Some(([Member(k, v)] + ParseMembers(r2[1..]).value.0, ParseMembers(r2[1..]).value.1))
  {
  }

  /** The layout of a member list: its first key reads back, then the colon, then its first value. */
  lemma FirstMemberRoundTrip(ms: seq<Member>, rest: string)
    requires ms != []
    ensures var next := if |ms| == 1 then ['}'] + rest else [','] + MembersTo(ms[1..], rest);
            var r1 := [':'] + StringifyTo(ms[0].value, next);
            var s := MembersTo(ms, rest);
            && s != [] && s[0] == '"' && ParseStringBody(s[1..]) == Some((ms[0].key, r1))
            && ParseValue(r1[1..]) == Some((ms[0].value, next))
    decreases ms, 0
  {
    var next := if |ms| == 1 then ['}'] + rest else [','] + MembersTo(ms[1..], rest);
    var r1 := [':'] + StringifyTo(ms[0].value, next);
    assert MembersTo(ms, rest)[1..] == EscapeTo(ms[0].key, ['"'] + r1);
    StringBodyRoundTrip(ms[0].key, r1);
    assert r1[1..] == StringifyTo(ms[0].value, next);
    ValueRoundTrip(ms[0].value, next);
  }

  lemma {:induction false} MembersRoundTrip(ms: seq<Member>, rest: string)
    requires ms != []
    ensures ParseMembers(MembersTo(ms, rest)) == Some((ms, rest))
    decreases ms, 1
  {
    var s := MembersTo(ms, rest);
    var m := ms[0];
    FirstMemberRoundTrip(ms, rest);
    if |ms| == 1 {
      var next := ['}'] + rest;
      assert next[1..] == rest;
      MembersStep(s, m.key, [':'] + StringifyTo(m.value, next), m.value, next);
      assert ms == [m];
    } else {
      var tail := MembersTo(ms[1..], rest);
      var next := [','] + tail;
      MembersRoundTrip(ms[1..], rest);
      assert next[1..] == tail;
      MembersStep(s, m.key, [':'] + StringifyTo(m.value, next), m.value, next);
      assert ms == [m] + ms[1..];
    }
  }

  /** What `JSON.stringify` writes, `JSON.parse` reads back unchanged. */
  lemma RoundTrip(v: Json)
    ensures Parse(Stringify(v)) == Some(v)
  {
    ValueRoundTrip(v, "");
  }
}
