/**
 * The two flat text formats the client writes by hand: `k=v&k=v` query
 * strings and `{"k": "v","k": "v"}` JSON objects whose values are all
 * strings. Each encoder has a decoder for the same flat format, and the
 * round trip is proved for keys and values that contain neither the
 * delimiters nor anything a query or JSON reader would decode (`QueryText`,
 * `JsonText`); on such text the flat reading is what those readers give.
 */
module Text {
  import opened Wrappers

  /** `sep.join(parts)`. */
  function Join(parts: seq<string>, sep: string): string
  {
    if |parts| == 0 then ""
    else if |parts| == 1 then parts[0]
    else parts[0] + sep + Join(parts[1..], sep)
  }

  lemma JoinCons(first: string, rest: seq<string>, sep: string)
    requires |rest| > 0
    ensures Join([first] + rest, sep) == first + sep + Join(rest, sep)
  {
    assert ([first] + rest)[1..] == rest;
  }

  function IndexOf(s: string, c: char): (i: nat)
    requires c in s
    ensures i < |s| && s[i] == c && c !in s[..i]
  {
    if s[0] == c then 0
    else
      var j := IndexOf(s[1..], c);
      assert s[..j + 1] == [s[0]] + s[1..][..j];
      j + 1
  }

  /** `s.split(sep)` for a one-character separator. */
  function Split(s: string, sep: char): (r: seq<string>)
    ensures |r| > 0
    ensures forall i :: 0 <= i < |r| ==> sep !in r[i]
    decreases |s|
  {
    if sep !in s then [s]
    else
      var i := IndexOf(s, sep);
      [s[..i]] + Split(s[i + 1..], sep)
  }

  lemma {:induction false} SplitJoin(parts: seq<string>, sep: char)
    requires |parts| > 0
    requires forall i :: 0 <= i < |parts| ==> sep !in parts[i]
    ensures Split(Join(parts, [sep]), sep) == parts
  {
    if |parts| == 1 {
    } else {
      var s := Join(parts, [sep]);
      var rest := Join(parts[1..], [sep]);
      assert s == parts[0] + [sep] + rest;
      assert s[|parts[0]|] == sep;
      assert s[..|parts[0]|] == parts[0];
      assert IndexOf(s, sep) == |parts[0]|;
      assert s[|parts[0]| + 1..] == rest;
      SplitJoin(parts[1..], sep);
    }
  }

  // ---- query strings ----

  function QueryItem(kv: (string, string)): string { kv.0 + "=" + kv.1 }

  function QueryItems(pairs: seq<(string, string)>): (r: seq<string>)
    ensures |r| == |pairs|
    ensures forall i :: 0 <= i < |r| ==> r[i] == QueryItem(pairs[i])
  {
    if pairs == [] then [] else [QueryItem(pairs[0])] + QueryItems(pairs[1..])
  }

  /** A two-parameter query string spelled out. */
  lemma QueryOfTwo(a: (string, string), b: (string, string))
    ensures Query([a, b]) == a.0 + "=" + a.1 + "&" + b.0 + "=" + b.1
  {
    assert QueryItems([a, b]) == [QueryItem(a)] + [QueryItem(b)];
    JoinCons(QueryItem(a), [QueryItem(b)], "&");
  }

  /** The query string `k1=v1&k2=v2&...`. */
  function Query(pairs: seq<(string, string)>): string
  {
    Join(QueryItems(pairs), "&")
  }

  /** One `k=v` item: the key runs up to the first `=`. */
  function ParseQueryItem(item: string): (string, string)
  {
    if '=' in item then
      var i := IndexOf(item, '=');
      (item[..i], item[i + 1..])
    else (item, "")
  }

  function ParseQueryItems(items: seq<string>): (r: seq<(string, string)>)
    ensures |r| == |items|
    ensures forall i :: 0 <= i < |r| ==> r[i] == ParseQueryItem(items[i])
  {
    if items == [] then [] else [ParseQueryItem(items[0])] + ParseQueryItems(items[1..])
  }

  /** The flat reading of a query string: items split at `&`, each at its first `=`, nothing decoded. */
  function ParseQuery(s: string): seq<(string, string)>
  {
    ParseQueryItems(Split(s, '&'))
  }

  /**
   * Text the client can put in a query as it is: no `&` separator, and none
   * of the characters a URL decoder rewrites (`%xx` escapes, `+` for space)
   * or stops at (`#`). The client itself encodes nothing.
   */
  predicate QueryText(s: string) { '&' !in s && '%' !in s && '+' !in s && '#' !in s }

  predicate QuerySafe(pairs: seq<(string, string)>)
  {
    forall i :: 0 <= i < |pairs| ==> QueryText(pairs[i].0) && '=' !in pairs[i].0 && QueryText(pairs[i].1)
  }

  /** Reading a built query string gives back the pairs it was built from. */
  lemma QueryRoundTrip(pairs: seq<(string, string)>)
    requires |pairs| > 0 && QuerySafe(pairs)
    ensures ParseQuery(Query(pairs)) == pairs
  {
    var items := QueryItems(pairs);
    forall i | 0 <= i < |items| ensures '&' !in items[i] {
      assert items[i] == pairs[i].0 + "=" + pairs[i].1;
    }
    SplitJoin(items, '&');
    forall i | 0 <= i < |pairs| ensures ParseQueryItem(items[i]) == pairs[i] {
      var k, v := pairs[i].0, pairs[i].1;
      assert items[i] == k + "=" + v;
      assert items[i][|k|] == '=';
      assert items[i][..|k|] == k;
      assert IndexOf(items[i], '=') == |k|;
      assert items[i][|k| + 1..] == v;
    }
  }

  // ---- JSON objects of string fields ----

  function JsonMember(kv: (string, string)): string { "\"" + kv.0 + "\": \"" + kv.1 + "\"" }

  function JsonMembers(fields: seq<(string, string)>): (r: seq<string>)
    ensures |r| == |fields|
    ensures forall i :: 0 <= i < |r| ==> r[i] == JsonMember(fields[i])
  {
    if fields == [] then [] else [JsonMember(fields[0])] + JsonMembers(fields[1..])
  }

  /** `{"k1": "v1","k2": "v2",...}`: members separated by a bare comma. */
  function JsonObject(fields: seq<(string, string)>): string
  {
    "{" + Join(JsonMembers(fields), ",") + "}"
  }

  /** Reads one `"k": "v"` member: the key runs up to the first quote after the opening one. */
  function ParseJsonMember(m: string): Option<(string, string)>
  {
    if |m| >= 2 && m[0] == '"' && m[|m| - 1] == '"' then
      var inner := m[1..|m| - 1];
      if '"' in inner then
        var i := IndexOf(inner, '"');
        if i + 4 <= |inner| && inner[i..i + 4] == "\": \"" then Some((inner[..i], inner[i + 4..]))
        else None
      else None
    else None
  }

  function ParseJsonMembers(ms: seq<string>): (r: Option<seq<(string, string)>>)
    ensures r.Some? ==> |r.value| == |ms|
  {
    if ms == [] then Some([])
    else
      var head, tail := ParseJsonMember(ms[0]), ParseJsonMembers(ms[1..]);
      if head.Some? && tail.Some? then Some([head.value] + tail.value) else None
  }

  /** The flat reading of a JSON object of string fields: members split at commas, no escapes. */
  function ParseJsonObject(s: string): Option<seq<(string, string)>>
  {
    if |s| >= 2 && s[0] == '{' && s[|s| - 1] == '}' then ParseJsonMembers(Split(s[1..|s| - 1], ','))
    else None
  }

  /**
   * Text the client can put between quotes as it is: no quote or backslash,
   * which a JSON reader would take as the end of the string or an escape
   * (the client escapes nothing); no control character (U+0000 to U+001F),
   * which JSON allows in a string only escaped; and no comma, where the flat
   * reader here splits members.
   */
  predicate JsonText(s: string)
  {
    '"' !in s && '\\' !in s && ',' !in s && forall i :: 0 <= i < |s| ==> s[i] as int >= 0x20
  }

  predicate JsonSafe(fields: seq<(string, string)>)
  {
    forall i :: 0 <= i < |fields| ==> JsonText(fields[i].0) && JsonText(fields[i].1)
  }

  lemma JsonMemberRoundTrip(kv: (string, string))
    requires '"' !in kv.0
    ensures ParseJsonMember(JsonMember(kv)) == Some(kv)
  {
    var m := JsonMember(kv);
    var k, v := kv.0, kv.1;
    var inner := m[1..|m| - 1];
    assert inner == k + "\": \"" + v;
    assert inner[|k|] == '"';
    assert inner[..|k|] == k;
    assert IndexOf(inner, '"') == |k|;
    assert inner[|k|..|k| + 4] == "\": \"";
    assert inner[|k| + 4..] == v;
  }

  /** A list of members reads back member by member. */
  lemma {:induction false} ParseJsonMembersEach(ms: seq<string>, fields: seq<(string, string)>)
    requires |ms| == |fields|
    requires forall i :: 0 <= i < |ms| ==> ParseJsonMember(ms[i]) == Some(fields[i])
    ensures ParseJsonMembers(ms) == Some(fields)
  {
    if ms != [] {
      assert forall i :: 0 <= i < |ms[1..]| ==> ms[1..][i] == ms[i + 1] && fields[1..][i] == fields[i + 1];
      ParseJsonMembersEach(ms[1..], fields[1..]);
      assert fields == [fields[0]] + fields[1..];
    }
  }

  lemma JsonMembersRoundTrip(fields: seq<(string, string)>)
    requires forall i :: 0 <= i < |fields| ==> '"' !in fields[i].0
    ensures ParseJsonMembers(JsonMembers(fields)) == Some(fields)
  {
    var ms := JsonMembers(fields);
    forall i | 0 <= i < |ms| ensures ParseJsonMember(ms[i]) == Some(fields[i]) {
      JsonMemberRoundTrip(fields[i]);
    }
    ParseJsonMembersEach(ms, fields);
  }

  /** Reading a built JSON object gives back the fields it was built from, in order. */
  lemma JsonObjectRoundTrip(fields: seq<(string, string)>)
    requires |fields| > 0 && JsonSafe(fields)
    ensures ParseJsonObject(JsonObject(fields)) == Some(fields)
  {
    var ms := JsonMembers(fields);
    forall i | 0 <= i < |ms| ensures ',' !in ms[i] {
      assert ms[i] == "\"" + fields[i].0 + "\": \"" + fields[i].1 + "\"";
    }
    SplitJoin(ms, ',');
    var s := JsonObject(fields);
    assert s[1..|s| - 1] == Join(ms, ",");
    JsonMembersRoundTrip(fields);
  }
}
