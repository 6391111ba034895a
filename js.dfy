/**
 * The small part of JavaScript's runtime semantics that the screens rely on:
 * optional values, `String.prototype.trim`, the `\s` class of regular
 * expressions, `startsWith`, and an abstract `parseFloat`.
 */
module Js {

  datatype Option<+T> = None | Some(value: T)

  /**
   * A parser the model keeps abstract (`parseFloat`, `JSON.parse`) is given by
   * a table of what it yields on the strings an operation looks at. A string
   * outside the table is one the parser rejects.
   */
  function Lookup<T>(table: map<string, T>, s: string): (r: Option<T>)
    ensures r.Some? <==> s in table
    ensures r.Some? ==> r.value == table[s]
  {
    if s in table then Some(table[s]) else None
  }

  /** `parseFloat` as a table; a string outside it parses to NaN. */
  type FloatTable = map<string, real>

  function ParseFloat(floats: FloatTable, s: string): Option<real> {
    Lookup(floats, s)
  }

  /** What JavaScript's `parseFloat` does with the empty string: it yields NaN. */
  predicate EmptyIsNaN(floats: FloatTable) {
    "" !in floats
  }

  /**
   * ECMAScript WhiteSpace and LineTerminator code points: the set that both
   * `trim` and the regular-expression class `\s` use.
   */
  predicate IsSpace(c: char) {
    c == '\t' || c == '\n' || c == '\U{0B}' || c == '\U{0C}' || c == '\r' || c == ' '
    || c == '\U{A0}' || c == '\U{1680}' || ('\U{2000}' <= c <= '\U{200A}')
    || c == '\U{2028}' || c == '\U{2029}' || c == '\U{202F}' || c == '\U{205F}'
    || c == '\U{3000}' || c == '\U{FEFF}'
  }

  /** Every character of `s` is white space. */
  predicate AllSpace(s: string) {
    s == [] || (IsSpace(s[0]) && AllSpace(s[1..]))
  }

  lemma {:induction false} AllSpaceAppend(a: string, b: string)
    ensures AllSpace(a + b) <==> AllSpace(a) && AllSpace(b)
  {
    if a == [] {
      assert a + b == b;
    } else {
      assert (a + b)[1..] == a[1..] + b;
      AllSpaceAppend(a[1..], b);
    }
  }

  /** Neither end of `s` is white space: `s` is a fixed point of `trim`. */
  predicate Trimmed(s: string) {
    s == [] || (!IsSpace(s[0]) && !IsSpace(s[|s| - 1]))
  }

  /** Drops the leading run of white space (also what a greedy leading `\s*` consumes). */
  function TrimStart(s: string): (r: string)
    ensures |r| <= |s| && r == s[|s| - |r|..]
    ensures AllSpace(s[..|s| - |r|])
    ensures r == [] || !IsSpace(r[0])
  {
    if |s| > 0 && IsSpace(s[0]) then
      var r := TrimStart(s[1..]);
      assert s[..|s| - |r|] == [s[0]] + s[1..][..|s| - 1 - |r|];
      r
    else
      s
  }

  /** Drops the trailing run of white space (also what a greedy `\s*` before an anchor consumes). */
  function TrimEnd(s: string): (r: string)
    ensures |r| <= |s| && r == s[..|r|]
    ensures AllSpace(s[|r|..])
    ensures r == [] || !IsSpace(r[|r| - 1])
  {
    if |s| > 0 && IsSpace(s[|s| - 1]) then
      var r := TrimEnd(s[..|s| - 1]);
      assert s[|r|..] == s[..|s| - 1][|r|..] + [s[|s| - 1]];
      AllSpaceAppend(s[..|s| - 1][|r|..], [s[|s| - 1]]);
      r
    else
      s
  }

  /** `String.prototype.trim`: drop white space from both ends. */
  function Trim(s: string): (r: string)
    ensures Trimmed(r)
    ensures |r| <= |s|
    ensures r == [] <==> AllSpace(s)
  {
    if |s| > 0 && IsSpace(s[0]) then
      Trim(s[1..])
    else if |s| > 0 && IsSpace(s[|s| - 1]) then
      var r := Trim(s[..|s| - 1]);
      assert s == s[..|s| - 1] + [s[|s| - 1]];
      AllSpaceAppend(s[..|s| - 1], [s[|s| - 1]]);
      r
    else
      s
  }

  lemma {:induction false} TrimStartOfTrimmed(s: string)
    requires s == [] || !IsSpace(s[0])
    ensures TrimStart(s) == s
  {
  }

  lemma {:induction false} TrimEndOfTrimmed(s: string)
    requires s == [] || !IsSpace(s[|s| - 1])
    ensures TrimEnd(s) == s
  {
  }

  /** Trimming a string that has no white space at either end changes nothing. */
  lemma TrimOfTrimmed(s: string)
    requires Trimmed(s)
    ensures Trim(s) == s
  {
  }

  /** `trim` is idempotent. */
  lemma TrimIdempotent(s: string)
    ensures Trim(Trim(s)) == Trim(s)
  {
    TrimOfTrimmed(Trim(s));
  }

  /** White space around a string with no white space at its ends is exactly what `trim` removes. */
  lemma TrimPadded(pre: string, body: string, post: string)
    requires AllSpace(pre) && AllSpace(post) && Trimmed(body)
    ensures Trim(pre + body + post) == body
  {
    if body == [] {
      TrimAllSpace(pre, body, post);
    } else {
      TrimDropsLeading(pre, body + post);
      TrimDropsTrailing(body, post);
      AppendAssoc(pre, body, post);
    }
  }

  lemma TrimAllSpace(pre: string, body: string, post: string)
    requires AllSpace(pre) && AllSpace(post) && body == []
    ensures Trim(pre + body + post) == []
  {
    AllSpaceAppend(pre, post);
    assert pre + body + post == pre + post;
  }

  lemma {:induction false} TrimDropsLeading(pre: string, rest: string)
    requires AllSpace(pre) && (rest == [] || !IsSpace(rest[0]))
    ensures Trim(pre + rest) == Trim(rest)
    decreases |pre|
  {
    if pre == [] {
      assert pre + rest == rest;
    } else {
      assert (pre + rest)[1..] == pre[1..] + rest;
      TrimDropsLeading(pre[1..], rest);
    }
  }

  lemma {:induction false} TrimDropsTrailing(body: string, post: string)
    requires AllSpace(post) && body != [] && Trimmed(body)
    ensures Trim(body + post) == body
    decreases |post|
  {
    var s := body + post;
    if post == [] {
      assert s == body;
      TrimOfTrimmed(body);
    } else {
      assert s[..|s| - 1] == body + post[..|post| - 1];
      assert post == post[..|post| - 1] + [post[|post| - 1]];
      AllSpaceAppend(post[..|post| - 1], [post[|post| - 1]]);
      TrimDropsTrailing(body, post[..|post| - 1]);
    }
  }

  lemma {:induction false} TrimStartPadded(pre: string, rest: string)
    requires AllSpace(pre) && (rest == [] || !IsSpace(rest[0]))
    ensures TrimStart(pre + rest) == rest
    decreases |pre|
  {
    if pre == [] {
      assert pre + rest == rest;
      TrimStartOfTrimmed(rest);
    } else {
      assert (pre + rest)[1..] == pre[1..] + rest;
      TrimStartPadded(pre[1..], rest);
    }
  }

  lemma {:induction false} TrimEndPadded(body: string, post: string)
    requires AllSpace(post) && (body == [] || !IsSpace(body[|body| - 1]))
    ensures TrimEnd(body + post) == body
    decreases |post|
  {
    if post == [] {
      assert body + post == body;
      TrimEndOfTrimmed(body);
    } else {
      var front, last := post[..|post| - 1], post[|post| - 1];
      assert IsSpace(last) && AllSpace(front) by {
        assert post == front + [last];
        AllSpaceAppend(front, [last]);
      }
      assert (body + post)[..|body + post| - 1] == body + front;
      assert (body + post)[|body + post| - 1] == last;
      TrimEndPadded(body, front);
    }
  }

  lemma AppendSplit<T>(a: seq<T>, b: seq<T>)
    ensures (a + b)[..|a|] == a && (a + b)[|a|..] == b
  {
  }

  lemma AppendAssoc<T>(a: seq<T>, b: seq<T>, c: seq<T>)
    ensures a + b + c == a + (b + c)
  {
  }

  predicate StartsWith(s: string, prefix: string) {
    |prefix| <= |s| && s[..|prefix|] == prefix
  }

  predicate EndsWith(s: string, suffix: string) {
    |suffix| <= |s| && s[|s| - |suffix|..] == suffix
  }

  /** ASCII lower-casing: all that a case-insensitive match of an ASCII pattern needs. */
  function LowerAscii(c: char): (r: char)
    ensures 'A' <= c <= 'Z' ==> r as int == c as int + 32
    ensures !('A' <= c <= 'Z') ==> r == c
  {
    if 'A' <= c <= 'Z' then (c as int + 32) as char else c
  }

  /** The JSON values a reply can parse to. */
  datatype Json =
    | JNull
    | JBool(b: bool)
    | JNum(n: real)
    | JStr(s: string)
    | JArr(items: seq<Json>)
    | JObj(fields: map<string, Json>)

  /** JavaScript truthiness of a property read; `None` is `undefined`. */
  predicate Truthy(v: Option<Json>) {
    match v
    case None => false
    case Some(JNull) => false
    case Some(JBool(b)) => b
    case Some(JNum(n)) => n != 0.0
    case Some(JStr(s)) => s != ""
    case Some(JArr(_)) => true
    case Some(JObj(_)) => true
  }

  /**
   * Reading property `key` of a value that is not null. Only objects carry the
   * keys used here (`services`, `date`, `origin`, ...); for any other value the
   * read gives `undefined`.
   */
  function Prop(v: Json, key: string): (r: Option<Json>)
    requires v != JNull
    ensures r.Some? <==> v.JObj? && key in v.fields
    ensures r.Some? ==> r.value == v.fields[key]
  {
    match v
    case JObj(m) => if key in m then Some(m[key]) else None
    case _ => None
  }

  /** `JSON.parse` as a table; a string outside it is a syntax error. */
  type JsonTable = map<string, Json>

  function ParseJson(json: JsonTable, s: string): Option<Json> {
    Lookup(json, s)
  }

  /** `a || b` for a property read `a` and a string default `b`. */
  function OrText(a: Option<Json>, b: string): (r: Json)
    ensures Truthy(a) ==> Some(r) == a
    ensures !Truthy(a) ==> r == JStr(b)
  {
    if Truthy(a) then a.value else JStr(b)
  }
}
