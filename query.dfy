/** URLs and their query strings as the filter blocks of the list operations
    see them: Go's url.Values, url.Parse cut down to the parts those blocks
    depend on, and the two shapes a request URL can take. */
module UrlQuery {
  import opened Wrappers

  /** url.Values: each key maps to the list of its values, in order. */
  type Values = map<string, seq<string>>

  /** Values.Set: `key` afterwards holds exactly the one value `value`, whatever
      it held before; every other key is untouched. */
  function Set(q: Values, key: string, value: string): (r: Values)
    ensures r.Keys == q.Keys + {key} && r[key] == [value]
    ensures forall k :: k in q && k != key ==> r[k] == q[k]
  {
    q[key := [value]]
  }

  /** Values.Add, as used when a raw query is parsed: appends to the list of `key`. */
  function Add(q: Values, key: string, value: string): (r: Values)
    ensures r.Keys == q.Keys + {key}
    ensures r[key] == (if key in q then q[key] else []) + [value]
    ensures forall k :: k in q && k != key ==> r[k] == q[k]
  {
    q[key := (if key in q then q[key] else []) + [value]]
  }

  /** Values.Set called once per element of `values`, first to last: only the
      last value survives. */
  function SetEach(q: Values, key: string, values: seq<string>): (r: Values)
    ensures values == [] ==> r == q
    ensures values != [] ==> r == Set(q, key, values[|values| - 1])
    decreases |values|
  {
    if values == [] then q
    else Set(SetEach(q, key, values[..|values| - 1]), key, values[|values| - 1])
  }

  /** strings.Cut: the text before and after the first `sep`, and whether there was one. */
  function Cut(s: string, sep: char): (r: (string, string, bool))
    ensures r.2 <==> sep in s
    ensures r.2 ==> s == r.0 + [sep] + r.1
    ensures sep !in r.0
    ensures !r.2 ==> r.0 == s && r.1 == []
    decreases |s|
  {
    if s == [] then ([], [], false)
    else if s[0] == sep then ([], s[1..], true)
    else
      var (before, after, found) := Cut(s[1..], sep);
      ([s[0]] + before, after, found)
  }

  /** url.ParseQuery without percent-decoding: `&`-separated segments, each cut
      at its first `=`; empty segments and segments holding `;` are dropped. */
  function ParseQuery(raw: string): Values
  {
    ParseQueryInto(map[], raw)
  }

  function ParseQueryInto(m: Values, rest: string): (r: Values)
    ensures m.Keys <= r.Keys
    decreases |rest|
  {
    if rest == [] then m
    else
      var (segment, tail, _) := Cut(rest, '&');
      var m' := if segment == [] || ';' in segment then m
                else var (key, value, _) := Cut(segment, '='); Add(m, key, value);
      ParseQueryInto(m', tail)
  }

  /** Parsing more of the query only adds: every key already there keeps its
      values, in order, at the front of its list. */
  lemma {:induction false} ParseQueryKeeps(m: Values, rest: string, k: string)
    requires k in m
    ensures k in ParseQueryInto(m, rest) && m[k] <= ParseQueryInto(m, rest)[k]
    decreases |rest|
  {
    if rest != [] {
      var (segment, tail, _) := Cut(rest, '&');
      var m' := if segment == [] || ';' in segment then m
                else var (key, value, _) := Cut(segment, '='); Add(m, key, value);
      assert m[k] <= m'[k];
      ParseQueryKeeps(m', tail, k);
    }
  }

  /** A `key=value` segment followed by `&` appends `value` to the values of
      `key`, and parsing goes on after the `&`. */
  lemma ParseSegment(m: Values, key: string, value: string, rest: string)
    requires '=' !in key && '&' !in key && ';' !in key
    requires '&' !in value && ';' !in value
    ensures ParseQueryInto(m, key + "=" + value + "&" + rest) == ParseQueryInto(Add(m, key, value), rest)
  {
    var segment := key + "=" + value;
    CutAt(key, '=', value);
    assert '&' !in segment && ';' !in segment && segment != [] by {
      assert segment[|key|] == '=';
    }
    CutAt(segment, '&', rest);
  }

  /** A final `key=value` segment appends `value` to the values of `key`. */
  lemma ParseLastSegment(m: Values, key: string, value: string)
    requires '=' !in key && '&' !in key && ';' !in key
    requires '&' !in value && ';' !in value
    ensures ParseQueryInto(m, key + "=" + value) == Add(m, key, value)
  {
    var segment := key + "=" + value;
    CutAt(key, '=', value);
    assert '&' !in segment && ';' !in segment && segment != [] by {
      assert segment[|key|] == '=';
    }
    assert Cut(segment, '&') == (segment, [], false);
  }

  /** Cut finds the separator right after a separator-free text. */
  lemma {:induction false} CutAt(before: string, sep: char, after: string)
    requires sep !in before
    ensures Cut(before + [sep] + after, sep) == (before, after, true)
    decreases |before|
  {
    var s := before + [sep] + after;
    if before != [] {
      assert s[0] == before[0] != sep;
      assert s[1..] == before[1..] + [sep] + after;
      CutAt(before[1..], sep, after);
      assert before == [before[0]] + before[1..];
    } else {
      assert s == [sep] + after;
    }
  }

  datatype UrlError = InvalidControlCharacter

  /** A parsed URL: everything before the first `?`, and the decoded query. */
  datatype Url = Url(path: string, query: Values)

  predicate IsControl(c: char) {
    c < ' ' || c as int == 0x7f
  }

  predicate HasControl(s: string) {
    exists i :: 0 <= i < |s| && IsControl(s[i])
  }

  /** url.Parse followed by URL.Query(): fails on an ASCII control character,
      otherwise splits at the first `?`. */
  function ParseUrl(s: string): (r: Result<Url, UrlError>)
    ensures r.Failure? <==> HasControl(s)
    ensures r.Success? ==> '?' !in r.value.path
    ensures r.Success? ==> r.value.path == s || r.value.path + "?" <= s
    ensures r.Success? && '?' !in s ==> r.value == Url(s, map[])
  {
    if HasControl(s) then Failure(InvalidControlCharacter)
    else
      var (path, rawQuery, _) := Cut(s, '?');
      Success(Url(path, ParseQuery(rawQuery)))
  }

  /** A prefix free of `sep` stays in front of the text Cut finds before `sep`. */
  lemma {:induction false} CutKeepsPrefix(s: string, sep: char, prefix: string)
    requires prefix <= s && sep !in prefix
    ensures prefix <= Cut(s, sep).0
    decreases |s|
  {
    if prefix != [] {
      assert s[0] == prefix[0] != sep;
      CutKeepsPrefix(s[1..], sep, prefix[1..]);
    }
  }

  /** Parsing keeps every `?`-free prefix of the text in the path. */
  lemma ParsedPathKeepsPrefix(s: string, prefix: string)
    requires ParseUrl(s).Success?
    requires prefix <= s && '?' !in prefix
    ensures prefix <= ParseUrl(s).value.path
  {
    CutKeepsPrefix(s, '?', prefix);
  }

  /** The URL an operation hands to the executor: the concatenated string as
      built, or the URL rebuilt by URL.String() once a filter block ran. */
  datatype Target = Plain(text: string) | Parsed(url: Url)

  /** The part of the target before its query string. */
  function Path(t: Target): string {
    match t
    case Plain(s) => s
    case Parsed(u) => u.path
  }

  /** url.Parse of the current target. A target that String() produced parses
      back to the same URL. */
  function Reparse(t: Target): Result<Url, UrlError> {
    match t
    case Plain(s) => ParseUrl(s)
    case Parsed(u) => Success(u)
  }

  /** One filter block: parse the target, Set `key` once per element of
      `values`, re-encode. */
  function ApplyFilter(t: Target, key: string, values: seq<string>): (r: Result<Target, UrlError>)
    ensures r.Success? <==> Reparse(t).Success?
    ensures r.Success? ==> r.value.Parsed? && r.value.url.path == Reparse(t).value.path
    ensures r.Success? && values != [] ==> r.value.url.query == Set(Reparse(t).value.query, key, values[|values| - 1])
  {
    var u :- Reparse(t);
    Success(Parsed(Url(u.path, SetEach(u.query, key, values))))
  }
}
