/** Redirect responses and the query strings they carry. The routes build their
    URLs by string interpolation; the pages they land on read them back with
    `URLSearchParams.get`, modelled here by `GetParam`. */
module Url {
  import opened Wrappers

  /** `${v}` in a template literal: an unset environment variable prints "undefined". */
  function Interpolate(v: Option<string>): string {
    v.GetOr("undefined")
  }

  /** `${v}` for a value read with `FormData.get`, which gives null for a missing field. */
  function InterpolateField(v: Option<string>): string {
    v.GetOr("null")
  }

  /** `NextResponse.redirect(location, status)`. */
  datatype Redirect = Redirect(location: string, status: int)

  /** HTTP 303 See Other, section 15.4.4 of RFC 9110: the browser follows with a GET. */
  const SeeOther: int := 303

  predicate IsAsciiLetter(c: char) {
    'a' <= c <= 'z' || 'A' <= c <= 'Z'
  }

  /** A character that may follow the first letter of a URL scheme. */
  predicate IsSchemeChar(c: char) {
    IsAsciiLetter(c) || '0' <= c <= '9' || c == '+' || c == '-' || c == '.'
  }

  /** `t` is the rest of a scheme: scheme characters up to a colon. */
  predicate SchemeTail(t: string)
    decreases |t|
  {
    |t| > 0 && (t[0] == ':' || (IsSchemeChar(t[0]) && SchemeTail(t[1..])))
  }

  /** `s` starts with a URL scheme and its colon (`https:`), which the WHATWG
      URL parser demands of a string it parses without a base. */
  predicate HasScheme(s: string) {
    |s| > 0 && IsAsciiLetter(s[0]) && SchemeTail(s[1..])
  }

  /** `NextResponse.redirect(location, status)`: it parses the location with
      `new URL`, which throws on a string without a scheme. Only that scheme
      check is modelled: the location is kept as built, not as the parser
      would serialize it. */
  function RedirectTo(location: string, status: int): (r: Option<Redirect>)
    ensures r.Some? <==> HasScheme(location)
    ensures r.Some? ==> r.value.location == location && r.value.status == status
  {
    if HasScheme(location) then Some(Redirect(location, status)) else None
  }

  lemma {:induction false} SchemeTailBeforeSlash(t: string, tail: string)
    requires |tail| > 0 && tail[0] == '/'
    ensures SchemeTail(t + tail) <==> SchemeTail(t)
    decreases |t|
  {
    if t == [] {
      assert t + tail == tail;
    } else {
      assert (t + tail)[0] == t[0];
      assert (t + tail)[1..] == t[1..] + tail;
      SchemeTailBeforeSlash(t[1..], tail);
    }
  }

  /** A path appended to a base leaves the question of a scheme to the base:
      the scheme, if any, ends before the first '/'. */
  lemma SchemeOfBase(base: string, tail: string)
    requires |tail| > 0 && tail[0] == '/'
    ensures HasScheme(base + tail) <==> HasScheme(base)
  {
    if base == [] {
      assert base + tail == tail;
    } else {
      assert (base + tail)[0] == base[0];
      assert (base + tail)[1..] == base[1..] + tail;
      SchemeTailBeforeSlash(base[1..], tail);
    }
  }

  lemma {:induction false} NoColonNoSchemeTail(t: string)
    requires forall i :: 0 <= i < |t| ==> t[i] != ':'
    ensures !SchemeTail(t)
    decreases |t|
  {
    if t != [] {
      assert forall i :: 0 <= i < |t[1..]| ==> t[1..][i] == t[i + 1];
      NoColonNoSchemeTail(t[1..]);
    }
  }

  /** An unset base URL prints "undefined", which has no scheme: by
      `SchemeOfBase`, nothing built on it can be redirected to. */
  lemma UnsetBaseHasNoScheme()
    ensures !HasScheme(Interpolate(None))
  {
    var u := Interpolate(None);
    assert u == "undefined";
    assert u[1..] == "ndefined";
    NoColonNoSchemeTail(u[1..]);
  }

  /** Splits at every occurrence of `sep`, like `String.prototype.split`. */
  function SplitOn(s: string, sep: char): (r: seq<string>)
    ensures |r| >= 1
    decreases |s|
  {
    if s == [] then [""]
    else if s[0] == sep then [""] + SplitOn(s[1..], sep)
    else
      var rest := SplitOn(s[1..], sep);
      [[s[0]] + rest[0]] + rest[1..]
  }

  lemma {:induction false} SplitOnNoSeparator(s: string, sep: char)
    requires sep !in s
    ensures SplitOn(s, sep) == [s]
    decreases |s|
  {
    if s != [] {
      SplitOnNoSeparator(s[1..], sep);
      assert [s[0]] + s[1..] == s;
    }
  }

  lemma {:induction false} SplitOnFirst(a: string, sep: char, b: string)
    requires sep !in a
    ensures SplitOn(a + [sep] + b, sep) == [a] + SplitOn(b, sep)
    decreases |a|
  {
    if a == [] {
      assert a + [sep] + b == [sep] + b;
      assert ([sep] + b)[1..] == b;
    } else {
      assert (a + [sep] + b)[1..] == a[1..] + [sep] + b;
      SplitOnFirst(a[1..], sep, b);
      assert [a[0]] + a[1..] == a;
    }
  }

  /** The text before the first `c`, or all of `s` when there is none. */
  function Before(s: string, c: char): (r: string)
    ensures c !in r
    decreases |s|
  {
    if s == [] || s[0] == c then "" else [s[0]] + Before(s[1..], c)
  }

  /** The text after the first `c`, if there is one. */
  function After(s: string, c: char): Option<string>
    decreases |s|
  {
    if s == [] then None else if s[0] == c then Some(s[1..]) else After(s[1..], c)
  }

  lemma {:induction false} BeforeAfterFirst(a: string, c: char, b: string)
    requires c !in a
    ensures Before(a + [c] + b, c) == a && After(a + [c] + b, c) == Some(b)
    decreases |a|
  {
    if a == [] {
      assert a + [c] + b == [c] + b;
      assert ([c] + b)[1..] == b;
    } else {
      assert (a + [c] + b)[1..] == a[1..] + [c] + b;
      BeforeAfterFirst(a[1..], c, b);
      assert [a[0]] + a[1..] == a;
    }
  }

  /** One `name=value` segment; a segment without `=` has an empty value. */
  function Pair(segment: string): (string, string) {
    (Before(segment, '='), After(segment, '=').GetOr(""))
  }

  function Pairs(segments: seq<string>): (r: seq<(string, string)>)
    ensures |r| == |segments|
    decreases |segments|
  {
    if segments == [] then [] else [Pair(segments[0])] + Pairs(segments[1..])
  }

  /** The value of the first parameter called `name`. */
  function Lookup(pairs: seq<(string, string)>, name: string): Option<string>
    decreases |pairs|
  {
    if pairs == [] then None
    else if pairs[0].0 == name then Some(pairs[0].1)
    else Lookup(pairs[1..], name)
  }

  /** `new URL(url).searchParams.get(name)`, without percent-decoding: the query
      is what follows the first `?`, split at `&`, each segment at its first `=`. */
  function GetParam(url: string, name: string): Option<string> {
    match After(url, '?')
    case None => None
    case Some(query) => Lookup(Pairs(SplitOn(query, '&')), name)
  }

  /** The part of a URL before its query. */
  function Path(url: string): string {
    Before(url, '?')
  }

  /** Characters that interpolated text must avoid to read back unchanged:
      `&` ends a parameter, `#` starts a fragment, `+` and `%` are decoded. */
  predicate QuerySafe(s: string) {
    '&' !in s && '#' !in s && '+' !in s && '%' !in s
  }

  /** `name1=value1&name2=value2...` */
  function QueryString(pairs: seq<(string, string)>): string
    requires |pairs| > 0
    decreases |pairs|
  {
    pairs[0].0 + "=" + pairs[0].1 + if |pairs| == 1 then "" else "&" + QueryString(pairs[1..])
  }

  predicate WellFormedPairs(pairs: seq<(string, string)>) {
    forall i :: 0 <= i < |pairs| ==>
      '=' !in pairs[i].0 && '&' !in pairs[i].0 && '&' !in pairs[i].1
  }

  /** Parsing a query string that was built from name/value pairs gives the pairs back. */
  lemma {:induction false} ParseQueryString(pairs: seq<(string, string)>)
    requires |pairs| > 0 && WellFormedPairs(pairs)
    ensures Pairs(SplitOn(QueryString(pairs), '&')) == pairs
    decreases |pairs|
  {
    var (k, v) := pairs[0];
    var segment := k + "=" + v;
    assert '&' !in segment by {
      assert forall i :: 0 <= i < |segment| ==> segment[i] == (k + "=" + v)[i];
    }
    BeforeAfterFirst(k, '=', v);
    assert k + "=" + v == k + ['='] + v;
    assert Pair(segment) == pairs[0];
    if |pairs| == 1 {
      assert QueryString(pairs) == segment;
      SplitOnNoSeparator(segment, '&');
    } else {
      var rest := QueryString(pairs[1..]);
      assert QueryString(pairs) == segment + ['&'] + rest;
      SplitOnFirst(segment, '&', rest);
      ParseQueryString(pairs[1..]);
      assert SplitOn(QueryString(pairs), '&') == [segment] + SplitOn(rest, '&');
    }
  }

  /** A URL built as `base?query` reads back its path and every first parameter. */
  lemma ReadBackUrl(base: string, pairs: seq<(string, string)>, name: string)
    requires '?' !in base && |pairs| > 0 && WellFormedPairs(pairs)
    ensures Path(base + "?" + QueryString(pairs)) == base
    ensures GetParam(base + "?" + QueryString(pairs), name) == Lookup(pairs, name)
  {
    BeforeAfterFirst(base, '?', QueryString(pairs));
    assert base + "?" + QueryString(pairs) == base + ['?'] + QueryString(pairs);
    ParseQueryString(pairs);
  }

  /** A template `base` + `path?n1=` + v1 + `&n2=` + v2 is the URL with the
      two-parameter query. */
  lemma TwoParamTemplate(base: string, lead: string, v1: string, mid: string, v2: string,
                         path: string, n1: string, n2: string)
    requires lead == path + "?" + n1 + "=" && mid == "&" + n2 + "="
    ensures base + lead + v1 + mid + v2 == base + path + "?" + QueryString([(n1, v1), (n2, v2)])
  {
    var pairs := [(n1, v1), (n2, v2)];
    assert QueryString(pairs[1..]) == n2 + "=" + v2;
    assert QueryString(pairs) == n1 + "=" + v1 + "&" + (n2 + "=" + v2);
  }

  /** A template `base` + `path?n=` + v is the URL with a one-parameter query. */
  lemma OneParamTemplate(base: string, lead: string, v: string, path: string, n: string)
    requires lead == path + "?" + n + "="
    ensures base + lead + v == base + path + "?" + QueryString([(n, v)])
  {
    assert QueryString([(n, v)]) == n + "=" + v;
  }
}
