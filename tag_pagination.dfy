/**
 * The `oci_tag_paginate` decorator: tag listing paginated by the plain name of
 * the last tag seen, as in the OCI distribution specification (`n`, `last`,
 * `Link: <...>; rel="next"`).
 */
module TagPagination {
  import opened Base
  import opened Http
  import opened Pagination

  /** The page size `oci_tag_paginate` hands its handler. Werkzeug's
      `args.get("n", MAX, type=int)` returns the default for an `n` it cannot
      convert, so an absent and an unparsable `n` both ask for `MAX`. */
  function TagLimit(n: QueryInt, max: PageMax): (limit: int)
    ensures 1 <= limit <= max
    ensures n.Absent? || n.NotAnInt? ==> limit == max
    ensures n.Int? ==> limit == ClampLimit(n.value, max)
  {
    var requested := match n
      case Int(k) => k
      case _ => max as int;
    ClampLimit(requested, max)
  }

  /** The characters Python's `str.strip()` removes: those `str.isspace()` accepts. */
  predicate IsSpace(c: char) {
    c == ' ' || '\t' <= c <= '\r' || '\U{1c}' <= c <= '\U{1f}' || c == '\U{85}' || c == '\U{a0}'
    || c == '\U{1680}' || '\U{2000}' <= c <= '\U{200a}' || c == '\U{2028}' || c == '\U{2029}'
    || c == '\U{202f}' || c == '\U{205f}' || c == '\U{3000}'
  }

  /** `s` with its leading whitespace removed. */
  function TrimStart(s: string): (r: string)
    ensures |r| <= |s| && r == s[|s| - |r|..]
    ensures forall k :: 0 <= k < |s| - |r| ==> IsSpace(s[k])
    ensures r == [] || !IsSpace(r[0])
  {
    if s != [] && IsSpace(s[0]) then
      var r := TrimStart(s[1..]);
      assert s[1..][|s| - 1 - |r|..] == s[|s| - |r|..];
      r
    else
      s
  }

  /** `s` with its trailing whitespace removed. */
  function TrimEnd(s: string): (r: string)
    ensures |r| <= |s| && r == s[..|r|]
    ensures forall k :: |r| <= k < |s| ==> IsSpace(s[k])
    ensures r == [] || !IsSpace(r[|r| - 1])
  {
    if s != [] && IsSpace(s[|s| - 1]) then TrimEnd(s[..|s| - 1]) else s
  }

  /** `s.strip()`: no longer than `s`, and neither starting nor ending with whitespace. */
  function Strip(s: string): (r: string)
    ensures |r| <= |s|
    ensures r == [] || (!IsSpace(r[0]) && !IsSpace(r[|r| - 1]))
  {
    var t := TrimStart(s);
    var r := TrimEnd(t);
    assert r == [] || r[0] == t[0];
    r
  }

  /** `strip()` keeps the slice of its input that starts after the leading
      whitespace, and everything it drops on either side is whitespace. */
  lemma StripSpec(s: string)
    ensures var i := |s| - |TrimStart(s)|; var r := Strip(s);
      && i + |r| <= |s| && r == s[i..i + |r|]
      && (forall k :: 0 <= k < i ==> IsSpace(s[k]))
      && (forall k :: i + |r| <= k < |s| ==> IsSpace(s[k]))
  {
    var t := TrimStart(s);
    var r := TrimEnd(t);
    TrailingSpaceOfSuffix(s, |s| - |t|, t, r);
  }

  /** What a trailing trim of the suffix `t == s[i..]` keeps and drops, seen in `s`. */
  lemma TrailingSpaceOfSuffix(s: string, i: nat, t: string, r: string)
    requires i <= |s| && t == s[i..] && |r| <= |t| && r == t[..|r|]
    requires forall k :: |r| <= k < |t| ==> IsSpace(t[k])
    ensures r == s[i..i + |r|]
    ensures forall k :: i + |r| <= k < |s| ==> IsSpace(s[k])
  {
  }

  /** A blank `last` strips to the empty name; it does not become absent. */
  lemma BlankStripsToEmpty(s: string)
    requires forall k :: 0 <= k < |s| ==> IsSpace(s[k])
    ensures Strip(s) == ""
  {
  }

  /** Stripping twice strips nothing more. */
  lemma StripIdempotent(s: string)
    ensures Strip(Strip(s)) == Strip(s)
  {
    var r := Strip(s);
    if r != [] {
      assert TrimStart(r) == r;
      assert TrimEnd(r) == r;
    }
  }

  /** The query parameters `oci_tag_paginate` reads. */
  datatype TagQuery = TagQuery(n: QueryInt, last: Option<string>)

  /** What `oci_tag_paginate` passes its handler. */
  datatype TagArgs = TagArgs(limit: int, lastTagName: Option<string>)

  /** The decorator's parsing step. */
  function PrepareTags(q: TagQuery, max: PageMax): (args: TagArgs)
    ensures 1 <= args.limit <= max
    ensures args.limit == TagLimit(q.n, max)
    ensures args.lastTagName.Some? <==> q.last.Some?
    ensures q.last.Some? ==> args.lastTagName.value == Strip(q.last.value)
  {
    TagArgs(TagLimit(q.n, max), if q.last.Some? then Some(Strip(q.last.value)) else None)
  }

  /** A listed tag; only its `name` matters here. */
  datatype Tag = Tag(name: string)

  /** The `Link` header the callback sets, if any; `url` is the path
      `url_for(...)` returns, as for `Pagination.NextPageLink`. */
  function NextTagLink(limit: int, url: string, results: seq<Tag>, hasMore: bool): (link: Option<HeaderValue>)
    requires hasMore ==> |results| > 0
    ensures link.Some? <==> hasMore
    ensures link.Some? ==> link.value.NextLink? && link.value.url == url && link.value.n == limit
    ensures link.Some? ==> link.value.cursor == Last(results[|results| - 1].name)
  {
    if hasMore then Some(NextLink(url, limit, Last(results[|results| - 1].name))) else None
  }

  /** The `callback` that `oci_tag_paginate` hands its handler: it sets exactly
      the `Link` header when there are more tags, and otherwise changes nothing. */
  method TagPaginationCallback(limit: int, url: string, results: seq<Tag>, hasMore: bool, response: Response)
    requires hasMore ==> |results| > 0
    modifies response`headers
    ensures !hasMore ==> response.headers == old(response.headers)
    ensures hasMore ==>
      response.headers == old(response.headers)["Link" := [NextTagLink(limit, url, results, hasMore).value]]
  {
    if !hasMore {
      return;
    }
    response.SetHeader("Link", NextLink(url, limit, Last(results[|results| - 1].name)));
  }
}
