/**
 * The page-size bound and the `paginate` decorator: an offset cursor whose
 * position (`start_id`) travels inside an encrypted page token.
 */
module Pagination {
  import opened Base
  import opened Http

  /** A page-size bound: never below 100. */
  type PageMax = m: int | m >= 100 witness 100

  /** `_MAX_RESULTS_PER_PAGE`: the configured `V2_PAGINATION_SIZE` (100 when
      unset), raised to at least 100. */
  function MaxResultsPerPage(configured: Option<int>): (m: PageMax)
    ensures configured.None? ==> m == 100
    ensures configured.Some? ==> m >= configured.value
    ensures m == 100 || (configured.Some? && m == configured.value)
  {
    Max(configured.GetOr(100), 100)
  }

  /** The query parameter `n` as the request carries it. */
  datatype QueryInt = Absent | Int(value: int) | NotAnInt

  /** `max(min(requested, MAX), 1)`. */
  function ClampLimit(requested: int, max: PageMax): (limit: int)
    ensures 1 <= limit <= max
    ensures 1 <= requested <= max ==> limit == requested
    ensures requested > max ==> limit == max
    ensures requested < 1 ==> limit == 1
  {
    Max(Min(requested, max), 1)
  }

  /** The page size `paginate` hands to its handler: an absent `n` asks for
      `MAX`, an `n` that `int()` rejects for 0. */
  function PageLimit(n: QueryInt, max: PageMax): (limit: int)
    ensures 1 <= limit <= max
    ensures n.Absent? ==> limit == max
    ensures n.NotAnInt? ==> limit == 1
    ensures n.Int? && 1 <= n.value <= max ==> limit == n.value
    ensures n.Int? && n.value > max ==> limit == max
    ensures n.Int? && n.value < 1 ==> limit == 1
  {
    var requested := match n
      case Absent => max as int
      case Int(k) => k
      case NotAnInt => 0;
    ClampLimit(requested, max)
  }

  /** The query parameters `paginate` reads. */
  datatype PageQuery = PageQuery(n: QueryInt, nextPage: Option<string>, last: Option<string>)

  /** The page token: `next_page` when the request has one, else the legacy `last`. */
  function PageToken(q: PageQuery): (token: Option<string>)
    ensures q.nextPage.Some? ==> token == q.nextPage
    ensures q.nextPage.None? ==> token == q.last
    ensures token.None? <==> q.nextPage.None? && q.last.None?
  {
    if q.nextPage.Some? then q.nextPage else q.last
  }

  /** `page_info.get("start_id")` for a decrypted token, `None` when it did not decrypt. */
  function StartId(pageInfo: Option<map<string, int>>): (id: Option<int>)
    ensures id.Some? <==> pageInfo.Some? && "start_id" in pageInfo.value
    ensures id.Some? ==> id.value == pageInfo.value["start_id"]
  {
    match pageInfo
    case None => None
    case Some(info) => if "start_id" in info then Some(info["start_id"]) else None
  }

  /** What `paginate` passes its handler. */
  datatype PageArgs = PageArgs(limit: int, startId: Option<int>)

  /** The decorator's parsing step; `decrypt` is `decrypt_page_token`. */
  function PreparePage(q: PageQuery, max: PageMax, decrypt: Option<string> -> Option<map<string, int>>)
    : (args: PageArgs)
    ensures 1 <= args.limit <= max
    ensures args.limit == PageLimit(q.n, max)
    ensures args.startId.Some? ==>
      var info := decrypt(PageToken(q));
      info.Some? && "start_id" in info.value && args.startId.value == info.value["start_id"]
    ensures args.startId.None? ==>
      var info := decrypt(PageToken(q));
      info.None? || "start_id" !in info.value
  {
    PageArgs(PageLimit(q.n, max), StartId(decrypt(PageToken(q))))
  }

  /** An absent token yields no start id whenever the decryptor maps `None` to `None`. */
  lemma AbsentTokenStartsAtBeginning(q: PageQuery, max: PageMax, decrypt: Option<string> -> Option<map<string, int>>)
    requires q.nextPage.None? && q.last.None?
    requires decrypt(None).None?
    ensures PreparePage(q, max, decrypt).startId.None?
  {
  }

  /** A listed object; only its `id` matters here. */
  datatype Row = Row(id: int)

  /** `m` is the largest id among `rows`. */
  ghost predicate IsMaxId(rows: seq<Row>, m: int) {
    (exists r :: r in rows && r.id == m) && (forall r :: r in rows ==> r.id <= m)
  }

  /** `max([obj.id for obj in rows])`. */
  function MaxId(rows: seq<Row>): (m: int)
    requires |rows| > 0
    ensures IsMaxId(rows, m)
  {
    if |rows| == 1 then rows[0].id
    else
      var rest := MaxId(rows[1..]);
      assert forall r :: r in rows ==> r == rows[0] || r in rows[1..];
      Max(rows[0].id, rest)
  }

  /** The `Link` header the callback sets for `results`, if any. `url` is the
      path `url_for(...)` returns: joining it onto `get_app_url()` with
      `os.path.join` keeps only that path, since it starts with `/`.
      `encrypt` is `encrypt_page_token`. */
  function NextPageLink(limit: int, url: string, encrypt: map<string, int> -> string, results: seq<Row>)
    : (link: Option<HeaderValue>)
    requires limit >= 1
    ensures link.None? <==> |results| <= limit
    ensures link.Some? ==>
      exists m :: IsMaxId(results, m) && link.value == NextLink(url, limit, NextPage(encrypt(map["start_id" := m])))
  {
    if |results| <= limit then None
    else Some(NextLink(url, limit, NextPage(encrypt(map["start_id" := MaxId(results)]))))
  }

  /** For ids listed in increasing order and one row over-fetched past the page,
      the token's start id is the id of that extra row: the first one the next
      page shows. */
  lemma OverFetchedRowStartsNextPage(results: seq<Row>)
    requires |results| > 0
    requires forall i, j :: 0 <= i < j < |results| ==> results[i].id < results[j].id
    ensures MaxId(results) == results[|results| - 1].id
  {
  }

  /** The `callback` that `paginate` hands its handler: when more than `limit`
      results were fetched it sets exactly the `Link` header, else it leaves the
      response unchanged. */
  method PaginationCallback(
    limit: int, url: string, encrypt: map<string, int> -> string,
    results: seq<Row>, response: Response)
    requires limit >= 1
    modifies response`headers
    ensures |results| <= limit ==> response.headers == old(response.headers)
    ensures |results| > limit ==>
      response.headers == old(response.headers)["Link" := [NextPageLink(limit, url, encrypt, results).value]]
  {
    if |results| <= limit {
      return;
    }
    var token := encrypt(map["start_id" := MaxId(results)]);
    response.SetHeader("Link", NextLink(url, limit, NextPage(token)));
  }
}
