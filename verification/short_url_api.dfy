/**
 * The route handlers of src/api/v1/short_url.py over the repository: each
 * turns a lookup into 404 / 410 / success and, on success only, performs
 * its one repository change. Response bodies carry the fields of the
 * response schemas (src/schemas/short_url.py).
 */
module ShortUrlApi {
  import opened Wrappers
  import opened Records
  import opened Alias
  import opened Table
  import opened Repository
  import opened Http
  import opened Tools

  /** Query defaults of the status route: `max-size=10`, `offset=0`, `full-info` unset. */
  const DEFAULT_MAX_SIZE: nat := 10
  const DEFAULT_OFFSET: nat := 0

  /** One element of the batch-create response: `{short_form, short_url}`. */
  datatype OneShortUrlInfo = OneShortUrlInfo(shortForm: string, shortUrl: string)

  /** One element of the full status response: `{made_at, client_host, client_port}`. */
  datatype RequestInfo = RequestInfo(madeAt: Timestamp, clientHost: string, clientPort: int)

  /** The status body: `{requests_number: n}` or the list of Requests. */
  datatype StatusBody = RequestsNumber(n: nat) | RequestList(items: seq<RequestInfo>)

  function ToInfo(q: Request): RequestInfo {
    RequestInfo(q.madeAt, q.clientHost, q.clientPort)
  }

  /**
   * `GET /{url_id}`: 404 for an unknown `short_form`, 410 for a deleted one
   * (exactly the verdicts of `check_short_url`); otherwise one Request is
   * recorded and the client is redirected to the stored `origin_url`.
   * Requests change only on success; ShortUrls never change.
   */
  method GetOriginUrl(store: ShortUrlStore, urlId: string, clientHost: string, clientPort: int, now: Timestamp)
    returns (o: Outcome<string>)
    requires store.Valid()
    modifies store
    ensures store.Valid() && store.urls == old(store.urls)
    ensures var found := Get(old(store.urls), urlId);
      if found.MultipleFound? then o == InternalError && store.requests == old(store.requests)
      else match CheckShortUrl(AsOption(found))
        case Some(e) => o == Raised(e) && store.requests == old(store.requests)
        case None =>
          && o == Ok(HTTP_307_TEMPORARY_REDIRECT, found.url.originUrl)
          && store.requests == old(store.requests) + [Request(|old(store.requests)| + 1, found.url.id, now, clientHost, clientPort)]
  {
    var found := Get(store.urls, urlId);
    if found.MultipleFound? {
      return InternalError;
    }
    if found.NoMatch? {
      return Raised(ITEM_NOT_FOUND);
    } else if found.url.deleted {
      return Raised(ITEM_DELETED);
    }
    var resultObject := store.AddRequest(found.url, clientHost, clientPort, now);
    return Ok(HTTP_307_TEMPORARY_REDIRECT, resultObject.originUrl);
  }

  /** `POST /`: 201 with the new `short_url`; exactly one row is added. */
  method CreateShortUrl(store: ShortUrlStore, input: ShortUrlCreate, host: string, port: nat, token: string, now: Timestamp)
    returns (o: Outcome<string>)
    requires store.Valid() && ValidToken(token)
    modifies store
    ensures store.Valid() && store.requests == old(store.requests)
    ensures o == Ok(HTTP_201_CREATED, ComposeShortUrl(host, port, token)) && ShortFormOf(o.body) == token
    ensures |store.urls| == |old(store.urls)| + 1 && store.urls[..|old(store.urls)|] == old(store.urls)
    ensures IsCreatedRow(store.urls[|old(store.urls)|], input, host, port, token, |old(store.urls)| + 1, now)
  {
    var shortUrl := store.Create(input, host, port, token, now);
    assert store.urls[..|old(store.urls)|] == old(store.urls);
    ShortUrlRoundTrip(host, port, token);
    return Ok(HTTP_201_CREATED, shortUrl.shortUrl);
  }

  /** `POST /shorten`: 201 with one `{short_form, short_url}` per input, in input order. */
  method CreateMultiShortUrls(
    store: ShortUrlStore, inputs: seq<ShortUrlCreate>, host: string, port: nat,
    tokens: seq<string>, stamps: seq<Timestamp>)
    returns (o: Outcome<seq<OneShortUrlInfo>>)
    requires store.Valid()
    requires |tokens| == |inputs| && |stamps| == |inputs|
    requires forall k :: 0 <= k < |tokens| ==> ValidToken(tokens[k])
    modifies store
    ensures store.Valid() && store.requests == old(store.requests)
    ensures o.Ok? && o.status == HTTP_201_CREATED && |o.body| == |inputs|
    ensures forall k :: 0 <= k < |inputs| ==>
      o.body[k] == OneShortUrlInfo(tokens[k], ComposeShortUrl(host, port, tokens[k]))
    ensures |store.urls| == |old(store.urls)| + |inputs| && store.urls[..|old(store.urls)|] == old(store.urls)
    ensures forall k :: 0 <= k < |inputs| ==>
      IsCreatedRow(store.urls[|old(store.urls)| + k], inputs[k], host, port, tokens[k], |old(store.urls)| + k + 1, stamps[k])
  {
    var shortUrls := store.CreateMulti(inputs, host, port, tokens, stamps);
    assert store.urls[..|old(store.urls)|] == old(store.urls);
    var body := seq(|shortUrls|, k requires 0 <= k < |shortUrls| => OneShortUrlInfo(shortUrls[k].shortForm, shortUrls[k].shortUrl));
    return Ok(HTTP_201_CREATED, body);
  }

  /**
   * `DELETE /{url_id}`: 404 "URL not found" for an unknown `short_form`;
   * otherwise the row is soft-deleted, whether or not it already was, and
   * returned with `deleted` set. Requests never change.
   */
  method DeleteShortUrl(store: ShortUrlStore, urlId: string) returns (o: Outcome<ShortUrl>)
    requires store.Valid()
    modifies store
    ensures store.Valid() && store.requests == old(store.requests)
    ensures var found := Get(old(store.urls), urlId);
      && (found.NoMatch? ==> o == Raised(URL_NOT_FOUND) && store.urls == old(store.urls))
      && (found.MultipleFound? ==> o == InternalError && store.urls == old(store.urls))
      && (found.Found? ==>
            && o == Ok(HTTP_200_OK, found.url.(deleted := true))
            && store.urls == SoftDelete(old(store.urls), found.url.id - 1)
            && Get(store.urls, urlId) == Found(o.body))
  {
    var found := Get(store.urls, urlId);
    if found.MultipleFound? {
      return InternalError;
    }
    if found.NoMatch? {
      return Raised(URL_NOT_FOUND);
    }
    var shortUrl := store.Delete(urlId);
    return Ok(HTTP_200_OK, shortUrl);
  }

  /**
   * `GET /{url_id}/status`: 404 / 410 like the redirect (with detail "URL
   * not found" for 404), otherwise `get_status` on the row's `id` with the
   * query defaults; a count is wrapped as `{requests_number: n}`.
   */
  function GetShortUrlStatus(
    urls: seq<ShortUrl>, requests: seq<Request>, urlId: string,
    fullInfo: Option<bool>, maxSize: Option<nat>, offset: Option<nat>): (o: Outcome<StatusBody>)
    ensures Get(urls, urlId).NoMatch? ==> o == Raised(URL_NOT_FOUND)
    ensures Get(urls, urlId).MultipleFound? ==> o == InternalError
    ensures Get(urls, urlId).Found? && Get(urls, urlId).url.deleted ==> o == Raised(ITEM_DELETED)
    ensures o.Ok? <==> Get(urls, urlId).Found? && !Get(urls, urlId).url.deleted
    ensures o.Ok? ==> o.status == HTTP_200_OK
    ensures o.Ok? ==> (IsFalsy(fullInfo) <==> o.body.RequestsNumber?)
    ensures o.Ok? && o.body.RequestsNumber? ==>
      o.body.n == |RequestsOf(requests, Get(urls, urlId).url.id)|
  {
    var found := Get(urls, urlId);
    if found.MultipleFound? then InternalError
    else if found.NoMatch? then Raised(URL_NOT_FOUND)
    else if found.url.deleted then Raised(ITEM_DELETED)
    else
      match GetStatus(requests, found.url.id, maxSize.GetOr(DEFAULT_MAX_SIZE), offset.GetOr(DEFAULT_OFFSET), fullInfo)
      case RequestCount(n) => Ok(HTTP_200_OK, RequestsNumber(n))
      case RequestPage(items) =>
        Ok(HTTP_200_OK, RequestList(seq(|items|, k requires 0 <= k < |items| => ToInfo(items[k]))))
  }

  /**
   * With `full-info` true the body lists the live row's Requests after
   * skipping `offset` (default 0), at most `max-size` (default 10) of them,
   * each shown as `{made_at, client_host, client_port}`.
   */
  lemma StatusListIsPage(
    urls: seq<ShortUrl>, requests: seq<Request>, urlId: string, maxSize: Option<nat>, offset: Option<nat>)
    requires Get(urls, urlId).Found? && !Get(urls, urlId).url.deleted
    ensures var o := GetShortUrlStatus(urls, requests, urlId, Some(true), maxSize, offset);
      var all := RequestsOf(requests, Get(urls, urlId).url.id);
      var skip := offset.GetOr(DEFAULT_OFFSET);
      && o.Ok? && o.body.RequestList?
      && |o.body.items| == Min(maxSize.GetOr(DEFAULT_MAX_SIZE), Max(0, |all| - skip))
      && forall k :: 0 <= k < |o.body.items| ==> o.body.items[k] == ToInfo(all[skip + k])
  {
  }

  /** With every query parameter left out, the status of a live row is its Request count. */
  lemma StatusDefaultsToCount(urls: seq<ShortUrl>, requests: seq<Request>, urlId: string)
    requires Get(urls, urlId).Found? && !Get(urls, urlId).url.deleted
    ensures GetShortUrlStatus(urls, requests, urlId, None, None, None)
      == Ok(HTTP_200_OK, RequestsNumber(|RequestsOf(requests, Get(urls, urlId).url.id)|))
  {
  }

  /**
   * A live row with exactly two logged Requests, whatever other rows' Requests
   * the table holds: by default its status is a count of 2, and with
   * `full-info` it lists both Requests in logging order.
   */
  lemma StatusAfterTwoRequests(urls: seq<ShortUrl>, requests: seq<Request>, urlId: string, r1: Request, r2: Request)
    requires Get(urls, urlId).Found? && !Get(urls, urlId).url.deleted
    requires RequestsOf(requests, Get(urls, urlId).url.id) == [r1, r2]
    ensures GetShortUrlStatus(urls, requests, urlId, None, None, None) == Ok(HTTP_200_OK, RequestsNumber(2))
    ensures GetShortUrlStatus(urls, requests, urlId, Some(true), None, None)
      == Ok(HTTP_200_OK, RequestList([ToInfo(r1), ToInfo(r2)]))
  {
    var id := Get(urls, urlId).url.id;
    assert GetStatus(requests, id, DEFAULT_MAX_SIZE, DEFAULT_OFFSET, Some(true)) == RequestPage([r1, r2]);
    var infos := seq(2, k requires 0 <= k < 2 => ToInfo([r1, r2][k]));
    assert infos[0] == ToInfo(r1) && infos[1] == ToInfo(r2);
    assert infos == [ToInfo(r1), ToInfo(r2)];
  }

  /**
   * Create `http://ya.ru` on a fresh store, follow the returned link twice
   * and read the status: two redirects to the origin, then a count of 2,
   * and with `full-info` the two logged Requests.
   */
  method RedirectTwiceFlow(host: string, port: nat, token: string, clientHost: string, clientPort: int, now: Timestamp)
    returns (created: Outcome<string>, first: Outcome<string>, second: Outcome<string>,
             status: Outcome<StatusBody>, fullStatus: Outcome<StatusBody>)
    requires ValidToken(token)
    ensures created == Ok(HTTP_201_CREATED, ComposeShortUrl(host, port, token))
    ensures first == Ok(HTTP_307_TEMPORARY_REDIRECT, "http://ya.ru") && second == first
    ensures status == Ok(HTTP_200_OK, RequestsNumber(2))
    ensures var info := RequestInfo(now, clientHost, clientPort);
      fullStatus == Ok(HTTP_200_OK, RequestList([info, info]))
  {
    var store := new ShortUrlStore();
    created := CreateShortUrl(store, ShortUrlCreate("http://ya.ru"), host, port, token, now);
    var row := store.urls[0];
    assert store.urls == [] + [row];
    LookupAfterAppendFresh([], row);
    var urlId := ShortFormOf(created.body);
    assert Get(store.urls, urlId) == Found(row);

    assert !row.deleted && row.originUrl == "http://ya.ru" && row.id == 1;
    assert CheckShortUrl(AsOption(Get(store.urls, urlId))) == None;
    var r1 := Request(1, row.id, now, clientHost, clientPort);
    var r2 := Request(2, row.id, now, clientHost, clientPort);
    first := GetOriginUrl(store, urlId, clientHost, clientPort, now);
    assert store.requests == [r1];
    second := GetOriginUrl(store, urlId, clientHost, clientPort, now);
    assert store.requests == [r1, r2];
    RequestsOfAll([r1, r2], row.id);
    StatusAfterTwoRequests(store.urls, store.requests, urlId, r1, r2);
    status := GetShortUrlStatus(store.urls, store.requests, urlId, None, None, None);
    fullStatus := GetShortUrlStatus(store.urls, store.requests, urlId, Some(true), None, None);
  }

  /**
   * Create `http://ya.ru` on a fresh store, delete it through the returned
   * link, then follow the link: the deleted record keeps its `short_url`,
   * and the redirect answers 410.
   */
  method DeleteThenRedirectFlow(host: string, port: nat, token: string, clientHost: string, clientPort: int, now: Timestamp)
    returns (created: Outcome<string>, deleted: Outcome<ShortUrl>, after: Outcome<string>)
    requires ValidToken(token)
    ensures created == Ok(HTTP_201_CREATED, ComposeShortUrl(host, port, token))
    ensures deleted.Ok? && deleted.body.deleted && deleted.body.shortUrl == created.body
    ensures after == Raised(ITEM_DELETED)
  {
    var store := new ShortUrlStore();
    created := CreateShortUrl(store, ShortUrlCreate("http://ya.ru"), host, port, token, now);
    var row := store.urls[0];
    assert store.urls == [] + [row];
    LookupAfterAppendFresh([], row);
    var urlId := ShortFormOf(created.body);
    assert Get(store.urls, urlId) == Found(row);

    deleted := DeleteShortUrl(store, urlId);
    after := GetOriginUrl(store, urlId, clientHost, clientPort, now);
  }
}
