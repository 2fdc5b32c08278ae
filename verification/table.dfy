/**
 * The two tables as sequences in insertion order, and the read-only queries
 * of the repository (src/services/base.py): `get` (a lookup by `short_form`
 * that fails on more than one match, like `scalar_one_or_none`) and
 * `get_status` (a count, or one offset/limit page of a URL's Requests).
 */
module Table {
  import opened Wrappers
  import opened Records

  /** What `scalar_one_or_none()` yields: no row, the one row, or an error for several. */
  datatype Lookup = NoMatch | Found(url: ShortUrl) | MultipleFound

  /** What `get_status` yields: a number, or a list of Request rows. */
  datatype StatusResult = RequestCount(n: nat) | RequestPage(items: seq<Request>)

  /**
   * The store invariant: keys are assigned 1, 2, ... in insertion order
   * (rows are never removed), every `short_form` fits its column, and every
   * Request refers to an existing ShortUrl.
   */
  predicate Consistent(urls: seq<ShortUrl>, requests: seq<Request>) {
    && (forall i :: 0 <= i < |urls| ==> urls[i].id == i + 1 && |urls[i].shortForm| <= SHORT_FORM_MAX_LENGTH)
    && (forall k :: 0 <= k < |requests| ==> requests[k].id == k + 1 && 1 <= requests[k].urlId <= |urls|)
  }

  /** `get`: the single row whose `short_form` equals `shortForm`. */
  function Get(urls: seq<ShortUrl>, shortForm: string): (r: Lookup)
    ensures r.NoMatch? <==> forall i :: 0 <= i < |urls| ==> urls[i].shortForm != shortForm
    ensures r.MultipleFound? <==>
      exists i, j :: 0 <= i < j < |urls| && urls[i].shortForm == shortForm && urls[j].shortForm == shortForm
    ensures r.Found? ==> r.url in urls && r.url.shortForm == shortForm
    ensures r.Found? ==> forall i, j ::
      0 <= i < |urls| && 0 <= j < |urls| && urls[i].shortForm == shortForm && urls[j].shortForm == shortForm ==> i == j
    decreases |urls|
  {
    if urls == [] then NoMatch
    else
      var rest := Get(urls[1..], shortForm);
      if urls[0].shortForm != shortForm then rest
      else if rest.NoMatch? then Found(urls[0])
      else MultipleFound
  }

  /** The lookup result as the handlers see it: `None` or the row. */
  function AsOption(l: Lookup): Option<ShortUrl>
    requires !l.MultipleFound?
  {
    if l.Found? then Some(l.url) else None
  }

  /** The relationship `ShortUrl.requests`: the Requests whose `url_id` is `urlId`, in insertion order. */
  function RequestsOf(requests: seq<Request>, urlId: nat): (r: seq<Request>)
    ensures |r| <= |requests|
    ensures forall q :: q in r <==> q in requests && q.urlId == urlId
    decreases |requests|
  {
    if requests == [] then []
    else
      var last := requests[|requests| - 1];
      RequestsOf(requests[..|requests| - 1], urlId) + (if last.urlId == urlId then [last] else [])
  }

  /** Appending one Request extends exactly its owner's collection, by that Request. */
  lemma RequestsOfAppend(requests: seq<Request>, q: Request, urlId: nat)
    ensures RequestsOf(requests + [q], urlId) == RequestsOf(requests, urlId) + (if q.urlId == urlId then [q] else [])
  {
    assert (requests + [q])[..|requests|] == requests;
  }

  /** When every Request belongs to the URL, the selection is the whole table, in order. */
  lemma {:induction false} RequestsOfAll(requests: seq<Request>, urlId: nat)
    requires forall k :: 0 <= k < |requests| ==> requests[k].urlId == urlId
    ensures RequestsOf(requests, urlId) == requests
    decreases |requests|
  {
    if requests != [] {
      var init, last := requests[..|requests| - 1], requests[|requests| - 1];
      RequestsOfAll(init, urlId);
      assert RequestsOf(requests, urlId) == init + [last];
    }
  }

  /** Every Request of the URL is selected exactly as often as it was logged, and no other is. */
  lemma {:induction false} RequestsOfCounts(requests: seq<Request>, urlId: nat)
    ensures forall q ::
      multiset(RequestsOf(requests, urlId))[q] == if q.urlId == urlId then multiset(requests)[q] else 0
    decreases |requests|
  {
    if requests != [] {
      var init := requests[..|requests| - 1];
      assert requests == init + [requests[|requests| - 1]];
      RequestsOfCounts(init, urlId);
    }
  }

  /** The selection keeps table order: its keys strictly increase. */
  lemma {:induction false} RequestsOfInIdOrder(urls: seq<ShortUrl>, requests: seq<Request>, urlId: nat)
    requires Consistent(urls, requests)
    ensures forall i, j :: 0 <= i < j < |RequestsOf(requests, urlId)| ==>
      RequestsOf(requests, urlId)[i].id < RequestsOf(requests, urlId)[j].id
    decreases |requests|
  {
    if requests != [] {
      var init := requests[..|requests| - 1];
      var last := requests[|requests| - 1];
      assert Consistent(urls, init);
      RequestsOfInIdOrder(urls, init, urlId);
      forall q | q in RequestsOf(init, urlId)
        ensures q.id < last.id
      {
        var k :| 0 <= k < |init| && init[k] == q;
      }
    }
  }

  /** `full_info` is falsy when it is unset or `False`. */
  predicate IsFalsy(fullInfo: Option<bool>) {
    fullInfo == None || fullInfo == Some(false)
  }

  function Min(a: int, b: int): int {
    if a <= b then a else b
  }

  function Max(a: int, b: int): int {
    if a <= b then b else a
  }

  /**
   * `get_status`: with falsy `full_info` the number of Requests of `urlId`
   * (paging ignored); otherwise those Requests after skipping `offset`, at
   * most `limit` of them.
   */
  function GetStatus(requests: seq<Request>, urlId: nat, limit: nat, offset: nat, fullInfo: Option<bool>): (r: StatusResult)
    ensures IsFalsy(fullInfo) <==> r.RequestCount?
    ensures r.RequestCount? ==> r.n == |RequestsOf(requests, urlId)|
    ensures r.RequestPage? ==>
      && |r.items| == Min(limit, Max(0, |RequestsOf(requests, urlId)| - offset))
      && forall k :: 0 <= k < |r.items| ==> r.items[k] == RequestsOf(requests, urlId)[offset + k]
    ensures r.RequestPage? ==> forall q :: q in r.items ==> q in requests && q.urlId == urlId
  {
    var all := RequestsOf(requests, urlId);
    if IsFalsy(fullInfo) then RequestCount(|all|)
    else
      var start := Min(offset, |all|);
      RequestPage(all[start..Min(start + limit, |all|)])
  }

  /** `db_obj.deleted = True` on the row at index `i`. */
  function SoftDelete(urls: seq<ShortUrl>, i: nat): (r: seq<ShortUrl>)
    requires i < |urls|
    ensures |r| == |urls| && r[i].deleted
    ensures r[i] == urls[i].(deleted := true)
    ensures forall j :: 0 <= j < |urls| && j != i ==> r[j] == urls[j]
  {
    urls[i := urls[i].(deleted := true)]
  }

  /** Deleting twice is deleting once. */
  lemma SoftDeleteIdempotent(urls: seq<ShortUrl>, i: nat)
    requires i < |urls|
    ensures SoftDelete(SoftDelete(urls, i), i) == SoftDelete(urls, i)
  {
  }

  /** Soft deletion keeps every row's id, `short_form`, links and origin, and only ever sets the flag. */
  lemma SoftDeleteKeepsRows(urls: seq<ShortUrl>, requests: seq<Request>, i: nat)
    requires i < |urls| && Consistent(urls, requests)
    ensures Consistent(SoftDelete(urls, i), requests)
    ensures forall j :: 0 <= j < |urls| ==>
      && SoftDelete(urls, i)[j].id == urls[j].id
      && SoftDelete(urls, i)[j].shortForm == urls[j].shortForm
      && SoftDelete(urls, i)[j].shortUrl == urls[j].shortUrl
      && SoftDelete(urls, i)[j].originUrl == urls[j].originUrl
      && (urls[j].deleted ==> SoftDelete(urls, i)[j].deleted)
  {
  }

  /** A found row sits at index `id - 1`. */
  lemma FoundAtId(urls: seq<ShortUrl>, requests: seq<Request>, shortForm: string)
    requires Consistent(urls, requests) && Get(urls, shortForm).Found?
    ensures var u := Get(urls, shortForm).url; 1 <= u.id <= |urls| && urls[u.id - 1] == u
  {
    var u := Get(urls, shortForm).url;
    var i :| 0 <= i < |urls| && urls[i] == u;
  }

  /** After a soft delete the same `short_form` finds the same row, now marked deleted. */
  lemma LookupAfterSoftDelete(urls: seq<ShortUrl>, requests: seq<Request>, shortForm: string)
    requires Consistent(urls, requests) && Get(urls, shortForm).Found?
    ensures var u := Get(urls, shortForm).url;
      Get(SoftDelete(urls, u.id - 1), shortForm) == Found(u.(deleted := true))
  {
    var u := Get(urls, shortForm).url;
    FoundAtId(urls, requests, shortForm);
    var after := SoftDelete(urls, u.id - 1);
    assert after[u.id - 1].shortForm == shortForm;
    var r := Get(after, shortForm);
    var k :| 0 <= k < |after| && after[k] == r.url;
    assert urls[k].shortForm == shortForm;
  }

  /** A row appended with a `short_form` no row had before is what a lookup of it finds. */
  lemma LookupAfterAppendFresh(urls: seq<ShortUrl>, row: ShortUrl)
    requires forall i :: 0 <= i < |urls| ==> urls[i].shortForm != row.shortForm
    ensures Get(urls + [row], row.shortForm) == Found(row)
  {
    var after := urls + [row];
    assert after[|urls|] == row;
    var r := Get(after, row.shortForm);
    var k :| 0 <= k < |after| && after[k] == r.url;
    assert k == |urls|;
  }

  /** Appending a row leaves the lookup of every other `short_form` as it was. */
  lemma LookupAfterAppendOther(urls: seq<ShortUrl>, row: ShortUrl, shortForm: string)
    requires row.shortForm != shortForm
    ensures Get(urls + [row], shortForm) == Get(urls, shortForm)
  {
    var after := urls + [row];
    var a, b := Get(after, shortForm), Get(urls, shortForm);
    assert forall i :: 0 <= i < |urls| ==> after[i] == urls[i];
    if a.MultipleFound? {
      var i, j :| 0 <= i < j < |after| && after[i].shortForm == shortForm && after[j].shortForm == shortForm;
      assert j < |urls|;
    } else if a.Found? {
      var k :| 0 <= k < |after| && after[k] == a.url;
      assert k < |urls| && urls[k].shortForm == shortForm;
      var m :| 0 <= m < |urls| && urls[m] == b.url;
      assert after[m].shortForm == shortForm;
    }
  }
}
