/**
 * The state-changing half of the repository (src/services/base.py,
 * `RepositoryShotUrlDB`): an in-memory store of the two tables. `create`,
 * `create_multi`, `add_request` and `delete` each commit one change; the
 * queries `get` and `get_status` are Table.Get and Table.GetStatus over
 * the store's sequences.
 */
module Repository {
  import opened Records
  import opened Alias
  import opened Table

  /**
   * `r` is the row stored for one create input: it keeps the input's
   * `origin_url`, takes the token as `short_form` and the composed link as
   * `short_url`, carries the key the database assigned and the column
   * defaults (`created_at = now`, `deleted = False`).
   */
  predicate IsCreatedRow(r: ShortUrl, input: ShortUrlCreate, host: string, port: nat, token: string, id: nat, now: Timestamp) {
    && r.id == id && r.createdAt == now && !r.deleted
    && r.originUrl == input.originUrl && r.shortForm == token
    && r.shortUrl == ComposeShortUrl(host, port, token)
  }

  /** Rows keyed after the existing ones keep the store invariant. */
  lemma AppendKeepsConsistent(urls: seq<ShortUrl>, requests: seq<Request>, rows: seq<ShortUrl>)
    requires Consistent(urls, requests)
    requires forall k :: 0 <= k < |rows| ==> rows[k].id == |urls| + k + 1 && |rows[k].shortForm| <= SHORT_FORM_MAX_LENGTH
    ensures Consistent(urls + rows, requests)
  {
    var all := urls + rows;
    forall i | 0 <= i < |all|
      ensures all[i].id == i + 1 && |all[i].shortForm| <= SHORT_FORM_MAX_LENGTH
    {
      if i >= |urls| {
        assert all[i] == rows[i - |urls|];
      }
    }
  }

  /** The rows `create_multi` stores are the created rows of its inputs, keyed in order. */
  lemma CreatedRowsKeepConsistent(
    urls: seq<ShortUrl>, requests: seq<Request>,
    inputs: seq<ShortUrlCreate>, host: string, port: nat, tokens: seq<string>, stamps: seq<Timestamp>,
    objects: seq<NewShortUrl>, rows: seq<ShortUrl>)
    requires Consistent(urls, requests)
    requires |tokens| == |inputs| && |stamps| == |inputs| && |objects| == |inputs| && |rows| == |inputs|
    requires forall k :: 0 <= k < |tokens| ==> ValidToken(tokens[k])
    requires forall k :: 0 <= k < |objects| ==> objects[k] == CreateObj(inputs[k], host, port, tokens[k])
    requires forall k :: 0 <= k < |rows| ==> rows[k] == Insert(objects[k], |urls| + k + 1, stamps[k])
    ensures Consistent(urls + rows, requests)
    ensures forall k :: 0 <= k < |rows| ==> IsCreatedRow(rows[k], inputs[k], host, port, tokens[k], |urls| + k + 1, stamps[k])
  {
    forall k | 0 <= k < |rows|
      ensures IsCreatedRow(rows[k], inputs[k], host, port, tokens[k], |urls| + k + 1, stamps[k])
      ensures rows[k].id == |urls| + k + 1 && |rows[k].shortForm| <= SHORT_FORM_MAX_LENGTH
    {
      var obj := CreateObj(inputs[k], host, port, tokens[k]);
      assert objects[k] == obj;
    }
    AppendKeepsConsistent(urls, requests, rows);
  }

  class ShortUrlStore {
    /** Table `short_urls`, in insertion order. */
    var urls: seq<ShortUrl>
    /** Table `requests`, in insertion order. */
    var requests: seq<Request>

    predicate Valid()
      reads this
    {
      Consistent(urls, requests)
    }

    constructor ()
      ensures Valid() && urls == [] && requests == []
    {
      urls := [];
      requests := [];
    }

    /**
     * `create`: builds the record from the input, the advertised host and
     * port and a fresh token, and stores exactly that one row.
     */
    method Create(input: ShortUrlCreate, host: string, port: nat, token: string, now: Timestamp) returns (r: ShortUrl)
      requires Valid() && ValidToken(token)
      modifies this
      ensures Valid()
      ensures urls == old(urls) + [r] && requests == old(requests)
      ensures IsCreatedRow(r, input, host, port, token, |old(urls)| + 1, now)
      ensures ShortFormOf(r.shortUrl) == r.shortForm
    {
      var obj := CreateObj(input, host, port, token);
      ShortUrlRoundTrip(host, port, token);
      r := Insert(obj, |urls| + 1, now);
      urls := urls + [r];
    }

    /**
     * `create_multi`: one record per input, built in input order, each with
     * its own token, then all stored in one commit in that order.
     */
    method CreateMulti(inputs: seq<ShortUrlCreate>, host: string, port: nat, tokens: seq<string>, stamps: seq<Timestamp>)
      returns (rs: seq<ShortUrl>)
      requires Valid()
      requires |tokens| == |inputs| && |stamps| == |inputs|
      requires forall k :: 0 <= k < |tokens| ==> ValidToken(tokens[k])
      modifies this
      ensures Valid()
      ensures urls == old(urls) + rs && requests == old(requests)
      ensures |rs| == |inputs|
      ensures forall k :: 0 <= k < |rs| ==>
        IsCreatedRow(rs[k], inputs[k], host, port, tokens[k], |old(urls)| + k + 1, stamps[k])
    {
      var objects: seq<NewShortUrl> := [];
      for i := 0 to |inputs|
        invariant |objects| == i
        invariant forall k :: 0 <= k < i ==> objects[k] == CreateObj(inputs[k], host, port, tokens[k])
      {
        objects := objects + [CreateObj(inputs[i], host, port, tokens[i])];
      }
      // `add_all` and the commit: the database keys the rows in list order.
      var base := |urls|;
      rs := seq(|objects|, k requires 0 <= k < |objects| => Insert(objects[k], base + k + 1, stamps[k]));
      CreatedRowsKeepConsistent(urls, requests, inputs, host, port, tokens, stamps, objects, rs);
      urls := urls + rs;
    }

    /**
     * `add_request`: stores one Request linked to `url` with the caller's
     * address, and returns `url` itself; no ShortUrl changes.
     */
    method AddRequest(url: ShortUrl, clientHost: string, clientPort: int, now: Timestamp) returns (r: ShortUrl)
      requires Valid() && url in urls
      modifies this
      ensures Valid()
      ensures urls == old(urls) && r == url
      ensures requests == old(requests) + [Request(|old(requests)| + 1, url.id, now, clientHost, clientPort)]
    {
      requests := requests + [NewRequest(|requests| + 1, url, now, clientHost, clientPort)];
      r := url;
    }

    /**
     * `delete`: sets `deleted` on the row `get` finds and changes nothing
     * else. The source dereferences the lookup unguarded, so the row must exist.
     */
    method Delete(shortForm: string) returns (r: ShortUrl)
      requires Valid() && Get(urls, shortForm).Found?
      modifies this
      ensures Valid()
      ensures var u := Get(old(urls), shortForm).url;
        && r == u.(deleted := true)
        && urls == SoftDelete(old(urls), u.id - 1)
        && Get(urls, shortForm) == Found(r)
      ensures requests == old(requests)
    {
      var dbObj := Get(urls, shortForm).url;
      FoundAtId(urls, requests, shortForm);
      LookupAfterSoftDelete(urls, requests, shortForm);
      SoftDeleteKeepsRows(urls, requests, dbObj.id - 1);
      urls := SoftDelete(urls, dbObj.id - 1);
      r := dbObj.(deleted := true);
    }
  }
}
