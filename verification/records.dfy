/**
 * The two persisted record shapes of the URL shortener (src/models/urls_app.py):
 * a ShortUrl row in table `short_urls` and a Request row in table `requests`.
 * Column nullability is carried by the Dafny types (a `string` is never null);
 * the 6-character bound on `short_form` is part of the store invariant
 * (see Table.Consistent).
 */
module Records {

  /** `created_at` / `made_at` values; the clock is outside the model. */
  type Timestamp = int

  /** Width of the `short_form` column, `String(6)`. */
  const SHORT_FORM_MAX_LENGTH := 6

  /** One shortening mapping, as stored. `id` is the surrogate primary key. */
  datatype ShortUrl = ShortUrl(
    id: nat,
    originUrl: string,
    shortUrl: string,
    createdAt: Timestamp,
    shortForm: string,
    deleted: bool)

  /**
   * One redirect event. `urlId` is the foreign key to `short_urls.id`; the
   * ORM relationship `ShortUrl.requests` / backref `Request.url` is the set
   * of Requests whose `urlId` equals a ShortUrl's `id` (Table.RequestsOf).
   */
  datatype Request = Request(
    id: nat,
    urlId: nat,
    madeAt: Timestamp,
    clientHost: string,
    clientPort: int)

  /** The body of a create request: `{origin_url: string}`. */
  datatype ShortUrlCreate = ShortUrlCreate(originUrl: string)

  /**
   * A ShortUrl object built by the repository but not yet flushed: the
   * columns whose values the repository supplies itself.
   */
  datatype NewShortUrl = NewShortUrl(originUrl: string, shortUrl: string, shortForm: string)

  /**
   * The row the database stores for `n`: the key it assigns, the column
   * defaults `created_at = now` and `deleted = False`.
   */
  function Insert(n: NewShortUrl, id: nat, now: Timestamp): ShortUrl {
    ShortUrl(id, n.originUrl, n.shortUrl, now, n.shortForm, false)
  }

  /**
   * The Request row stored for `Request(url=url, client_host=..., client_port=...)`:
   * the foreign key comes from the linked ShortUrl, `made_at` defaults to `now`.
   */
  function NewRequest(id: nat, url: ShortUrl, now: Timestamp, clientHost: string, clientPort: int): Request {
    Request(id, url.id, now, clientHost, clientPort)
  }
}
