# URL shortener core, modelled in Dafny

This project models the core of a small asynchronous URL-shortening service.
A client posts an origin URL. The service stores a `short_urls` row with a
six-character alphanumeric short form and a short link
`http://<host>:<port>/api/v1/short_url/<short form>`. Following the short
link redirects to the origin URL (307) and logs a `requests` row. The
status endpoint either counts those rows or lists a page of them. Deleting
a short URL only marks it `deleted`, and later lookups answer 410. An ASGI
middleware rejects requests whose `Host` header matches a configured
black-list pattern.

Modules, one per concern of the service:

- `Records`: the two table rows (`ShortUrl`, `Request`), the creation
  payload, and the column defaults applied on insert.
- `Alias`: how `create_obj` builds a short link from the configured host and
  port and a token, and how the short form is recovered from that link.
- `Table`: the repository's queries as functions over the two tables:
  - lookup by short form, with SQLAlchemy's `scalar_one_or_none` outcomes;
  - the status query, as a count or an offset/limit page;
  - the soft delete.
- `Repository`: `ShortUrlStore`, a class whose `urls` and `requests`
  sequences play the two tables. Its methods are `create`, `create_multi`,
  `add_request` and `delete`.
- `Tools`: `check_short_url`, which maps a lookup to its HTTP error. Nothing in
  the service calls it. The redirect and status handlers repeat its two checks
  inline.
- `Http`: status codes and the `HTTPException` values the handlers raise.
- `ShortUrlApi`: the five handlers of the `/api/v1/short_url` router. It also
  has two end-to-end scenarios that mirror the service's own tests.
- `BlackList`: the black-list middleware. This covers pattern validation at
  construction and host matching on every call.
- `Wrappers`, `Strings`: `Option`/`Result` and prefix/suffix predicates.

Table ids are autoincrement values. The model sets them to a row's position
plus one, and `Table.Consistent` is the invariant that keeps this true.
The random token from `shortuuid` and the clock are parameters.

## Model

| member | source | states |
|---|---|---|
| Table.Get | src/services/base.py:58-69 | Lookup by short form has three outcomes. It gives `NoMatch` exactly when no row has that short form. It gives `MultipleFound` exactly when two rows share it. `Found(u)` means `u` is the unique row with that short form. |
| Table.FoundAtId | src/services/base.py:58-69 | In a consistent table, the row that a lookup finds is stored at position `id - 1`. |
| Table.RequestsOf | src/services/base.py:79-86 | The requests selected for a URL are exactly the logged requests whose `url_id` is that URL. There are never more of them than requests in total. |
| Table.RequestsOfCounts | src/services/base.py:79-87 | Each request whose `url_id` is the URL appears in the selection exactly as many times as it was logged, and no other request appears. So `requests_number` is the number of matching rows. |
| Table.RequestsOfInIdOrder | src/services/base.py:88-94 | In a consistent store, the selection's request ids strictly increase, so a page follows table order. |
| Table.RequestsOfAll | src/services/base.py:79-86 | When every logged request belongs to the URL, the selection is the whole requests table, in order. |
| Table.RequestsOfAppend | src/services/base.py:150-155 | Logging one request adds it to the selection of its own URL only. The other selections do not change. |
| Table.GetStatus | src/services/base.py:71-94 | A falsy `full_info` gives a count, and the count is the number of requests for the URL. Otherwise the result is the page of those requests: `min(limit, max(0, total - offset))` items, where item `k` is request `offset + k`, and every item belongs to the URL. |
| Table.SoftDelete | src/services/base.py:166-167 | Only the chosen row changes, and it only gains `deleted = true`. Every other row and the length are unchanged. |
| Table.SoftDeleteIdempotent | src/services/base.py:160-170 | Deleting the same row twice gives the same table as deleting it once. |
| Table.SoftDeleteKeepsRows | src/services/base.py:160-170 | A soft delete keeps the tables consistent. Each row keeps its id, short form, short link and origin. |
| Table.LookupAfterSoftDelete | src/services/base.py:160-170 | After the delete, the same short form finds the same row, now marked deleted. |
| Table.LookupAfterAppendFresh | src/services/base.py:113-124 | Appending a row whose short form is not yet in the table makes a lookup of that short form find exactly that row. |
| Table.LookupAfterAppendOther | src/services/base.py:113-124 | Appending a row does not change the lookup of any other short form. |
| Alias.DecimalString | src/services/base.py:105 | `str(port)` is a non-empty string of digits. It has no leading zero unless the port is 0. |
| Alias.DecimalRoundTrip | src/services/base.py:105 | Reading the decimal rendering of a port back gives the same port. |
| Alias.ComposeShortUrl | src/services/base.py:100-108 | A short link starts with `http://` and ends with `/api/v1/short_url/` followed by the token. |
| Alias.ShortFormOf | src/services/base.py:100-108 | The text after the last `/` of a link is a suffix of the link and contains no `/`. Whenever it is shorter than the link, a `/` stands right before it. |
| Alias.ShortFormOfAfterSlash | src/services/base.py:100-108 | When text that ends in `/` is followed by a segment without `/`, the last segment is recovered exactly. |
| Alias.ShortUrlRoundTrip | src/services/base.py:96-111 | For any host, port and valid six-character token, the short form recovered from the composed link is the token. |
| Alias.CreateObj | src/services/base.py:96-111 | `create_obj` keeps the posted origin URL. It sets `short_form` to the token and `short_url` to the composed link for the configured host and port. |
| Repository.AppendKeepsConsistent | src/models/urls_app.py:19-27 | Appending rows with the next autoincrement ids and short forms of at most 6 characters keeps the tables consistent. |
| Repository.CreatedRowsKeepConsistent | src/services/base.py:126-141 | The rows that `create_multi` builds keep the tables consistent. Row `k` gets id `n + k + 1`, its own input's origin, its own token and link, and `deleted = false`. |
| Repository.ShortUrlStore.constructor | src/models/urls_app.py:10-27 | A new store has empty `short_urls` and `requests` tables, which are consistent. |
| Repository.ShortUrlStore.Create | src/services/base.py:113-124 | `create` appends exactly one row and leaves `requests` unchanged. The row gets the next id, the posted origin, the token as short form, the composed link, the insert time and `deleted = false`. The short form can be recovered from its link. |
| Repository.ShortUrlStore.CreateMulti | src/services/base.py:126-141 | `create_multi` appends one row per input, in input order. Row `k` is the `create_obj` of input `k` with token `k`, under id `n + k + 1`. The tables stay consistent. |
| Repository.ShortUrlStore.AddRequest | src/services/base.py:143-158 | `add_request` appends one request with the next id, pointing at the URL's id and carrying the client host, port and time. It returns the URL unchanged and leaves `short_urls` unchanged. |
| Repository.ShortUrlStore.Delete | src/services/base.py:160-170 | `delete` marks the looked-up row deleted in place and returns it. The table is the soft delete of that row, and the short form still finds it. `requests` is unchanged. |
| Tools.CheckShortUrl | src/api/v1/tools.py:12-23 | A missing URL gives 404 `Item not found`, and only a missing URL does. A deleted URL gives 410 `Item is deleted`, and only a deleted URL does. An existing live URL passes. |
| ShortUrlApi.GetOriginUrl | src/api/v1/short_url.py:16-36 | On a missing or deleted URL the handler raises the same 404/410 errors that `check_short_url` would, and logs nothing. On a duplicate short form it answers 500. On a live URL it answers a 307 redirect to the origin and logs exactly one request for that URL. `short_urls` never changes. |
| ShortUrlApi.CreateShortUrl | src/api/v1/short_url.py:39-51 | The handler answers 201 with the composed short link, whose short form is the token. It appends exactly one created row and keeps the earlier rows. |
| ShortUrlApi.CreateMultiShortUrls | src/api/v1/short_url.py:54-68 | The handler answers 201 with one `{short_form, short_url}` per input, in order. Each entry's row is appended as `create_multi` builds it. |
| ShortUrlApi.DeleteShortUrl | src/api/v1/short_url.py:71-80 | A missing URL gives 404 `URL not found` with nothing changed. A duplicate gives 500. Otherwise the handler answers 200 with the row marked deleted. The table is then its soft delete, and the short form finds the deleted row. |
| ShortUrlApi.GetShortUrlStatus | src/api/v1/short_url.py:83-110 | A missing URL gives 404 `URL not found`, a duplicate 500, and a deleted URL 410. It answers 200 exactly for a live URL. A falsy `full-info` gives `requests_number`, which is the count of that URL's requests. |
| ShortUrlApi.StatusListIsPage | src/api/v1/short_url.py:83-110 | With `full-info` true, the list has `min(max-size, max(0, total - offset))` entries. Entry `k` describes request `offset + k` of the URL, with defaults `max-size = 10` and `offset = 0`. |
| ShortUrlApi.StatusDefaultsToCount | src/api/v1/short_url.py:83-110 | With no query parameters, the status of a live URL is 200 with its request count. |
| ShortUrlApi.StatusAfterTwoRequests | src/api/v1/short_url.py:83-110 | For a live URL with exactly two logged requests, whatever requests other URLs have, the default status is 200 with `requests_number = 2`. With `full-info` it is 200 with both requests as `{made_at, client_host, client_port}`, in logging order. |
| ShortUrlApi.RedirectTwiceFlow | test_api.py:74-95 | On a fresh store, creating `http://ya.ru` answers 201 with the composed link. Following it twice redirects twice to `http://ya.ru`, and the status is then `requests_number = 2`. With `full-info` the status lists exactly the two logged requests, each with its time, client host and client port. |
| ShortUrlApi.DeleteThenRedirectFlow | test_api.py:59-71 | On a fresh store, deleting through a newly created link answers with a row marked deleted that keeps the same `short_url`. Following the link afterwards answers 410. |
| BlackList.ValidPatternShape | src/middlewares/black_list.py:19-22 | A pattern is accepted exactly when it is `*`, or a `*.` wildcard with no further `*`, or a pattern without any `*`. |
| BlackList.CheckPatterns | src/middlewares/black_list.py:16-22 | The constructor's checks pass exactly when every pattern is valid. |
| BlackList.NewMiddleware | src/middlewares/black_list.py:11-25 | The default black list is `['*']`. Construction fails with the wildcard message exactly when some pattern is invalid. Otherwise the middleware holds the list, and `block_any` is set exactly when `*` is in it. |
| BlackList.BlackListHostMiddleware.constructor | src/middlewares/black_list.py:23-25 | The middleware keeps the patterns and sets `block_any` to whether `*` is among them. |
| BlackList.BeforeColon | src/middlewares/black_list.py:36 | The host part is the prefix of the header before the first `:`. It contains no `:`, and a `:` follows it whenever it is shorter than the header. |
| BlackList.BeforeColonStops | src/middlewares/black_list.py:36 | For a host without `:`, the host part of `host:rest` is `host`. |
| BlackList.HostOfIgnoresPort | src/middlewares/black_list.py:36 | A header with a port and the same header without it give the same host. |
| BlackList.BlackListHostMiddleware.Call | src/middlewares/black_list.py:27-49 | Non-`http`/`websocket` scopes always pass. Inspected scopes are rejected exactly when the host equals a pattern or ends with what follows a leading `*`. A rejection is always 400 `Host in black list`. |
| BlackList.StarBlocksEveryHost | src/middlewares/black_list.py:38-43 | A list containing `*` blocks every host, including the empty one. |
| BlackList.DefaultBlocksEveryHost | src/middlewares/black_list.py:16-17 | Without a configured list, every host is blocked. |
| BlackList.BlockAnyBlocksEveryHost | src/middlewares/black_list.py:25 | Whenever `block_any` is set, every host is blocked. |
| BlackList.WildcardBlocksSubdomainsOnly | src/middlewares/black_list.py:37-43 | `*.example.com` is valid exactly when `example.com` has no `*`. It matches every `sub.example.com`, but does not match `example.com` itself. |

## Left out

- Database sessions, commits, refreshes and transactions are not modelled. The two tables are sequences in one store, and each operation is atomic.
- `shortuuid`'s random token is not modelled. It becomes a parameter that must have 6 alphanumeric characters. Tokens may repeat, and the duplicate case is handled as below.
- `scalar_one_or_none` raising `MultipleResultsFound` is modelled as the `MultipleFound` lookup outcome. Handlers answer it with `InternalError`, the framework's 500.
- The `datetime.utcnow` defaults are not modelled. Insert and request times are `Timestamp` (integer) parameters.
- ASGI plumbing, `Headers` parsing, `JSONResponse` and `RedirectResponse` rendering are not modelled, and neither is calling the wrapped app. A middleware call yields `Forward` or `Reject(400, error)`. Only the scope type and the optional `host` header are inputs.
- `check_short_url`'s `url_id` parameter and all logging are left out. The parameter is only used in log lines.
- Settings loading is left out. The project host and port are parameters, and the model assumes both are configured. `create_obj` reads them as `app_settings.project_host` and `app_settings.project_port` (src/services/base.py:103,105). Yet `AppSettings` (src/core/config.py:17-22) declares neither field; they exist only as the module constants `PROJECT_HOST` and `PROJECT_PORT` (src/core/config.py:11-12). As written, that attribute read would fail.
- `Records.Insert` and `Records.NewRequest` have no contract of their own. They only fill column defaults; `ShortUrlStore.Create` and `ShortUrlStore.AddRequest` state their effect.
- Table ids are autoincrement values. They are modelled as position plus one in a table that never loses rows, because soft delete keeps the row.
- The status page is in insertion order. The SQL query has no `ORDER BY`, so any other order the database might return is not modelled.
- ShortUrlApi.GetShortUrlStatus: `max-size` and `offset` are non-negative (`nat`) in the model. The code passes any integer to SQL `LIMIT`/`OFFSET`, and negative values are not modelled.
- Repository.ShortUrlStore.Delete: requires that the short form is found exactly once. The code raises `AttributeError` on a missing row and `MultipleResultsFound` on a duplicate. Its only caller, the delete handler, checks first and answers 404 or 500.
- Repository.ShortUrlStore.AddRequest: requires the URL to be a stored row, because the handler passes in the row it just looked up.
- `create_multi` builds every row before the single `add_all` commit. The model appends them all at once after building them.
- The 404 detail differs by handler, as in the code. It is `Item not found` for the redirect and `URL not found` for delete and status.
- The handlers validate nothing and let store errors propagate. The only outcomes are the ones listed above, so there is no invalid-argument or storage-failure outcome.
- BlackList.NewMiddleware: the wildcard checks in the constructor are Python `assert` statements. The model assumes assertions are enabled. Under `python -O` they are skipped and construction never fails, which the model does not capture.
