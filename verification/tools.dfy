/**
 * `check_short_url` (src/api/v1/tools.py): the shared 404/410 guard over a
 * lookup result. Its log messages are not modelled.
 */
module Tools {
  import opened Wrappers
  import opened Records
  import opened Http

  /**
   * Absent record: 404 "Item not found"; deleted record: 410 "Item is
   * deleted"; otherwise it returns normally (`None`). Absence is tested
   * first, so an absent record is never reported as deleted.
   */
  function CheckShortUrl(shortUrl: Option<ShortUrl>): (r: Option<HttpException>)
    ensures r == Some(ITEM_NOT_FOUND) <==> shortUrl.None?
    ensures r == Some(ITEM_DELETED) <==> shortUrl.Some? && shortUrl.value.deleted
    ensures r.None? <==> shortUrl.Some? && !shortUrl.value.deleted
  {
    if shortUrl.None? then Some(ITEM_NOT_FOUND)
    else if shortUrl.value.deleted then Some(ITEM_DELETED)
    else None
  }
}
