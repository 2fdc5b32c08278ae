/**
 * Transport-level outcomes of the route handlers: an `HTTPException` with
 * its status code and detail, an uncaught server error, or a success status
 * with a response body.
 */
module Http {

  datatype HttpException = HttpException(status: nat, detail: string)

  const HTTP_200_OK := 200
  const HTTP_201_CREATED := 201
  const HTTP_307_TEMPORARY_REDIRECT := 307
  const HTTP_404_NOT_FOUND := 404
  const HTTP_410_GONE := 410

  const ITEM_NOT_FOUND := HttpException(HTTP_404_NOT_FOUND, "Item not found")
  const URL_NOT_FOUND := HttpException(HTTP_404_NOT_FOUND, "URL not found")
  const ITEM_DELETED := HttpException(HTTP_410_GONE, "Item is deleted")

  datatype Outcome<+T> =
    | Raised(exception: HttpException)   // an HTTPException raised by the handler
    | InternalError                      // an exception the handler does not catch (500)
    | Ok(status: nat, body: T)
}
