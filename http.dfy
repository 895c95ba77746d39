/** An `HTTPException(status_code, detail)` raised by a handler. */
module Http {

  datatype HttpError = HttpError(status: int, detail: string)
}
