/** The error a handler raises as an `HTTPException`. */
module Http {

  /** Status code and `detail` text of an `HTTPException`. */
  datatype HttpError = HttpError(status: int, detail: string)
}
