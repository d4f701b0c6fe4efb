/**
 The value types of the error payload package: the catalog record, the two
 wire payloads, the page data handed to the template renderer, and the tagged
 payload that the sending code serialises.
 */
module ErrorTypes {

  /** One validation failure on one input field. */
  datatype FieldError = FieldError(field: string, error: string)

  /** The plain error payload. `errorType` is the Go field `Type`. */
  datatype WebError = WebError(status: int, code: string, title: string, detail: string, errorType: string)

  /** The plain payload extended with the ordered field errors. */
  datatype WebFieldsError = WebFieldsError(
    errorType: string,
    status: int,
    code: string,
    title: string,
    detail: string,
    errors: seq<FieldError>)

  /** One record of the error catalog, identified by its code. */
  datatype ErrorDescription = ErrorDescription(code: string, title: string, description: string)

  /** The data given to the "error" HTML template. */
  datatype ErrorPageData = ErrorPageData(error: WebError)

  /** What the sending code serialises: the Go `interface{}` argument, which
      only ever holds one of the two payload structs. */
  datatype Payload = Plain(webError: WebError) | Fields(fieldsError: WebFieldsError)
  {
    /** The `Status` field of whichever payload this is. */
    function Status(): int {
      match this
      case Plain(e) => e.status
      case Fields(e) => e.status
    }
  }

  /** The Go zero value of ErrorDescription, which a map lookup of an absent
      code yields. */
  const ZeroDescription := ErrorDescription("", "", "")

  /** Type tag of every JSON error payload. */
  const WebErrorType := "fb.entities.WebError"

  /** Type tag of the error shown on the HTML error page. */
  const GeneralErrorType := "github.com/cinqfive/go-errors/GeneralError"

  /** Name of the HTML template used for error pages. */
  const ErrorTemplate := "error"
}
