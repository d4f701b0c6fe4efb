/**
 Construction of the error payloads from a status, a code and the catalog:
 the plain payload that the JSON path sends, the page data that the HTML path
 renders, and the payload with field errors.
 */
module Payloads {
  import opened ErrorTypes
  import opened Catalog

  /** The payload `SendError` sends. `status` and `code` are copied from the
      inputs even when the code is absent from the catalog; the title is the
      catalog's title and the detail the catalog's description, both empty
      for an absent code. */
  function NewWebError(errorsMap: map<string, ErrorDescription>, status: int, code: string): (e: WebError)
    ensures e.status == status && e.code == code
    ensures e.errorType == WebErrorType
    ensures code in errorsMap ==> e.title == errorsMap[code].title && e.detail == errorsMap[code].description
    ensures code !in errorsMap ==> e.title == "" && e.detail == ""
  {
    var errorDescription := Lookup(errorsMap, code);
    WebError(status, code, errorDescription.title, errorDescription.description, WebErrorType)
  }

  /** The data `RenderError` hands to the template: the same status, code,
      title and detail as `NewWebError`, under the general error type tag. */
  function NewErrorPageData(errorsMap: map<string, ErrorDescription>, status: int, code: string): (p: ErrorPageData)
    ensures p.error.errorType == GeneralErrorType
    ensures p.error.status == status && p.error.code == code
    ensures p.error == NewWebError(errorsMap, status, code).(errorType := GeneralErrorType)
  {
    var errorDescription := Lookup(errorsMap, code);
    ErrorPageData(WebError(status, code, errorDescription.title, errorDescription.description, GeneralErrorType))
  }

  /** The payload `sendFieldErrors` sends. Unlike `NewWebError`, its title is
      the catalog's description, so title and detail are always equal; the
      field errors are carried over unchanged, in order. */
  function NewWebFieldsError(
    errorsMap: map<string, ErrorDescription>,
    status: int,
    errorCode: string,
    fieldErrors: seq<FieldError>): (e: WebFieldsError)
    ensures e.status == status && e.code == errorCode
    ensures e.errorType == WebErrorType
    ensures e.errors == fieldErrors
    ensures e.title == e.detail
    ensures e.detail == NewWebError(errorsMap, status, errorCode).detail
  {
    var errorDescription := Lookup(errorsMap, errorCode);
    WebFieldsError(WebErrorType, status, errorCode, errorDescription.description,
                   errorDescription.description, fieldErrors)
  }

  /** With a catalog loaded from `ds`, the plain payload's title and detail
      come from the last record of `ds` with the code, and are empty when no
      record has it. */
  lemma {:induction false} WebErrorFromLoadedCatalog(ds: seq<ErrorDescription>, status: int, code: string)
    ensures var e := NewWebError(CatalogOf(ds), status, code);
            match LastWithCode(ds, code)
            case Some(i) => e.title == ds[i].title && e.detail == ds[i].description
            case None => e.title == "" && e.detail == ""
  {
    LookupAfterLoad(ds, code);
  }

  /** With a catalog loaded from `ds`, the field-error payload's title and
      detail are both the description of the last record of `ds` with the
      code, and are empty when no record has it. */
  lemma {:induction false} FieldsErrorFromLoadedCatalog(ds: seq<ErrorDescription>, status: int, code: string, fieldErrors: seq<FieldError>)
    ensures var e := NewWebFieldsError(CatalogOf(ds), status, code, fieldErrors);
            match LastWithCode(ds, code)
            case Some(i) => e.title == ds[i].description && e.detail == ds[i].description
            case None => e.title == "" && e.detail == ""
  {
    LookupAfterLoad(ds, code);
  }
}
