/**
 Sending error responses. The HTTP response writer is modelled by the trace
 of what is written to it: the status line, a body, or a page rendered by the
 HTML template engine. The outcome of JSON serialisation and of template
 rendering, both foreign code, are parameters.
 */
module Responses {
  import opened ErrorTypes
  import opened Catalog
  import opened Payloads

  /** The serialised body: the JSON of a payload, or nothing when
      serialisation failed (its error is discarded). */
  datatype Body = Json(payload: Payload) | EmptyBody

  /** One write to the response. */
  datatype WriteEvent =
    | Header(statusCode: int)
    | BodyWrite(body: Body)
    | Page(template: string, data: ErrorPageData)

  /** `json.Marshal(data)` with its outcome given as `ok`. */
  function Marshal(data: Payload, ok: bool): (b: Body)
    ensures b.Json? <==> ok
    ensures b.Json? ==> b.payload == data
  {
    if ok then Json(data) else EmptyBody
  }

  /** The two writes of `sendResponse`: the status line, then the body. */
  function JsonWrites(data: Payload, statusCode: int, marshalOk: bool): seq<WriteEvent> {
    [Header(statusCode), BodyWrite(Marshal(data, marshalOk))]
  }

  /** The trace is one status line followed by one body, and the status
      written is the one inside the payload, even when the body is empty. */
  predicate StatusConsistent(events: seq<WriteEvent>, data: Payload) {
    && |events| == 2
    && events[0] == Header(data.Status())
    && events[1].BodyWrite?
    && (events[1].body.Json? ==> events[1].body.payload == data)
  }

  /** The response writer, reduced to the sequence of writes made to it. */
  class ResponseWriter {
    var writes: seq<WriteEvent>

    constructor ()
      ensures writes == []
    {
      writes := [];
    }

    method WriteHeader(statusCode: int)
      modifies this
      ensures writes == old(writes) + [Header(statusCode)]
    {
      writes := writes + [Header(statusCode)];
    }

    method Write(body: Body)
      modifies this
      ensures writes == old(writes) + [BodyWrite(body)]
    {
      writes := writes + [BodyWrite(body)];
    }
  }

  /** Stands for the template engine: on success it renders the page for
      `data` into `w`, on failure it reports an error and the model records
      nothing. */
  method RenderTemplate(name: string, data: ErrorPageData, w: ResponseWriter, fails: bool) returns (failed: bool)
    modifies w
    ensures failed == fails
    ensures w.writes == if fails then old(w.writes) else old(w.writes) + [Page(name, data)]
  {
    if !fails {
      w.writes := w.writes + [Page(name, data)];
    }
    failed := fails;
  }

  /** Writes the given status, then the serialised payload, whatever the
      serialisation outcome. */
  method SendResponse(data: Payload, statusCode: int, w: ResponseWriter, marshalOk: bool)
    modifies w
    ensures w.writes == old(w.writes) + JsonWrites(data, statusCode, marshalOk)
  {
    var jsondata := Marshal(data, marshalOk);
    w.WriteHeader(statusCode);
    w.Write(jsondata);
  }

  /** Sends a plain payload with the status taken from the payload itself. */
  method SendPreparedError(webError: WebError, w: ResponseWriter, marshalOk: bool)
    modifies w
    ensures w.writes == old(w.writes) + JsonWrites(Plain(webError), webError.status, marshalOk)
    ensures StatusConsistent(w.writes[|old(w.writes)|..], Plain(webError))
  {
    SendResponse(Plain(webError), webError.status, w, marshalOk);
  }

  /** Sends a field-error payload with the status taken from the payload itself. */
  method SendPreparedFieldsError(webError: WebFieldsError, w: ResponseWriter, marshalOk: bool)
    modifies w
    ensures w.writes == old(w.writes) + JsonWrites(Fields(webError), webError.status, marshalOk)
    ensures StatusConsistent(w.writes[|old(w.writes)|..], Fields(webError))
  {
    SendResponse(Fields(webError), webError.status, w, marshalOk);
  }

  /** Sends the plain payload for `code`: status `status`, then its JSON. */
  method SendError(catalog: ErrorCatalog, status: int, code: string, w: ResponseWriter, marshalOk: bool)
    modifies w
    ensures w.writes == old(w.writes) + JsonWrites(Plain(NewWebError(catalog.errorsMap, status, code)), status, marshalOk)
    ensures StatusConsistent(w.writes[|old(w.writes)|..], Plain(NewWebError(catalog.errorsMap, status, code)))
  {
    var webError := NewWebError(catalog.errorsMap, status, code);
    SendPreparedError(webError, w, marshalOk);
  }

  /** Sends the field-error payload for `errorCode` with `fieldErrors`. */
  method SendFieldErrors(
    catalog: ErrorCatalog,
    status: int,
    errorCode: string,
    fieldErrors: seq<FieldError>,
    w: ResponseWriter,
    marshalOk: bool)
    modifies w
    ensures w.writes == old(w.writes) +
            JsonWrites(Fields(NewWebFieldsError(catalog.errorsMap, status, errorCode, fieldErrors)), status, marshalOk)
    ensures StatusConsistent(w.writes[|old(w.writes)|..],
                             Fields(NewWebFieldsError(catalog.errorsMap, status, errorCode, fieldErrors)))
  {
    var webError := NewWebFieldsError(catalog.errorsMap, status, errorCode, fieldErrors);
    SendPreparedFieldsError(webError, w, marshalOk);
  }

  /** Renders the HTML error page; only when rendering fails does it fall
      back to exactly the writes of `SendError` with the same status and
      code. When rendering succeeds neither a status nor JSON is written:
      the page goes out with whatever status the template engine sets. */
  method RenderError(
    catalog: ErrorCatalog,
    status: int,
    code: string,
    w: ResponseWriter,
    renderFails: bool,
    marshalOk: bool)
    modifies w
    ensures renderFails ==>
            w.writes == old(w.writes) + JsonWrites(Plain(NewWebError(catalog.errorsMap, status, code)), status, marshalOk)
    ensures !renderFails ==>
            w.writes == old(w.writes) + [Page(ErrorTemplate, NewErrorPageData(catalog.errorsMap, status, code))]
    ensures !renderFails ==>
            forall k :: |old(w.writes)| <= k < |w.writes| ==> !w.writes[k].Header? && !w.writes[k].BodyWrite?
  {
    var data := NewErrorPageData(catalog.errorsMap, status, code);
    var err := RenderTemplate(ErrorTemplate, data, w, renderFails);
    if err {
      SendError(catalog, status, code, w, marshalOk);
    }
  }

  /** A reloaded catalog holding one record, then a plain error for its code,
      one for a code it lacks, and the page path falling back to JSON. */
  method NotFoundScenario()
  {
    var catalog := new ErrorCatalog();
    var nf := ErrorDescription("NOT_FOUND", "Not Found", "The resource was not found");
    catalog.LoadErrorDescriptions([ErrorDescription("GONE", "Gone", "")]);
    catalog.LoadErrorDescriptions([nf]);
    assert catalog.errorsMap == map["NOT_FOUND" := nf];
    var w := new ResponseWriter();
    SendError(catalog, 404, "NOT_FOUND", w, true);
    assert w.writes == [Header(404), BodyWrite(Json(Plain(
      WebError(404, "NOT_FOUND", "Not Found", "The resource was not found", WebErrorType))))];
    var unknown := NewWebError(catalog.errorsMap, 500, "UNKNOWN_CODE");
    assert unknown == WebError(500, "UNKNOWN_CODE", "", "", WebErrorType);
    var v := new ResponseWriter();
    RenderError(catalog, 404, "NOT_FOUND", v, true, true);
    assert v.writes == w.writes;
  }
}
