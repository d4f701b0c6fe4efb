# go-errors: error catalog and error responses, in Dafny

This project models the `errors` package of a Go web service. At startup the
package loads a catalog mapping each application error code to a title and a
description. It then answers HTTP requests with structured error payloads.
Three send paths exist:

- a plain JSON error (`SendError`);
- a JSON error carrying per-field validation errors (`sendFieldErrors`);
- an HTML error page (`RenderError`), which falls back to the plain JSON error
  when the template fails.

Modules, following the package's parts:

- `ErrorTypes` (types.dfy): the records `FieldError`, `WebError`,
  `WebFieldsError`, `ErrorDescription` and `ErrorPageData`. It also holds
  `Payload`, a tagged sum of the two JSON payloads. It replaces the
  `interface{}` argument of the sending code. The type-tag literals and the
  zero-value description live here too.
- `Catalog` (catalog.dfy): the class `ErrorCatalog`, whose field `errorsMap`
  stands for the package-level map. `LoadErrorDescriptions` rebuilds that map
  in a loop from an already parsed sequence of records. `CatalogOf` is the
  map that loop produces. `Lookup` is Go map indexing, which yields the zero
  value for an absent code. Lemmas relate a loaded catalog to its input: the
  key set is exactly the input codes, and the last record with a code wins.
- `Payloads` (payloads.dfy): the struct literals built by `SendError`,
  `RenderError` and `sendFieldErrors`, written as functions of the catalog map,
  the status and the code.
- `Responses` (responses.dfy): the HTTP response writer as a class that
  records its writes. A write is a status line, a body, or a rendered page.
  The send methods append to that record.

Where the title comes from depends on the send path:

- `SendError` and `RenderError` take `Title` from the catalog's `Title`
  (errors.go:54, 68) and `Detail` from its `Description` (errors.go:56, 69).
- `sendFieldErrors` takes both `Title` and `Detail` from the catalog's
  `Description` (errors.go:124, 126), so its title and detail are always
  equal.

`NotFoundScenario` in responses.dfy shows the plain path.

Only the JSON paths write a status. When the HTML page renders successfully,
`RenderError` makes no `WriteHeader` call of its own (errors.go:74-76), so the
status on the wire is whatever the template engine sets. The payload's
`status` is then not necessarily the response status. The contract of
`RenderError` states that no status event is written on that path.

## Model

| member | source | states |
|---|---|---|
| `Catalog.CatalogOf` | errors.go:89-95 | the map built by inserting the records in order into an empty map has exactly the input codes as keys |
| `Catalog.Lookup` | errors.go:49 | lookup never fails: a present code yields the stored description, an absent one the zero value with empty title and description |
| `Catalog.LookupAfterLoad` | errors.go:89-95 | after loading, looking up a code yields the last input record with that code, or the zero value when no record has it |
| `Catalog.LastRecordWins` | errors.go:92-93 | a record that no later record shares its code with is the one the catalog holds, so a later duplicate overwrites an earlier one |
| `Catalog.EntryIsLastRecord` | errors.go:92-93 | every catalog entry is an input record, namely the last one with that code |
| `Catalog.ErrorCatalog.constructor` | errors.go:45 | before loading the catalog is empty, like the nil map, so every lookup yields the zero value |
| `Catalog.ErrorCatalog.LoadErrorDescriptions` | errors.go:89-95 | the new catalog depends only on the input: it is the in-order insertion map, whose keys are the input codes; nothing of the old catalog survives, and loading the same records twice gives the same catalog |
| `Payloads.NewWebError` | errors.go:47-57 | status and code are copied even for an absent code; title is the catalog title and detail the catalog description, both empty when absent; type is "fb.entities.WebError" |
| `Payloads.NewErrorPageData` | errors.go:62-72 | the page error has the same status, code, title and detail as the plain payload, with type "github.com/cinqfive/go-errors/GeneralError" |
| `Payloads.NewWebFieldsError` | errors.go:111-128 | status and code are copied; the field errors are carried over unchanged in order and length; title equals detail, and both are the catalog description; type is "fb.entities.WebError" |
| `Payloads.WebErrorFromLoadedCatalog` | errors.go:49-56 | with a catalog loaded from a sequence, the plain payload's title and detail come from the last record with the code, or are empty |
| `Payloads.FieldsErrorFromLoadedCatalog` | errors.go:118-127 | with a catalog loaded from a sequence, the field-error payload's title and detail are both the last matching record's description, or are empty |
| `Responses.Marshal` | errors.go:84 | the body is the payload's JSON when serialisation succeeds and empty when it fails, because the error is discarded |
| `Responses.ResponseWriter.WriteHeader` | errors.go:85 | writing the header appends exactly one status event |
| `Responses.ResponseWriter.Write` | errors.go:86 | writing the body appends exactly one body event |
| `Responses.SendResponse` | errors.go:83-87 | the given status is written first, then the serialised body, whatever the serialisation outcome; nothing else is written |
| `Responses.SendPreparedError` | errors.go:79-81 | the status written is the payload's own `Status`, and it comes before the body, even when the body is empty |
| `Responses.SendPreparedFieldsError` | errors.go:133-135 | the status written is the field-error payload's own `Status`, and it comes before the body, even when the body is empty |
| `Responses.SendError` | errors.go:47-60 | writes exactly the status and then the plain payload for the code; the written status equals the payload's status |
| `Responses.SendFieldErrors` | errors.go:111-131 | writes exactly the status and then the field-error payload; the written status equals the payload's status |
| `Responses.RenderTemplate` | errors.go:74 | the template call reports the given outcome; on success the page for the data is the only write, on failure nothing is recorded |
| `Responses.RenderError` | errors.go:62-77 | when rendering fails, exactly the writes of `SendError` with the same status and code follow; when it succeeds, the only write is the "error" page, with no status and no JSON written |

## Left out

- `readErrorFile` (errors.go:97-109): opening, reading and parsing `errors.json`, and the process exit when the file cannot be opened, are I/O. The model takes the parsed sequence of records as its input. A JSON syntax error yields an empty sequence. A type mismatch yields records with zero-valued fields, for example an empty `Code`. Both are just other inputs.
- Byte-level JSON encoding by `json.Marshal`: the body is the abstract payload value. Whether serialisation succeeds is a boolean parameter.
- `utils.RenderTemplate` is an external library. Only its success or failure is modelled. Any partial HTML it writes before failing is not recorded.
- `http.ResponseWriter` internals: headers other than the status, and any buffering. Only the sequence of status, body and page writes is kept.
- The dynamic type assertion `webError.(WebError)` (errors.go:80): it panics when given anything other than a `WebError`. The parameter type of `SendPreparedError` rules that input out.
- The catalog is a package-level variable shared by concurrent HTTP handlers. The model passes it explicitly as an object, and concurrency is not modelled.
