# Verified model of the `POST /upload` form handler

The repository is a small Express service. A browser posts a multipart form with
`name`, `email`, `message` and an optional file. The handler checks the content type.
It lets Busboy parse the body and keeps the three text fields and the file's bytes.
When Busboy finishes, it puts the file into an S3 bucket. It then inserts one row into
the `contacts` table, with the file's public URL or null, and answers 200 or 500.

This Dafny project models that handler (`index.js:35-90`) and proves what it promises.

- **Gate.** The handler reads the content type as `content-type || Content-Type`, using
  JavaScript truthiness. It rejects a missing value, an empty one, or one without
  `multipart/form-data` with 400 and `Unsupported content type: <value>`. The value
  renders as `undefined` when absent.
- **Parse state.** Busboy's output is an input sequence of `Event`s: `Field`, `FilePart`,
  `Data`, `FileEnd` and `Finish`. The class `Upload.ParseState` holds the handler's `let`
  variables and one `chunks` array per file part. It has one method per callback.
  `Upload.Parse` is the same fold written as a function over the events.
- **Coordinator.** `Upload.OnFinish` models the `finish` callback. It runs against two
  recording doubles. `Upload.Backends` stands for the S3 and MySQL clients: each call
  returns a given outcome and is appended to a log. `Upload.ResponseWriter` records
  every response. `Upload.Coordinate` is the same logic written as a function.
- **Driver.** `Upload.HandleUpload` runs the gate, then the callbacks up to `finish`
  (`Upload.RunCallbacks`), then the coordinator. It returns the responses and the call log. It is proved equal
  to `Upload.Handle`, a function whose contract states the promises about one request.

Inputs that the source reads from its environment become parameters:
- `clock: nat -> nat` gives the `Date.now()` reading taken while event `i` is handled;
- `bucket` is the `S3_BUCKET` value;
- two `CallResult`s are the outcomes of the storage put and of the insert.

Modules: `Values` (Option), `Text` (`includes`, decimal rendering of a timestamp),
`Buffers` (bytes and `Buffer.concat`), `Naming` (storage key, public URL), `Upload`
(the handler), `UploadProperties` (lemmas over whole event streams).

Facts about `index.js` the model keeps:
- The catch block forwards only `err.message` (`index.js:85`).
- Busboy emits `finish` once, so the driver stops at the first `Finish` event.
- Each `file` callback creates its own `chunks` array, and that part's `data` and `end`
  listeners are bound to it (`index.js:57-61`). So `Data` and `FileEnd` events carry the
  ordinal of their part, and the model keeps one array per part. A stream's `end` may
  come after a later part's `file` event, and each stream still fills its own array.
- With several file parts, the storage key and MIME type come from the last part's
  `file` event (`index.js:54-55`). The bytes come from the stream that ended last
  (`index.js:60`). For an event order in which part 0 has ended and part 1 has not
  ended at `finish`, the model puts part 0's bytes under part 1's key
  (`UploadProperties.KeyAndBytesFromDifferentParts`). Whether Busboy ever delivers
  that order is up to Busboy, which is not part of this model.
- Node lower-cases incoming header names, so `req.headers['Content-Type']`
  (`index.js:36`) is `undefined` under Express. The model keeps it as a second input,
  used only when the first is falsy.
- In `Row`, `None` means `undefined` in the `name`, `email` and `message` columns (a
  field that never arrived) and `null` in `imageUrl` (no file). The call log does not
  tell these apart, although the database driver does.

## Model

| member | source | states |
|---|---|---|
| Text.ContainsIff | index.js:38 | `includes` finds `multipart/form-data` exactly when it occurs at some position of the header value |
| Text.NatToString | index.js:54 | the number `Date.now() + "-"` renders is a non-empty run of decimal digits with no leading zero |
| Text.DigitsRoundTrip | index.js:54 | reading the decimal rendering back yields the timestamp |
| Buffers.Concat | index.js:60 | `Buffer.concat(chunks)` has length equal to the sum of the chunk lengths |
| Buffers.ConcatAt | index.js:57-60 | byte `j` of chunk `i` lands right after the bytes of chunks `0..i-1`: nothing is dropped, duplicated or reordered |
| Buffers.ConcatAppend | index.js:58-60 | one more `chunks.push(data)` appends exactly `data`'s bytes to the concatenation |
| Naming.StorageKey | index.js:54 | the key ends with the original file name |
| Naming.KeyRoundTrip | index.js:54 | a key parses into `(timestamp, filename)` if and only if it is `<timestamp>-<filename>` |
| Naming.KeyInjective | index.js:54 | two keys are equal only when they come from the same timestamp and the same file name |
| Naming.ObjectUrl | index.js:74 | the URL starts with `https://` and ends with the storage key |
| Naming.KeyOfUrl | index.js:74 | a URL that parses is `https://<bucket>.s3.amazonaws.com/<key>` for the key it yields |
| Naming.UrlRoundTrip | index.js:74 | the public URL of a key gives back that key, so distinct keys get distinct URLs |
| Upload.ContentTypeOf | index.js:36 | the result is one of the two header values; it is truthy exactly when one of them is, and the lower-case one wins whenever it is truthy |
| Upload.AcceptsContentType | index.js:38 | the gate passes exactly when the header value exists and contains `multipart/form-data` |
| Upload.RejectionFor | index.js:36-39 | the rejection is status 400 with body `{error: "Unsupported content type: " + value}`, and `"Unsupported content type: undefined"` when the header is missing |
| Upload.Step | index.js:47-61 | each callback keeps the parse-state invariant; a tracked field overwrites only its own value and leaves the buffer, key, MIME type and chunk arrays unchanged; an untracked field leaves the state unchanged; a file part sets the key `<Date.now()>-<filename>` and the MIME type and adds one empty array; a chunk extends only its own part's array; only a file part changes the key and the MIME type; the end of an announced stream sets the buffer to the concatenation of that part's own array and leaves key, MIME type and arrays unchanged; nothing else changes the buffer |
| Upload.Parse | index.js:44-62 | the state after any event sequence keeps the invariant: a buffer only after a file part, and key, MIME type and at least one chunk array exist together |
| Upload.FinishIndex | index.js:64 | locates the single `finish` event: none before it, and it is `finish` when present |
| Upload.Coordinate | index.js:64-87 | exactly one response; storage is called only with a buffer, and before the insert; a storage failure skips the insert; the insert gets `[name, email, message, imageUrl]` with the public URL or null; 200 with the success message exactly when every call made succeeded, otherwise 500 with `Submission failed.` and the failing call's message; no rollback call after a failed insert |
| Upload.Handle | index.js:35-90 | a rejected content type gives the 400 answer with no calls; otherwise one response exactly when `finish` arrives; storage before insert; 200 exactly when every call made succeeded |
| Upload.ParseState.constructor | index.js:44-45 | all handler variables start `undefined` and no file part is open |
| Upload.ParseState.OnField | index.js:47-51 | `name`, `email` and `message` take the field's value when the field has that name; nothing else changes |
| Upload.ParseState.OnFile | index.js:53-57 | the key becomes `<now>-<filename>`, the MIME type is overwritten, and the part's own empty chunk array is added; the fields and the buffer are unchanged |
| Upload.ParseState.OnData | index.js:58 | the chunk is appended to its own part's array and no other array changes |
| Upload.ParseState.OnEnd | index.js:59-61 | the buffer becomes the concatenation of the ending part's own chunks |
| Upload.Backends.Send | index.js:68-73 | a put of bucket, key, body and content type is logged and returns the storage outcome |
| Upload.Backends.Execute | index.js:77-80 | a parameterised insert is logged with its statement and values apart, and returns the insert outcome |
| Upload.ResponseWriter.Json | index.js:82-85 | each `res.json` appends exactly one response |
| Upload.Dispatch | index.js:47-61 | delivering one event to its callback changes the parse state exactly as `Step` says |
| Upload.RunCallbacks | index.js:47-62 | feeding the events in order stops at `finish` and leaves the state that `Parse` gives for the events before it |
| Upload.OnFinish | index.js:64-87 | the `finish` callback appends exactly the calls and the response that `Coordinate` describes |
| Upload.HandleUpload | index.js:35-90 | running the gate, the callbacks and `finish` against recording doubles produces exactly the responses and calls of `Handle` |
| UploadProperties.LastFieldWins | index.js:47-51 | the last `field` event with a tracked name decides that field's value |
| UploadProperties.MissingFieldUndefined | index.js:44-51 | a tracked field that never arrives stays `undefined` |
| UploadProperties.OneArrayPerPart | index.js:53-57 | there is exactly one chunk array per file part announced |
| UploadProperties.PartChunks | index.js:57-58 | each part's array holds exactly the `data` payloads of its own stream after its `file` event, in order, whatever other streams do in between |
| UploadProperties.LastFilePartWins | index.js:53-55 | the last file part decides the key and the MIME type |
| UploadProperties.NoFilePartNoFile | index.js:45-62 | without a file part there is no key, no MIME type and no buffer |
| UploadProperties.BufferStable | index.js:59-61 | the buffer changes only at a file end |
| UploadProperties.NoFileEndNoBuffer | index.js:59-61 | if no file stream ends, there is no buffer |
| UploadProperties.BufferOfLastEndedFile | index.js:57-61 | the buffer is the in-order concatenation of the chunks of the part whose stream ended last |
| UploadProperties.KeyAndBytesFromDifferentParts | index.js:53-73 | with part 0 ended and part 1 still open at `finish`, the put carries part 0's bytes under part 1's key and MIME type |
| UploadProperties.RejectedBeforeParsing | index.js:36-40 | a header value without `multipart/form-data` gets the 400 answer, whatever the events, with no storage or database call |
| UploadProperties.NoFileSkipsStorage | index.js:66-80 | without a file part storage is never called and the inserted `image_url` is null |
| UploadProperties.ParseSingleFileUpload | index.js:53-61 | after fields, one file part, its chunks and its end, the buffer is exactly the concatenated chunks and the key and MIME type are the part's |
| UploadProperties.FileIsStoredThenReferenced | index.js:53-80 | fields, one file part, its chunks, its end and `finish` lead to a put of exactly the concatenated chunks under `<timestamp>-<filename>` with the part's MIME type, even for zero bytes; on success the insert follows and carries that object's URL, and on failure nothing follows |
| UploadProperties.ResubmissionGetsNewKey | index.js:54 | the same form submitted at two different `Date.now()` readings is stored under two different keys; two uploads of the same file name in the same millisecond get the same key, so the key is not unique for concurrent uploads |

## Left out

- Express setup, the CORS middleware and `app.listen` (`index.js:8-9`, `28-33`, `92-94`): framework and I/O plumbing.
- Construction of the MySQL pool and the S3 client, with their region and 5000 ms timeouts (`index.js:12-26`): foreign network clients. Their calls are modelled only as given success or error outcomes. A timeout is one such error.
- Busboy's multipart parsing of the byte stream (`index.js:42`, `89`): the library is not part of this model. Its events are taken as given, in the order Busboy emits them. Busboy errors have no listener in the handler and are not modelled. A stream that never emits `finish` gets no response. The `busboy(...)` constructor call at `index.js:42` throws synchronously for a header that passes the gate but that Busboy cannot use (`multipart/form-data` without a boundary, or the substring inside another MIME type); inside the `async` handler this becomes an unhandled rejection and no response is sent, which the model can only show as an event stream with no `Finish`.
- `Data` or `FileEnd` events tagged with a part not yet announced are ignored, because no listener exists for them. Busboy never emits them.
- Async scheduling and `req.pipe` streaming: events are handled one after another. A file stream ending after `finish` is not modelled.
- Environment variables: `S3_BUCKET` is a string parameter. An unset variable, which the template would render as `undefined`, is not modelled.
- `Date.now()`: the clock is a parameter, and one reading is taken for each event.
- `console.error` logging (`index.js:84`).
- How the database driver treats `undefined` bind values: the insert's outcome is a given parameter.
- An error whose `message` is `undefined`: a failure always carries a message string.
- Text.NatToString: renders any non-negative integer in plain decimal. JavaScript switches to exponent notation from 10^21 on, far beyond any millisecond clock reading.
