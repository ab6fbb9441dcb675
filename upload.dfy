/** The `POST /upload` handler: the content-type gate, the per-request parse state that
    Busboy's callbacks update, and the coordinator that runs when Busboy finishes
    (store the file, insert the row, send one response).

    Busboy's output is taken as a sequence of events; the storage put and the row insert
    are collaborators whose outcome is given, and which record every call made to them. */
module Upload {
  import opened Values
  import opened Text
  import opened Buffers
  import opened Naming

  // ---------------------------------------------------------------- requests and events

  /** The two header lookups the handler makes: `content-type` and `Content-Type`. */
  datatype Request = Request(contentTypeLower: Option<string>, contentTypeCapitalized: Option<string>)

  /** What Busboy reports while it reads the body. `Data` and `FileEnd` carry the
      ordinal of the file part whose stream emitted them (0 for the first `FilePart`),
      since each part's listeners are bound to that part's own stream. */
  datatype Event =
    | Field(fieldName: string, value: string)
    | FilePart(partName: string, filename: string, mimeType: string)
    | Data(stream: nat, chunk: Chunk)
    | FileEnd(stream: nat)
    | Finish

  // ---------------------------------------------------------------- collaborators

  /** The outcome of an external call; a failure carries the error's `message`. */
  datatype CallResult = Done | Failed(message: string)

  /** The four values bound to the insert's placeholders. */
  datatype Row = Row(name: Option<string>, email: Option<string>, message: Option<string>, imageUrl: Option<string>)

  const InsertStatement := "INSERT INTO contacts (name, email, message, image_url) VALUES (?, ?, ?, ?)"

  /** A call made to a collaborator. The insert keeps the statement text and its
      parameters apart: values are bound, never spliced into the text. */
  datatype Call =
    | PutObject(bucket: string, key: string, body: seq<Byte>, contentType: string)
    | Insert(statement: string, params: Row)

  // ---------------------------------------------------------------- responses

  datatype Body =
    | ErrorOnly(error: string)
    | MessageOnly(message: string)
    | MessageAndError(message: string, errorMessage: string)

  datatype Response = Response(status: nat, body: Body)

  const UnsupportedPrefix := "Unsupported content type: "
  const SuccessMessage := "Form submitted successfully!"
  const FailureMessage := "Submission failed."
  const Multipart := "multipart/form-data"

  /** Everything a request produced: the responses sent and the calls made, in order. */
  datatype Exchange = Exchange(responses: seq<Response>, calls: seq<Call>)

  // ---------------------------------------------------------------- the gate

  /** JavaScript truthiness of an optional string: `undefined` and `""` are falsy. */
  predicate Truthy(v: Option<string>)
  {
    v.Some? && v.value != ""
  }

  /** `req.headers['content-type'] || req.headers['Content-Type']`. */
  function ContentTypeOf(req: Request): (ct: Option<string>)
    ensures ct == req.contentTypeLower || ct == req.contentTypeCapitalized
    ensures Truthy(ct) <==> Truthy(req.contentTypeLower) || Truthy(req.contentTypeCapitalized)
    ensures Truthy(req.contentTypeLower) ==> ct == req.contentTypeLower
  {
    if Truthy(req.contentTypeLower) then req.contentTypeLower else req.contentTypeCapitalized
  }

  /** The gate passes a truthy content type that contains `multipart/form-data`. */
  function AcceptsContentType(ct: Option<string>): (ok: bool)
    ensures ok <==> ct.Some? && exists i: nat :: OccursAt(ct.value, Multipart, i)
  {
    if ct.Some? then
      ContainsIff(ct.value, Multipart);
      ct.value != "" && Contains(ct.value, Multipart)
    else false
  }

  /** A template literal's rendering of the header value: `undefined` when absent. */
  function Show(ct: Option<string>): string
  {
    if ct.Some? then ct.value else "undefined"
  }

  function RejectionFor(ct: Option<string>): (r: Response)
    ensures r.status == 400 && r.body.ErrorOnly?
    ensures ct.Some? ==> r.body.error == UnsupportedPrefix + ct.value
    ensures ct.None? ==> r.body.error == UnsupportedPrefix + "undefined"
  {
    Response(400, ErrorOnly(UnsupportedPrefix + Show(ct)))
  }

  // ---------------------------------------------------------------- parse state as a value

  /** The handler's `let` variables plus the `chunks` array of every file part so far,
      in the order the parts arrived. */
  datatype ParseSnapshot = ParseSnapshot(
    name: Option<string>,
    email: Option<string>,
    message: Option<string>,
    fileBuffer: Option<seq<Byte>>,
    fileName: Option<string>,
    mimeType: Option<string>,
    chunks: seq<seq<Chunk>>)

  const Initial := ParseSnapshot(None, None, None, None, None, None, [])

  const TrackedFields: set<string> := {"name", "email", "message"}

  /** A buffer only exists after a file part, and a file part always sets both its key
      and its MIME type. */
  predicate Consistent(s: ParseSnapshot)
  {
    && (s.fileBuffer.Some? ==> |s.chunks| > 0)
    && (|s.chunks| > 0 <==> s.fileName.Some?)
    && (|s.chunks| > 0 <==> s.mimeType.Some?)
  }

  /** The value of a tracked field. */
  function FieldOf(s: ParseSnapshot, f: string): Option<string>
    requires f in TrackedFields
  {
    if f == "name" then s.name else if f == "email" then s.email else s.message
  }

  /** One callback run. `now` is what `Date.now()` returns during it. */
  function Step(s: ParseSnapshot, e: Event, now: nat): (r: ParseSnapshot)
    ensures Consistent(s) ==> Consistent(r)
    ensures e.Field? && e.fieldName in TrackedFields ==>
      FieldOf(r, e.fieldName) == Some(e.value)
      && forall f :: f in TrackedFields && f != e.fieldName ==> FieldOf(r, f) == FieldOf(s, f)
    ensures e.Field? && e.fieldName !in TrackedFields ==> r == s
    ensures e.Field? ==>
      r.fileBuffer == s.fileBuffer && r.fileName == s.fileName && r.mimeType == s.mimeType && r.chunks == s.chunks
    ensures !e.Field? ==> r.name == s.name && r.email == s.email && r.message == s.message
    ensures !e.FilePart? ==> r.fileName == s.fileName && r.mimeType == s.mimeType
    ensures e.FilePart? ==> r.chunks == s.chunks + [[]] && r.fileBuffer == s.fileBuffer
    ensures e.FilePart? ==> r.fileName == Some(StorageKey(now, e.filename)) && r.mimeType == Some(e.mimeType)
    ensures e.Data? ==> |r.chunks| == |s.chunks|
    ensures e.Data? ==> forall p :: 0 <= p < |s.chunks| ==>
      r.chunks[p] == if p == e.stream then s.chunks[p] + [e.chunk] else s.chunks[p]
    ensures e.FileEnd? ==> r.chunks == s.chunks && r.fileName == s.fileName && r.mimeType == s.mimeType
    ensures e.FileEnd? && e.stream < |s.chunks| ==> r.fileBuffer == Some(Concat(s.chunks[e.stream]))
    ensures r.fileBuffer != s.fileBuffer ==> e.FileEnd? && e.stream < |s.chunks|
    ensures e.Finish? ==> r == s
  {
    match e
    case Field(f, v) =>
      var s1 := if f == "name" then s.(name := Some(v)) else s;
      var s2 := if f == "email" then s1.(email := Some(v)) else s1;
      if f == "message" then s2.(message := Some(v)) else s2
    case FilePart(_, filename, mime) =>
      s.(fileName := Some(StorageKey(now, filename)), mimeType := Some(mime), chunks := s.chunks + [[]])
    case Data(p, d) =>
      if p < |s.chunks| then s.(chunks := s.chunks[p := s.chunks[p] + [d]]) else s
    case FileEnd(p) =>
      if p < |s.chunks| then s.(fileBuffer := Some(Concat(s.chunks[p]))) else s
    case Finish => s
  }

  /** The state after the callbacks for `events`, the `i`-th one reading clock `clock(i)`. */
  function Parse(events: seq<Event>, clock: nat -> nat): (s: ParseSnapshot)
    ensures Consistent(s)
    decreases |events|
  {
    if events == [] then Initial
    else Step(Parse(events[..|events| - 1], clock), events[|events| - 1], clock(|events| - 1))
  }

  /** Where Busboy's single `finish` event sits, or `|events|` when it never comes. */
  function FinishIndex(events: seq<Event>): (k: nat)
    ensures k <= |events|
    ensures k < |events| ==> events[k].Finish?
    ensures forall i :: 0 <= i < k ==> !events[i].Finish?
    decreases |events|
  {
    if events == [] then 0 else if events[0].Finish? then 0 else 1 + FinishIndex(events[1..])
  }

  /** The storage put, if any, comes before the insert. */
  predicate StorageBeforeInsert(calls: seq<Call>)
  {
    forall i, j :: 0 <= i < |calls| && 0 <= j < |calls| && calls[i].PutObject? && calls[j].Insert? ==> i < j
  }

  /** Whether a call, made to a collaborator with the given outcomes, succeeded. */
  predicate Succeeded(c: Call, storage: CallResult, insert: CallResult)
  {
    if c.PutObject? then storage.Done? else insert.Done?
  }

  // ---------------------------------------------------------------- the coordinator as a value

  /** The `finish` callback: put the buffer, if there is one, then insert the row, and
      answer once. */
  function Coordinate(s: ParseSnapshot, bucket: string, storage: CallResult, insert: CallResult): (x: Exchange)
    requires Consistent(s)
    ensures |x.responses| == 1
    ensures x.responses[0].status == 200 <==> (s.fileBuffer.None? || storage.Done?) && insert.Done?
    ensures x.responses[0].status == 200 ==> x.responses[0].body == MessageOnly(SuccessMessage)
    ensures x.responses[0].status != 200 ==>
      x.responses[0].status == 500
      && x.responses[0].body == MessageAndError(FailureMessage,
           if s.fileBuffer.Some? && storage.Failed? then storage.message else insert.message)
    ensures s.fileBuffer.None? ==> x.calls == [Insert(InsertStatement, Row(s.name, s.email, s.message, None))]
    ensures s.fileBuffer.Some? ==>
      var put := PutObject(bucket, s.fileName.value, s.fileBuffer.value, s.mimeType.value);
      if storage.Failed? then x.calls == [put]
      else x.calls == [put, Insert(InsertStatement,
                                   Row(s.name, s.email, s.message, Some(ObjectUrl(bucket, s.fileName.value))))]
    ensures StorageBeforeInsert(x.calls)
    ensures x.responses[0].status == 200 <==> forall c :: c in x.calls ==> Succeeded(c, storage, insert)
  {
    var put := if s.fileBuffer.Some?
               then [PutObject(bucket, s.fileName.value, s.fileBuffer.value, s.mimeType.value)] else [];
    if s.fileBuffer.Some? && storage.Failed? then
      assert put[0] in put;
      Exchange([Response(500, MessageAndError(FailureMessage, storage.message))], put)
    else
      var imageUrl := if s.fileBuffer.Some? then Some(ObjectUrl(bucket, s.fileName.value)) else None;
      var calls := put + [Insert(InsertStatement, Row(s.name, s.email, s.message, imageUrl))];
      assert calls[|calls| - 1] in calls;
      if insert.Failed? then Exchange([Response(500, MessageAndError(FailureMessage, insert.message))], calls)
      else Exchange([Response(200, MessageOnly(SuccessMessage))], calls)
  }

  /** The whole handler for one request. */
  function Handle(req: Request, events: seq<Event>, clock: nat -> nat, bucket: string,
                  storage: CallResult, insert: CallResult): (x: Exchange)
    ensures |x.responses| <= 1
    ensures |x.responses| == 1 <==>
      !AcceptsContentType(ContentTypeOf(req)) || exists k :: 0 <= k < |events| && events[k].Finish?
    ensures !AcceptsContentType(ContentTypeOf(req)) ==>
      x == Exchange([RejectionFor(ContentTypeOf(req))], [])
    ensures |x.responses| == 1 ==> x.responses[0].status in {200, 400, 500}
    ensures StorageBeforeInsert(x.calls)
    ensures AcceptsContentType(ContentTypeOf(req)) && |x.responses| == 1 ==>
      (x.responses[0].status == 200 <==> forall c :: c in x.calls ==> Succeeded(c, storage, insert))
  {
    var ct := ContentTypeOf(req);
    if !AcceptsContentType(ct) then Exchange([RejectionFor(ct)], [])
    else
      var k := FinishIndex(events);
      if k == |events| then Exchange([], [])
      else Coordinate(Parse(events[..k], clock), bucket, storage, insert)
  }

  // ---------------------------------------------------------------- the handler's objects

  /** The handler's mutable `let` variables and the `chunks` array each file part's
      callback creates, updated by one method per Busboy callback. */
  class ParseState {
    var name: Option<string>
    var email: Option<string>
    var message: Option<string>
    var fileBuffer: Option<seq<Byte>>
    var fileName: Option<string>
    var mimeType: Option<string>
    var chunks: seq<seq<Chunk>>

    function Snapshot(): ParseSnapshot
      reads this
    {
      ParseSnapshot(name, email, message, fileBuffer, fileName, mimeType, chunks)
    }

    constructor ()
      ensures Snapshot() == Initial
    {
      name, email, message := None, None, None;
      fileBuffer, fileName, mimeType := None, None, None;
      chunks := [];
    }

    /** `busboy.on('field')`: only `name`, `email` and `message` are kept; a repeated
        field overwrites the earlier value. */
    method OnField(fieldname: string, val: string)
      modifies this`name, this`email, this`message
      ensures name == if fieldname == "name" then Some(val) else old(name)
      ensures email == if fieldname == "email" then Some(val) else old(email)
      ensures message == if fieldname == "message" then Some(val) else old(message)
    {
      if fieldname == "name" { name := Some(val); }
      if fieldname == "email" { email := Some(val); }
      if fieldname == "message" { message := Some(val); }
    }

    /** `busboy.on('file')`: overwrite the key and MIME type and create this part's own
        `chunks` array. An earlier part's finished buffer stays until a stream ends. */
    method OnFile(filename: string, mime: string, now: nat)
      modifies this`fileName, this`mimeType, this`chunks
      ensures fileName == Some(StorageKey(now, filename))
      ensures mimeType == Some(mime)
      ensures chunks == old(chunks) + [[]]
    {
      fileName := Some(StorageKey(now, filename));
      mimeType := Some(mime);
      chunks := chunks + [[]];
    }

    /** `file.on('data')` of part `stream`: `chunks.push(data)` on that part's array. */
    method OnData(stream: nat, data: Chunk)
      modifies this`chunks
      ensures |chunks| == |old(chunks)|
      ensures stream < |chunks| ==> chunks == old(chunks)[stream := old(chunks)[stream] + [data]]
      ensures stream >= |chunks| ==> chunks == old(chunks)
    {
      if stream < |chunks| {
        chunks := chunks[stream := chunks[stream] + [data]];
      }
    }

    /** `file.on('end')` of part `stream`: `fileBuffer = Buffer.concat(chunks)` with
        that part's array. */
    method OnEnd(stream: nat)
      modifies this`fileBuffer
      ensures fileBuffer == if stream < |chunks| then Some(Concat(chunks[stream])) else old(fileBuffer)
    {
      if stream < |chunks| {
        fileBuffer := Some(Concat(chunks[stream]));
      }
    }
  }

  /** The storage and database clients as recording doubles with fixed outcomes. */
  class Backends {
    const storageResult: CallResult
    const insertResult: CallResult
    var log: seq<Call>

    constructor (storageResult: CallResult, insertResult: CallResult)
      ensures this.storageResult == storageResult && this.insertResult == insertResult
      ensures log == []
    {
      this.storageResult := storageResult;
      this.insertResult := insertResult;
      log := [];
    }

    /** `s3.send(new PutObjectCommand(...))`. */
    method Send(bucket: string, key: string, body: seq<Byte>, contentType: string) returns (r: CallResult)
      modifies this
      ensures log == old(log) + [PutObject(bucket, key, body, contentType)]
      ensures r == storageResult
    {
      log := log + [PutObject(bucket, key, body, contentType)];
      r := storageResult;
    }

    /** `pool.execute(statement, params)`. */
    method Execute(statement: string, params: Row) returns (r: CallResult)
      modifies this
      ensures log == old(log) + [Insert(statement, params)]
      ensures r == insertResult
    {
      log := log + [Insert(statement, params)];
      r := insertResult;
    }
  }

  /** The response object: every `res.status(...).json(...)` is recorded. */
  class ResponseWriter {
    var sent: seq<Response>

    constructor ()
      ensures sent == []
    {
      sent := [];
    }

    method Json(status: nat, body: Body)
      modifies this
      ensures sent == old(sent) + [Response(status, body)]
    {
      sent := sent + [Response(status, body)];
    }
  }

  /** The `finish` callback: the try block and its catch. */
  method OnFinish(st: ParseState, bucket: string, backends: Backends, res: ResponseWriter)
    requires Consistent(st.Snapshot())
    modifies backends, res
    ensures var x := Coordinate(st.Snapshot(), bucket, backends.storageResult, backends.insertResult);
      backends.log == old(backends.log) + x.calls && res.sent == old(res.sent) + x.responses
  {
    var imageUrl: Option<string> := None;
    if st.fileBuffer.Some? {
      var r := backends.Send(bucket, st.fileName.value, st.fileBuffer.value, st.mimeType.value);
      if r.Failed? {
        res.Json(500, MessageAndError(FailureMessage, r.message));
        return;
      }
      imageUrl := Some(ObjectUrl(bucket, st.fileName.value));
    }
    var r := backends.Execute(InsertStatement, Row(st.name, st.email, st.message, imageUrl));
    if r.Failed? {
      res.Json(500, MessageAndError(FailureMessage, r.message));
      return;
    }
    res.Json(200, MessageOnly(SuccessMessage));
  }

  /** Busboy delivering one event to the callback registered for it. */
  method Dispatch(st: ParseState, e: Event, now: nat)
    modifies st
    ensures st.Snapshot() == Step(old(st.Snapshot()), e, now)
  {
    match e {
      case Field(f, v) => st.OnField(f, v);
      case FilePart(_, filename, mime) => st.OnFile(filename, mime, now);
      case Data(p, d) => st.OnData(p, d);
      case FileEnd(p) => st.OnEnd(p);
      case Finish =>
    }
  }

  /** `req.pipe(busboy)`: every event up to `finish` reaches its callback, in order.
      Returns the position of `finish`, or `|events|` when it never comes. */
  method RunCallbacks(st: ParseState, events: seq<Event>, clock: nat -> nat) returns (i: nat)
    requires st.Snapshot() == Initial
    modifies st
    ensures i == FinishIndex(events)
    ensures st.Snapshot() == Parse(events[..i], clock)
  {
    i := 0;
    while i < |events| && !events[i].Finish?
      invariant i <= FinishIndex(events)
      invariant st.Snapshot() == Parse(events[..i], clock)
    {
      Dispatch(st, events[i], clock(i));
      assert events[..i + 1][..i] == events[..i];
      i := i + 1;
    }
  }

  /** `app.post('/upload', ...)` for one request: gate, then feed Busboy's events to
      the callbacks until `finish`, then coordinate. Returns the responses sent and the
      calls made to storage and the database. */
  method HandleUpload(req: Request, events: seq<Event>, clock: nat -> nat, bucket: string,
                      storage: CallResult, insert: CallResult)
    returns (responses: seq<Response>, calls: seq<Call>)
    ensures Exchange(responses, calls) == Handle(req, events, clock, bucket, storage, insert)
  {
    var res := new ResponseWriter();
    var backends := new Backends(storage, insert);
    var contentType := ContentTypeOf(req);
    if !Truthy(contentType) || !Contains(contentType.value, Multipart) {
      res.Json(400, ErrorOnly(UnsupportedPrefix + Show(contentType)));
      return res.sent, backends.log;
    }
    var st := new ParseState();
    var i := RunCallbacks(st, events, clock);
    if i < |events| {
      OnFinish(st, bucket, backends, res);
    }
    return res.sent, backends.log;
  }
}
