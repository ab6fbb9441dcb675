/** What the handler promises about a whole event stream: which field value is kept,
    which file part's key and bytes are used, and what reaches storage and the database. */
module UploadProperties {
  import opened Values
  import opened Buffers
  import opened Naming
  import opened Upload

  /** How many file parts `events` announces. */
  function FilePartCount(events: seq<Event>): (n: nat)
    ensures n <= |events|
    decreases |events|
  {
    if events == [] then 0
    else FilePartCount(events[..|events| - 1]) + (if events[|events| - 1].FilePart? then 1 else 0)
  }

  /** The payloads of the `Data` events of stream `p`, in arrival order. */
  function DataChunks(p: nat, events: seq<Event>): (cs: seq<Chunk>)
    ensures |cs| <= |events|
    decreases |events|
  {
    if events == [] then []
    else
      var last := events[|events| - 1];
      DataChunks(p, events[..|events| - 1]) + (if last.Data? && last.stream == p then [last.chunk] else [])
  }

  /** One `Data` event of stream `p` per chunk. */
  function DataEvents(p: nat, cs: seq<Chunk>): (events: seq<Event>)
    ensures |events| == |cs|
    ensures forall i :: 0 <= i < |cs| ==> events[i] == Data(p, cs[i])
    decreases |cs|
  {
    if cs == [] then [] else DataEvents(p, cs[..|cs| - 1]) + [Data(p, cs[|cs| - 1])]
  }

  lemma {:induction false} DataChunksOfDataEvents(p: nat, cs: seq<Chunk>)
    ensures DataChunks(p, DataEvents(p, cs)) == cs
    decreases |cs|
  {
    if cs != [] {
      var events := DataEvents(p, cs);
      assert events[..|events| - 1] == DataEvents(p, cs[..|cs| - 1]);
      DataChunksOfDataEvents(p, cs[..|cs| - 1]);
    }
  }

  /** Parsing one more event is one more callback run. */
  lemma {:induction false} ParseSnoc(events: seq<Event>, e: Event, clock: nat -> nat)
    ensures Parse(events + [e], clock) == Step(Parse(events, clock), e, clock(|events|))
  {
    assert (events + [e])[..|events|] == events;
  }

  predicate IsFieldNamed(e: Event, f: string)
  {
    e.Field? && e.fieldName == f
  }

  /** The last `field` event for a tracked name decides its value: later fields of the
      same name overwrite earlier ones. */
  lemma {:induction false} LastFieldWins(events: seq<Event>, clock: nat -> nat, i: nat)
    requires i < |events| && events[i].Field? && events[i].fieldName in TrackedFields
    requires forall j :: i < j < |events| ==> !IsFieldNamed(events[j], events[i].fieldName)
    ensures FieldOf(Parse(events, clock), events[i].fieldName) == Some(events[i].value)
    decreases |events|
  {
    var n := |events| - 1;
    if i < n {
      assert events[..n][i] == events[i];
      LastFieldWins(events[..n], clock, i);
    }
  }

  /** A tracked field that never arrives stays `undefined`. */
  lemma {:induction false} MissingFieldUndefined(events: seq<Event>, clock: nat -> nat, f: string)
    requires f in TrackedFields
    requires forall j :: 0 <= j < |events| ==> !IsFieldNamed(events[j], f)
    ensures FieldOf(Parse(events, clock), f) == None
    decreases |events|
  {
    if events != [] {
      MissingFieldUndefined(events[..|events| - 1], clock, f);
    }
  }

  /** Every file part announced so far has its own chunk array. */
  lemma {:induction false} OneArrayPerPart(events: seq<Event>, clock: nat -> nat)
    ensures |Parse(events, clock).chunks| == FilePartCount(events)
    decreases |events|
  {
    if events != [] {
      OneArrayPerPart(events[..|events| - 1], clock);
    }
  }

  lemma {:induction false} NoFilePartCountsZero(events: seq<Event>)
    requires forall j :: 0 <= j < |events| ==> !events[j].FilePart?
    ensures FilePartCount(events) == 0
    decreases |events|
  {
    if events != [] {
      NoFilePartCountsZero(events[..|events| - 1]);
    }
  }

  /** The array of the file part announced at position `i` holds exactly the `Data`
      payloads its own stream emitted after it, in order, whatever the other parts'
      streams do in between. */
  lemma {:induction false} PartChunks(events: seq<Event>, clock: nat -> nat, i: nat)
    requires i < |events| && events[i].FilePart?
    ensures FilePartCount(events[..i]) < |Parse(events, clock).chunks|
    ensures Parse(events, clock).chunks[FilePartCount(events[..i])]
      == DataChunks(FilePartCount(events[..i]), events[i + 1..])
    decreases |events|
  {
    var n := |events| - 1;
    var p := FilePartCount(events[..i]);
    var before := Parse(events[..n], clock);
    assert Parse(events, clock) == Step(before, events[n], clock(n));
    if i == n {
      OneArrayPerPart(events[..n], clock);
      assert events[i + 1..] == [];
    } else {
      assert events[..n][..i] == events[..i];
      assert events[..n][i] == events[i];
      PartChunks(events[..n], clock, i);
      var tail := events[i + 1..];
      assert tail[..|tail| - 1] == events[..n][i + 1..];
      assert tail[|tail| - 1] == events[n];
      var earlier := DataChunks(p, events[..n][i + 1..]);
      assert before.chunks[p] == earlier;
      if events[n].Data? && events[n].stream == p {
        assert DataChunks(p, tail) == earlier + [events[n].chunk];
      } else {
        assert DataChunks(p, tail) == earlier + [];
        assert earlier + [] == earlier;
      }
    }
  }

  /** The last file part decides the storage key and the MIME type: `fileName` and
      `mimeType` are overwritten by every file part. */
  lemma {:induction false} LastFilePartWins(events: seq<Event>, clock: nat -> nat, i: nat)
    requires i < |events| && events[i].FilePart?
    requires forall j :: i < j < |events| ==> !events[j].FilePart?
    ensures Parse(events, clock).fileName == Some(StorageKey(clock(i), events[i].filename))
    ensures Parse(events, clock).mimeType == Some(events[i].mimeType)
    decreases |events|
  {
    var n := |events| - 1;
    if i < n {
      assert events[..n][i] == events[i];
      LastFilePartWins(events[..n], clock, i);
    }
  }

  /** Without a file part there is no key, no MIME type and no buffer. */
  lemma {:induction false} NoFilePartNoFile(events: seq<Event>, clock: nat -> nat)
    requires forall j :: 0 <= j < |events| ==> !events[j].FilePart?
    ensures Parse(events, clock).chunks == [] && Parse(events, clock).fileBuffer == None
    ensures Parse(events, clock).fileName == None && Parse(events, clock).mimeType == None
    decreases |events|
  {
    if events != [] {
      NoFilePartNoFile(events[..|events| - 1], clock);
    }
  }

  /** The buffer changes only when a file stream ends. */
  lemma {:induction false} BufferStable(events: seq<Event>, clock: nat -> nat, k: nat)
    requires k <= |events|
    requires forall j :: k <= j < |events| ==> !events[j].FileEnd?
    ensures Parse(events, clock).fileBuffer == Parse(events[..k], clock).fileBuffer
    decreases |events|
  {
    if k < |events| {
      var n := |events| - 1;
      assert events[..n][..k] == events[..k];
      BufferStable(events[..n], clock, k);
      assert !events[n].FileEnd?;
      assert Parse(events, clock) == Step(Parse(events[..n], clock), events[n], clock(n));
    } else {
      assert events[..k] == events;
    }
  }

  /** No file stream ended: no buffer, so nothing will be stored. */
  lemma {:induction false} NoFileEndNoBuffer(events: seq<Event>, clock: nat -> nat)
    requires forall j :: 0 <= j < |events| ==> !events[j].FileEnd?
    ensures Parse(events, clock).fileBuffer == None
  {
    BufferStable(events, clock, 0);
  }

  /** The buffer is the in-order concatenation of the chunks of the file part whose
      stream ended last. */
  lemma {:induction false} BufferOfLastEndedFile(events: seq<Event>, clock: nat -> nat, i: nat, j: nat)
    requires i < j < |events|
    requires events[i].FilePart? && events[j] == FileEnd(FilePartCount(events[..i]))
    requires forall m :: j < m < |events| ==> !events[m].FileEnd?
    ensures Parse(events, clock).fileBuffer
      == Some(Concat(DataChunks(FilePartCount(events[..i]), events[i + 1..j])))
  {
    var pre := events[..j];
    assert pre[i] == events[i];
    assert pre[..i] == events[..i];
    PartChunks(pre, clock, i);
    assert pre[i + 1..] == events[i + 1..j];
    assert events[..j + 1] == pre + [events[j]];
    ParseSnoc(pre, events[j], clock);
    BufferStable(events, clock, j + 1);
  }

  /** Key and bytes can come from different parts: when part 0 has ended and part 1 is
      still streaming at `finish`, part 0's bytes are put under part 1's key and MIME
      type. */
  lemma {:induction false} KeyAndBytesFromDifferentParts(req: Request, clock: nat -> nat, bucket: string,
                                                         storage: CallResult, insert: CallResult)
    requires AcceptsContentType(ContentTypeOf(req))
    ensures var events := [FilePart("file", "a.txt", "text/plain"), Data(0, [1]), FileEnd(0),
                           FilePart("file", "b.png", "image/png"), Finish];
      var x := Handle(req, events, clock, bucket, storage, insert);
      |x.calls| >= 1 && x.calls[0] == PutObject(bucket, StorageKey(clock(3), "b.png"), [1], "image/png")
  {
    var events := [FilePart("file", "a.txt", "text/plain"), Data(0, [1]), FileEnd(0),
                   FilePart("file", "b.png", "image/png"), Finish];
    assert FinishIndex(events) == 4;
    var pre := events[..4];
    assert pre[..0] == [];
    assert pre[..2] == events[..2];
    BufferOfLastEndedFile(pre, clock, 0, 2);
    assert pre[1..2] == [Data(0, [1])];
    assert DataChunks(0, [Data(0, [1])]) == [[1]];
    assert Concat([[1]]) == [1];
    LastFilePartWins(pre, clock, 3);
  }

  // ---------------------------------------------------------------- the whole request

  /** A content type the gate rejects gets the 400 answer; no event is looked at and
      neither collaborator is called. */
  lemma {:induction false} RejectedBeforeParsing(req: Request, events: seq<Event>, clock: nat -> nat, bucket: string,
                              storage: CallResult, insert: CallResult)
    requires !Text.Contains(Show(ContentTypeOf(req)), Multipart)
    ensures Handle(req, events, clock, bucket, storage, insert)
      == Exchange([Response(400, ErrorOnly(UnsupportedPrefix + Show(ContentTypeOf(req))))], [])
  {
  }

  /** A request without a file part never calls storage, and the row it inserts has a
      null `image_url`. */
  lemma {:induction false} NoFileSkipsStorage(req: Request, events: seq<Event>, clock: nat -> nat, bucket: string,
                           storage: CallResult, insert: CallResult)
    requires forall j :: 0 <= j < |events| ==> !events[j].FilePart?
    ensures forall c :: c in Handle(req, events, clock, bucket, storage, insert).calls ==>
      c.Insert? && c.params.imageUrl == None
  {
    var k := FinishIndex(events);
    NoFilePartNoFile(events[..k], clock);
  }

  /** Fields, then one file part, its chunks and the end of its stream. */
  function SingleFileUpload(fields: seq<Event>, part: string, filename: string, mime: string,
                            cs: seq<Chunk>): (events: seq<Event>)
    ensures |events| == |fields| + |cs| + 2
    ensures forall m :: 0 <= m < |fields| ==> events[m] == fields[m]
    ensures events[|fields|] == FilePart(part, filename, mime)
    ensures forall m :: 0 <= m < |cs| ==> events[|fields| + 1 + m] == Data(0, cs[m])
    ensures events[|fields| + 1 + |cs|] == FileEnd(0)
    ensures events[|fields| + 1..|fields| + 1 + |cs|] == DataEvents(0, cs)
  {
    fields + [FilePart(part, filename, mime)] + DataEvents(0, cs) + [FileEnd(0)]
  }

  /** After such a body the buffer is exactly the concatenated chunks, and the key and
      MIME type are those of the file part. */
  lemma {:induction false} ParseSingleFileUpload(fields: seq<Event>, part: string, filename: string,
                                                 mime: string, cs: seq<Chunk>, clock: nat -> nat)
    requires forall j :: 0 <= j < |fields| ==> fields[j].Field?
    ensures var s := Parse(SingleFileUpload(fields, part, filename, mime, cs), clock);
      && s.fileBuffer == Some(Concat(cs))
      && s.fileName == Some(StorageKey(clock(|fields|), filename))
      && s.mimeType == Some(mime)
    ensures forall m :: 0 <= m < |SingleFileUpload(fields, part, filename, mime, cs)| ==>
      !SingleFileUpload(fields, part, filename, mime, cs)[m].Finish?
  {
    var pre := SingleFileUpload(fields, part, filename, mime, cs);
    var i := |fields|;
    var j := |fields| + 1 + |cs|;
    forall m | i < m < j ensures !pre[m].FilePart? {
      assert pre[i + 1 + (m - i - 1)] == Data(0, cs[m - i - 1]);
    }
    forall m | 0 <= m < |pre| ensures !pre[m].Finish? {
      if i < m < j {
        assert pre[i + 1 + (m - i - 1)] == Data(0, cs[m - i - 1]);
      }
    }
    assert pre[..i] == fields;
    NoFilePartCountsZero(fields);
    BufferOfLastEndedFile(pre, clock, i, j);
    DataChunksOfDataEvents(0, cs);
    LastFilePartWins(pre, clock, i);
  }

  /** A request whose fields are followed by one file part, its chunks, the end of its
      stream and `finish` puts exactly the concatenated chunks under
      `<timestamp>-<filename>` with the part's MIME type, even when there are no chunks;
      when the put succeeds the row carries that object's URL. */
  lemma {:induction false} FileIsStoredThenReferenced(req: Request, fields: seq<Event>, part: string, filename: string,
                                   mime: string, cs: seq<Chunk>, clock: nat -> nat, bucket: string,
                                   storage: CallResult, insert: CallResult)
    requires AcceptsContentType(ContentTypeOf(req))
    requires forall j :: 0 <= j < |fields| ==> fields[j].Field?
    ensures var events := SingleFileUpload(fields, part, filename, mime, cs) + [Finish];
      var x := Handle(req, events, clock, bucket, storage, insert);
      var key := StorageKey(clock(|fields|), filename);
      && |x.calls| >= 1
      && x.calls[0] == PutObject(bucket, key, Concat(cs), mime)
      && (storage.Done? ==> |x.calls| == 2 && x.calls[1].params.imageUrl == Some(ObjectUrl(bucket, key)))
      && (storage.Failed? ==> |x.calls| == 1)
  {
    var pre := SingleFileUpload(fields, part, filename, mime, cs);
    var events := pre + [Finish];
    ParseSingleFileUpload(fields, part, filename, mime, cs, clock);
    forall m | 0 <= m < |pre| ensures !events[m].Finish? {
      assert events[m] == pre[m];
    }
    assert events[|pre|].Finish?;
    assert FinishIndex(events) == |pre|;
    assert events[..|pre|] == pre;
  }

  /** Two requests that differ only in the clock reading at their file part store their
      files under different keys: resubmitting a form is not idempotent. */
  lemma {:induction false} ResubmissionGetsNewKey(req: Request, fields: seq<Event>, part: string, filename: string,
                               mime: string, cs: seq<Chunk>, clock1: nat -> nat, clock2: nat -> nat,
                               bucket: string, storage: CallResult, insert: CallResult)
    requires AcceptsContentType(ContentTypeOf(req))
    requires forall j :: 0 <= j < |fields| ==> fields[j].Field?
    requires clock1(|fields|) != clock2(|fields|)
    ensures var events := SingleFileUpload(fields, part, filename, mime, cs) + [Finish];
      var x1 := Handle(req, events, clock1, bucket, storage, insert);
      var x2 := Handle(req, events, clock2, bucket, storage, insert);
      |x1.calls| >= 1 && |x2.calls| >= 1 && x1.calls[0].PutObject? && x2.calls[0].PutObject?
      && x1.calls[0].key != x2.calls[0].key
  {
    FileIsStoredThenReferenced(req, fields, part, filename, mime, cs, clock1, bucket, storage, insert);
    FileIsStoredThenReferenced(req, fields, part, filename, mime, cs, clock2, bucket, storage, insert);
    var t1, t2 := clock1(|fields|), clock2(|fields|);
    if StorageKey(t1, filename) == StorageKey(t2, filename) {
      KeyInjective(t1, filename, t2, filename);
    }
  }
}
