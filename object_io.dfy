/** The object gateway (services/io/io.go): uploads are routed by content
    type either to the transcoder (audio and video) or straight into the
    object store; a multipart upload is a sequence of such uploads sharing
    one mutable uploader; downloads map store errors to HTTP statuses.

    The object store, its bucket processor, the transcoder, the metadata
    service behind it and the clock are collaborators whose answers are
    inputs: a `Backend` value gives, for every request the gateway can make,
    the answer it gets. */
module ObjectIO {
  import opened Basics
  import opened Records
  import opened KeyModifier

  /** A request body: at most MaxInt64 bytes, as io.Copy counts in int64. */
  type Payload = p: seq<Byte> | |p| <= MaxInt64

  /** ebucket.BucketMeta: a bucket's name and its storage groups. */
  datatype BucketMeta = BucketMeta(name: string, groups: seq<Uint32>)

  /** An elliptics error with its code, or any other failure of the store. */
  datatype StoreError = DnetError(code: int) | OtherStoreError(reason: string)

  /** The store's "no such entry" code. */
  const ErrNoEntry := -2

  /** A write of `payload` under `key`, announced as `size` bytes. */
  datatype WriteRequest = WriteRequest(bucket: BucketMeta, key: string, size: Uint64, payload: Payload)

  /** The POST to the transcoder. `contentLength` is None when the request
      leaves Go's ContentLength unset (length unknown). */
  datatype TranscodeRequest = TranscodeRequest(
    url: string,
    contentLength: Option<Int64>,
    contentType: string,
    bucket: string,
    key: string,
    groups: string,
    metaBucket: string,
    metaKey: string,
    metaGroups: string,
    payload: Payload)

  /** The transcoder's decoded answer (nullx.Reply with its media). */
  datatype TranscoderReply = TranscoderReply(
    bucket: string,
    key: string,
    size: Uint64,
    metaSize: Uint64,
    metaBucket: string,
    metaKey: string,
    timestamp: Time,
    media: Option<seq<Track>>)

  /** The GET to the metadata service. */
  datatype MetaRequest = MetaRequest(url: string, bucket: string, key: string, groups: string)

  /** Its answer: a status, and whether copying the body to the client
      failed. */
  datatype MetaResponse = MetaResponse(status: int, copyError: Option<string>)

  /** What the collaborators answer. */
  datatype Backend = Backend(
    sessionError: Option<StoreError>,
    getBucket: Uint64 -> Result<BucketMeta, StoreError>,
    findBucket: string -> Result<BucketMeta, StoreError>,
    write: WriteRequest -> Option<StoreError>,
    clock: WriteRequest -> Time,
    transcode: TranscodeRequest -> Result<TranscoderReply, string>,
    open: (BucketMeta, string) -> Option<StoreError>,
    deliver: (BucketMeta, string) -> Option<string>,
    fetchMeta: MetaRequest -> Result<MetaResponse, string>)

  datatype IoError =
    | SessionFailed(cause: StoreError)
    | BucketFailed(cause: StoreError)
    | WriteFailed(cause: StoreError)
    | TranscodeFailed(reason: string)
    | PartFailed(reason: string)
    | FindFailed(cause: StoreError)
    | OpenFailed(cause: StoreError)
    | CopyFailed(reason: string)
    | MetaFetchFailed(reason: string)
    | MetaStatus(status: int)

  /** One part of a multipart body. */
  datatype Part = Part(filename: string, contentType: string, payload: Payload)

  /** How the part iterator ends: io.EOF, or another error. */
  datatype PartsEnd = Eof | PartError(reason: string)

  /** A request body: a plain stream, or the parts a multipart reader
      yields. */
  datatype Body = Single(payload: Payload) | Multipart(parts: seq<Part>, end: PartsEnd)

  datatype HttpRequest = HttpRequest(contentLength: Int64, contentType: string, body: Body)

  /** The declared size of an upload: ContentLength when positive, else 0
      (unknown lengths are -1). */
  function DeclaredSize(contentLength: Int64): (size: Uint64)
    ensures contentLength > 0 ==> size == contentLength
    ensures contentLength <= 0 ==> size == 0
  {
    if contentLength > 0 then contentLength else 0
  }

  /** The routing test of Do: audio and video go to the transcoder. */
  predicate IsMedia(ctype: string) {
    HasPrefix(ctype, AudioPrefix) || HasPrefix(ctype, VideoPrefix)
  }

  /** Routing agrees with the media classification: exactly the audio and
      video types are transcoded; images and the empty type are stored
      directly. */
  lemma RouteByPrefix(ctype: string)
    ensures IsMedia(ctype) <==> Classify(ctype) == Audio || Classify(ctype) == Video
    ensures HasPrefix(ctype, ImagePrefix) ==> !IsMedia(ctype)
    ensures !IsMedia("")
  {
    if HasPrefix(ctype, ImagePrefix) {
      assert ctype[0] == 'i';
    }
  }

  /** The transcoder request UploadMedia builds for a chosen bucket. */
  function MediaRequest(host: string, meta: BucketMeta, key: string, metaKey: string, size: Uint64, ctype: string, payload: Payload): (q: TranscodeRequest)
    ensures q.contentLength.Some? <==> size != 0
    ensures q.contentLength.Some? ==> q.contentLength.value == ToInt64(size)
    ensures q.key == key && q.metaKey == metaKey && q.contentType == ctype && q.payload == payload
    ensures q.bucket == meta.name && q.metaBucket == meta.name
    ensures q.groups == q.metaGroups
  {
    var groups := DecimalList(meta.groups, ':');
    TranscodeRequest(
      "http://" + host + "/transcode/" + key,
      if size != 0 then Some(ToInt64(size)) else None,
      ctype, meta.name, key, groups, meta.name, metaKey, groups, payload)
  }

  /** After a direct-store part has replaced an unknown size by MaxUint64, a
      later media part announces a ContentLength of -1. */
  lemma MediaLengthAfterSubstitution(host: string, meta: BucketMeta, key: string, metaKey: string, ctype: string, payload: Payload)
    ensures MediaRequest(host, meta, key, metaKey, MaxUint64, ctype, payload).contentLength == Some(-1)
  {
  }

  /** UploadMedia, given the uploader's fields: a failed bucket choice or
      transcoder call is the error; otherwise the reply is the transcoder's,
      field by field, under the uploader's content type. */
  function MediaUpload(b: Backend, host: string, key: string, metaKey: string, size: Uint64, ctype: string, payload: Payload): (r: Result<Reply, IoError>)
    ensures b.getBucket(size).Err? ==> r == Err(BucketFailed(b.getBucket(size).error))
    ensures b.getBucket(size).Ok? ==>
      var t := b.transcode(MediaRequest(host, b.getBucket(size).value, key, metaKey, size, ctype, payload));
      (r.Err? <==> t.Err?) && (t.Err? ==> r == Err(TranscodeFailed(t.error)))
    ensures r.Ok? ==> r.value.contentType == ctype
    ensures r.Ok? ==> b.getBucket(size).Ok?
    ensures r.Ok? && b.getBucket(size).Ok? ==>
      var t := b.transcode(MediaRequest(host, b.getBucket(size).value, key, metaKey, size, ctype, payload));
      t.Ok?
      && r.value.bucket == t.value.bucket && r.value.key == t.value.key && r.value.size == t.value.size
      && r.value.metaBucket == t.value.metaBucket && r.value.metaKey == t.value.metaKey && r.value.metaSize == t.value.metaSize
      && r.value.timestamp == t.value.timestamp && r.value.media == t.value.media
  {
    var m := b.getBucket(size);
    if m.Err? then Err(BucketFailed(m.error))
    else
      var t := b.transcode(MediaRequest(host, m.value, key, metaKey, size, ctype, payload));
      if t.Err? then Err(TranscodeFailed(t.error))
      else
        var v := t.value;
        Ok(Reply("", v.bucket, v.key, v.size, v.metaSize, v.metaBucket, v.metaKey, ctype, v.timestamp, v.media))
  }

  /** A reply and the uploader's size afterwards. */
  datatype DoResult = DoResult(reply: Result<Reply, IoError>, size: Uint64)

  /** UploadData, given the uploader's fields: the bucket is chosen with the
      declared size, then an unknown size (0) becomes MaxUint64 for the write
      and for the uploader from then on. */
  function DataUpload(b: Backend, key: string, size: Uint64, payload: Payload): (d: DoResult)
    ensures d.size == size || (size == 0 && d.size == MaxUint64)
    ensures d.reply.Ok? ==> d.reply.value.key == key && d.reply.value.size == |payload| && d.reply.value.metaKey == ""
    ensures d.reply.Ok? ==> b.getBucket(size).Ok? && d.reply.value.bucket == b.getBucket(size).value.name
  {
    if b.sessionError.Some? then DoResult(Err(SessionFailed(b.sessionError.value)), size)
    else
      var m := b.getBucket(size);
      if m.Err? then DoResult(Err(BucketFailed(m.error)), size)
      else
        var size' := if size == 0 then MaxUint64 else size;
        var w := WriteRequest(m.value, key, size', payload);
        if b.write(w).Some? then DoResult(Err(WriteFailed(b.write(w).value)), size')
        else DoResult(Ok(Reply("", m.value.name, key, |payload|, 0, "", "", "", b.clock(w), None)), size')
  }

  /** The fields Do sets on a reply. */
  function Stamp(r: Result<Reply, IoError>, ctype: string, keyOrig: string): Result<Reply, IoError> {
    if r.Ok? then Ok(r.value.(contentType := ctype, name := keyOrig)) else r
  }

  /** Do, with a failing backend call returned as an error. */
  function DoSpec(b: Backend, host: string, keyOrig: string, key: string, metaKey: string, size: Uint64, ctype: string, payload: Payload): (d: DoResult)
    ensures d.reply.Ok? ==> d.reply.value.contentType == ctype && d.reply.value.name == keyOrig
    ensures IsMedia(ctype) ==> d.size == size
    ensures !IsMedia(ctype) && d.reply.Ok? ==> d.reply.value.key == key && d.reply.value.size == |payload|
  {
    if IsMedia(ctype) then DoResult(Stamp(MediaUpload(b, host, key, metaKey, size, ctype, payload), ctype, keyOrig), size)
    else
      var d := DataUpload(b, key, size, payload);
      DoResult(Stamp(d.reply, ctype, keyOrig), d.size)
  }

  /** A media upload fails exactly when the bucket choice or the transcoder
      does; otherwise Do hands back the transcoder's reply, media tracks
      included, renamed to the URL key and typed by the uploader. */
  lemma MediaDoIsTranscoderReply(b: Backend, host: string, keyOrig: string, key: string, metaKey: string, size: Uint64, ctype: string, payload: Payload)
    requires IsMedia(ctype)
    ensures var d := DoSpec(b, host, keyOrig, key, metaKey, size, ctype, payload);
      d.size == size
      && (b.getBucket(size).Err? ==> d.reply == Err(BucketFailed(b.getBucket(size).error)))
      && (b.getBucket(size).Ok? ==>
          var t := b.transcode(MediaRequest(host, b.getBucket(size).value, key, metaKey, size, ctype, payload));
          (t.Err? ==> d.reply == Err(TranscodeFailed(t.error)))
          && (t.Ok? ==> d.reply.Ok? && d.reply.value.media == t.value.media && d.reply.value.key == t.value.key
                        && d.reply.value.bucket == t.value.bucket && d.reply.value.name == keyOrig && d.reply.value.contentType == ctype))
  {
  }

  /** What Do does as written: it writes to the reply before looking at the
      error, so a failed backend call dereferences a nil reply. */
  datatype DoOutcome = Completed(result: DoResult) | NilDereference

  function DoAsWritten(b: Backend, host: string, keyOrig: string, key: string, metaKey: string, size: Uint64, ctype: string, payload: Payload): DoOutcome {
    var d := if IsMedia(ctype) then DoResult(MediaUpload(b, host, key, metaKey, size, ctype, payload), size)
             else DataUpload(b, key, size, payload);
    if d.reply.Err? then NilDereference
    else Completed(DoResult(Stamp(d.reply, ctype, keyOrig), d.size))
  }

  /** Do as written panics exactly when a backend call fails, so the error
      never reaches Upload; otherwise it agrees with DoSpec. */
  lemma DoAsWrittenPanics(b: Backend, host: string, keyOrig: string, key: string, metaKey: string, size: Uint64, ctype: string, payload: Payload)
    ensures DoAsWritten(b, host, keyOrig, key, metaKey, size, ctype, payload).NilDereference?
      <==> DoSpec(b, host, keyOrig, key, metaKey, size, ctype, payload).reply.Err?
    ensures DoAsWritten(b, host, keyOrig, key, metaKey, size, ctype, payload).Completed? ==>
      DoAsWritten(b, host, keyOrig, key, metaKey, size, ctype, payload).result == DoSpec(b, host, keyOrig, key, metaKey, size, ctype, payload)
  {
  }

  /** A concrete case: a store without buckets makes a plain upload panic
      where the corrected Do returns the bucket error. */
  lemma DoPanicsWithoutBucket(key: string, payload: Payload)
    ensures var noBucket := (s: Uint64) => Err(OtherStoreError("no bucket"));
      var b := Backend(None, noBucket, (n: string) => Err(OtherStoreError("")), (w: WriteRequest) => None,
                       (w: WriteRequest) => 0, (q: TranscodeRequest) => Err(""), (m: BucketMeta, k: string) => None,
                       (m: BucketMeta, k: string) => None, (q: MetaRequest) => Err(""));
      DoAsWritten(b, "", key, key, key, 0, "text/plain", payload) == NilDereference
      && DoSpec(b, "", key, key, key, 0, "text/plain", payload).reply == Err(BucketFailed(OtherStoreError("no bucket")))
  {
    assert !IsMedia("text/plain") by {
      assert "text/plain"[0] == 't';
    }
  }

  /** The content type in effect after a run of parts: a part's non-empty
      Content-Type replaces the current one, an empty one keeps it. */
  function EffectiveType(current: string, parts: seq<Part>): string
    decreases |parts|
  {
    if parts == [] then current
    else EffectiveType(if parts[0].contentType != "" then parts[0].contentType else current, parts[1..])
  }

  /** The type in effect is the last non-empty part type seen; a part
      without a type inherits the one before it. */
  lemma {:induction false} EffectiveTypeLast(current: string, parts: seq<Part>)
    requires parts != []
    ensures var last := parts[|parts| - 1];
      EffectiveType(current, parts) ==
        if last.contentType != "" then last.contentType else EffectiveType(current, parts[..|parts| - 1])
    decreases |parts|
  {
    var next := if parts[0].contentType != "" then parts[0].contentType else current;
    if |parts| > 1 {
      EffectiveTypeLast(next, parts[1..]);
      assert parts[1..][..|parts| - 2] == parts[..|parts| - 1][1..];
    }
  }

  /** The uploader's state carried from one part to the next. */
  datatype Carry = Carry(ctype: string, size: Uint64)

  /** The multipart loop of Upload: parts in arrival order, aborting at the
      first failure, then the iterator's own end. */
  function PartsSpec(b: Backend, host: string, keyOrig: string, modifier: Modifier, parts: seq<Part>, end: PartsEnd, carry: Carry): Result<seq<Reply>, IoError>
    decreases |parts|
  {
    if parts == [] then (if end.PartError? then Err(PartFailed(end.reason)) else Ok([]))
    else
      var p := parts[0];
      var ctype := if p.contentType != "" then p.contentType else carry.ctype;
      var d := DoSpec(b, host, keyOrig, modifier(p.filename), modifier(MetaModifier(p.filename)), carry.size, ctype, p.payload);
      if d.reply.Err? then Err(d.reply.error)
      else
        var rest := PartsSpec(b, host, keyOrig, modifier, parts[1..], end, Carry(ctype, d.size));
        if rest.Err? then rest else Ok([d.reply.value] + rest.value)
  }

  /** Upload, as a function of the request. */
  function UploadSpec(b: Backend, host: string, req: HttpRequest, key: string, modifier: Modifier): Result<seq<Reply>, IoError> {
    var size := DeclaredSize(req.contentLength);
    match req.body
    case Single(payload) =>
      var d := DoSpec(b, host, key, modifier(key), modifier(MetaModifier(key)), size, req.contentType, payload);
      if d.reply.Err? then Err(d.reply.error) else Ok([d.reply.value])
    case Multipart(parts, end) => PartsSpec(b, host, key, modifier, parts, end, Carry(req.contentType, size))
  }

  /** What each reply of a multipart upload looks like: named by the URL
      key, typed by the type in effect, and, when stored directly, keyed by
      the part's filename and sized by the bytes copied. */
  predicate PartReply(r: Reply, p: Part, keyOrig: string, modifier: Modifier, ctype: string) {
    r.name == keyOrig && r.contentType == ctype
    && (!IsMedia(ctype) ==> r.key == modifier(p.filename) && r.size == |p.payload|)
  }

  /** A multipart upload that succeeds has one reply per part, in arrival
      order, each shaped by its part and the content type in effect. */
  lemma {:induction false} PartsReplies(b: Backend, host: string, keyOrig: string, modifier: Modifier, parts: seq<Part>, end: PartsEnd, carry: Carry)
    requires PartsSpec(b, host, keyOrig, modifier, parts, end, carry).Ok?
    ensures var rs := PartsSpec(b, host, keyOrig, modifier, parts, end, carry).value;
      |rs| == |parts|
      && forall i :: 0 <= i < |parts| ==> PartReply(rs[i], parts[i], keyOrig, modifier, EffectiveType(carry.ctype, parts[..i + 1]))
    decreases |parts|
  {
    if parts != [] {
      var p := parts[0];
      var ctype := if p.contentType != "" then p.contentType else carry.ctype;
      var d := DoSpec(b, host, keyOrig, modifier(p.filename), modifier(MetaModifier(p.filename)), carry.size, ctype, p.payload);
      PartsStep(b, host, keyOrig, modifier, parts, end, carry, d);
      var tail := parts[1..];
      var next := Carry(ctype, d.size);
      PartsReplies(b, host, keyOrig, modifier, tail, end, next);
      var rest := PartsSpec(b, host, keyOrig, modifier, tail, end, next).value;
      var rs := PartsSpec(b, host, keyOrig, modifier, parts, end, carry).value;
      assert rs == [d.reply.value] + rest;
      RepliesCons(d.reply.value, rest, parts, keyOrig, modifier, carry.ctype);
    }
  }

  /** The shape of the replies carries over from the rest of the parts to
      the whole, given the first reply's shape. */
  lemma RepliesCons(first: Reply, rest: seq<Reply>, parts: seq<Part>, keyOrig: string, modifier: Modifier, current: string)
    requires parts != [] && |rest| == |parts| - 1
    requires var ctype := if parts[0].contentType != "" then parts[0].contentType else current;
      PartReply(first, parts[0], keyOrig, modifier, ctype)
      && forall i :: 0 <= i < |rest| ==> PartReply(rest[i], parts[1..][i], keyOrig, modifier, EffectiveType(ctype, parts[1..][..i + 1]))
    ensures forall i :: 0 <= i < |parts| ==> PartReply(([first] + rest)[i], parts[i], keyOrig, modifier, EffectiveType(current, parts[..i + 1]))
  {
    var rs := [first] + rest;
    forall i | 0 <= i < |parts|
      ensures PartReply(rs[i], parts[i], keyOrig, modifier, EffectiveType(current, parts[..i + 1]))
    {
      EffectiveTypeCons(current, parts, i);
      if i > 0 {
        assert parts[i] == parts[1..][i - 1] && rs[i] == rest[i - 1];
      }
    }
  }

  /** The type in effect after the first i + 1 parts: the first part's, or
      the one the later parts leave starting from it. */
  lemma EffectiveTypeCons(current: string, parts: seq<Part>, i: nat)
    requires i < |parts|
    ensures var next := if parts[0].contentType != "" then parts[0].contentType else current;
      EffectiveType(current, parts[..i + 1]) == if i == 0 then next else EffectiveType(next, parts[1..][..i])
  {
    assert parts[..i + 1][1..] == parts[1..][..i];
  }

  /** An iterator error fails the whole upload whatever the parts did; no
      parts and a clean end give an empty list. */
  lemma {:induction false} PartsFailure(b: Backend, host: string, keyOrig: string, modifier: Modifier, parts: seq<Part>, end: PartsEnd, carry: Carry)
    ensures end.PartError? ==> PartsSpec(b, host, keyOrig, modifier, parts, end, carry).Err?
    ensures parts == [] && end.Eof? ==> PartsSpec(b, host, keyOrig, modifier, parts, end, carry) == Ok([])
    decreases |parts|
  {
    if parts != [] {
      var p := parts[0];
      var ctype := if p.contentType != "" then p.contentType else carry.ctype;
      var d := DoSpec(b, host, keyOrig, modifier(p.filename), modifier(MetaModifier(p.filename)), carry.size, ctype, p.payload);
      PartsFailure(b, host, keyOrig, modifier, parts[1..], end, Carry(ctype, d.size));
    }
  }

  /** The Do a part runs under the state carried to it. */
  function PartDo(b: Backend, host: string, keyOrig: string, modifier: Modifier, p: Part, carry: Carry): DoResult {
    DoSpec(b, host, keyOrig, modifier(p.filename), modifier(MetaModifier(p.filename)), carry.size,
      if p.contentType != "" then p.contentType else carry.ctype, p.payload)
  }

  /** The state a part leaves for the next one. */
  function NextCarry(b: Backend, host: string, keyOrig: string, modifier: Modifier, p: Part, carry: Carry): Carry {
    Carry(if p.contentType != "" then p.contentType else carry.ctype, PartDo(b, host, keyOrig, modifier, p, carry).size)
  }

  /** The state carried past a run of parts. */
  function CarryAfter(b: Backend, host: string, keyOrig: string, modifier: Modifier, parts: seq<Part>, carry: Carry): Carry
    decreases |parts|
  {
    if parts == [] then carry
    else CarryAfter(b, host, keyOrig, modifier, parts[1..], NextCarry(b, host, keyOrig, modifier, parts[0], carry))
  }

  /** Every part of a run uploads successfully. */
  predicate PartsSucceed(b: Backend, host: string, keyOrig: string, modifier: Modifier, parts: seq<Part>, carry: Carry)
    decreases |parts|
  {
    parts == [] ||
    (PartDo(b, host, keyOrig, modifier, parts[0], carry).reply.Ok?
     && PartsSucceed(b, host, keyOrig, modifier, parts[1..], NextCarry(b, host, keyOrig, modifier, parts[0], carry)))
  }

  /** Part k is the first part whose upload fails. */
  predicate FailsAt(b: Backend, host: string, keyOrig: string, modifier: Modifier, parts: seq<Part>, carry: Carry, k: nat) {
    k < |parts|
    && PartsSucceed(b, host, keyOrig, modifier, parts[..k], carry)
    && PartDo(b, host, keyOrig, modifier, parts[k], CarryAfter(b, host, keyOrig, modifier, parts[..k], carry)).reply.Err?
  }

  /** The error of part k's upload. */
  function PartError(b: Backend, host: string, keyOrig: string, modifier: Modifier, parts: seq<Part>, carry: Carry, k: nat): IoError
    requires FailsAt(b, host, keyOrig, modifier, parts, carry, k)
  {
    PartDo(b, host, keyOrig, modifier, parts[k], CarryAfter(b, host, keyOrig, modifier, parts[..k], carry)).reply.error
  }

  /** The multipart loop stops at the first failure: the upload fails
      exactly when the iterator ends in an error or some part fails; when
      part k fails first, its error is the upload's, whatever the iterator
      does afterwards; when every part succeeds, an iterator error is the
      upload's error. */
  lemma {:induction false} PartsAbortAt(b: Backend, host: string, keyOrig: string, modifier: Modifier, parts: seq<Part>, end: PartsEnd, carry: Carry)
    ensures PartsSpec(b, host, keyOrig, modifier, parts, end, carry).Err?
      <==> end.PartError? || exists k: nat :: FailsAt(b, host, keyOrig, modifier, parts, carry, k)
    ensures forall k: nat :: FailsAt(b, host, keyOrig, modifier, parts, carry, k) ==>
      PartsSpec(b, host, keyOrig, modifier, parts, end, carry) == Err(PartError(b, host, keyOrig, modifier, parts, carry, k))
    ensures PartsSucceed(b, host, keyOrig, modifier, parts, carry) && end.PartError? ==>
      PartsSpec(b, host, keyOrig, modifier, parts, end, carry) == Err(PartFailed(end.reason))
    decreases |parts|
  {
    if parts == [] {
      forall k: nat ensures !FailsAt(b, host, keyOrig, modifier, parts, carry, k) {
      }
    } else {
      var p := parts[0];
      var d := PartDo(b, host, keyOrig, modifier, p, carry);
      var next := NextCarry(b, host, keyOrig, modifier, p, carry);
      var tail := parts[1..];
      PartsStep(b, host, keyOrig, modifier, parts, end, carry, d);
      var whole := PartsSpec(b, host, keyOrig, modifier, parts, end, carry);
      if d.reply.Err? {
        assert whole == Err(d.reply.error);
        FailsFirst(b, host, keyOrig, modifier, parts, carry);
      } else {
        var rest := PartsSpec(b, host, keyOrig, modifier, tail, end, next);
        assert whole.Err? <==> rest.Err?;
        assert rest.Err? ==> whole == rest;
        PartsAbortAt(b, host, keyOrig, modifier, tail, end, next);
        FailsAfterFirst(b, host, keyOrig, modifier, parts, carry);
      }
    }
  }

  /** A first part that fails is the first failure, and the only one. */
  lemma FailsFirst(b: Backend, host: string, keyOrig: string, modifier: Modifier, parts: seq<Part>, carry: Carry)
    requires parts != [] && PartDo(b, host, keyOrig, modifier, parts[0], carry).reply.Err?
    ensures FailsAt(b, host, keyOrig, modifier, parts, carry, 0)
    ensures PartError(b, host, keyOrig, modifier, parts, carry, 0) == PartDo(b, host, keyOrig, modifier, parts[0], carry).reply.error
    ensures forall k: nat :: FailsAt(b, host, keyOrig, modifier, parts, carry, k) ==> k == 0
    ensures !PartsSucceed(b, host, keyOrig, modifier, parts, carry)
  {
    assert parts[..0] == [];
  }

  /** Past a first part that succeeds, the failures of the run are those of
      the rest, one place later and with the same errors. */
  lemma FailsAfterFirst(b: Backend, host: string, keyOrig: string, modifier: Modifier, parts: seq<Part>, carry: Carry)
    requires parts != [] && PartDo(b, host, keyOrig, modifier, parts[0], carry).reply.Ok?
    ensures var next := NextCarry(b, host, keyOrig, modifier, parts[0], carry);
      && (PartsSucceed(b, host, keyOrig, modifier, parts, carry) <==> PartsSucceed(b, host, keyOrig, modifier, parts[1..], next))
      && ((exists k: nat :: FailsAt(b, host, keyOrig, modifier, parts, carry, k)) <==>
          (exists k: nat :: FailsAt(b, host, keyOrig, modifier, parts[1..], next, k)))
      && forall k: nat :: FailsAt(b, host, keyOrig, modifier, parts, carry, k) ==>
          k > 0 && FailsAt(b, host, keyOrig, modifier, parts[1..], next, k - 1)
          && PartError(b, host, keyOrig, modifier, parts, carry, k) == PartError(b, host, keyOrig, modifier, parts[1..], next, k - 1)
  {
    var next := NextCarry(b, host, keyOrig, modifier, parts[0], carry);
    assert !FailsAt(b, host, keyOrig, modifier, parts, carry, 0) by {
      assert parts[..0] == [];
    }
    forall k: nat | FailsAt(b, host, keyOrig, modifier, parts, carry, k)
      ensures k > 0 && FailsAt(b, host, keyOrig, modifier, parts[1..], next, k - 1)
      ensures PartError(b, host, keyOrig, modifier, parts, carry, k) == PartError(b, host, keyOrig, modifier, parts[1..], next, k - 1)
    {
      FailsShift(b, host, keyOrig, modifier, parts, carry, k);
    }
    forall k: nat | FailsAt(b, host, keyOrig, modifier, parts[1..], next, k)
      ensures FailsAt(b, host, keyOrig, modifier, parts, carry, k + 1)
    {
      FailsShift(b, host, keyOrig, modifier, parts, carry, k + 1);
    }
  }

  /** Past a first part that succeeds, failing first at k is failing first
      at k - 1 in the rest, with the same error. */
  lemma FailsShift(b: Backend, host: string, keyOrig: string, modifier: Modifier, parts: seq<Part>, carry: Carry, k: nat)
    requires 0 < k && parts != [] && PartDo(b, host, keyOrig, modifier, parts[0], carry).reply.Ok?
    ensures var next := NextCarry(b, host, keyOrig, modifier, parts[0], carry);
      (FailsAt(b, host, keyOrig, modifier, parts, carry, k) <==> FailsAt(b, host, keyOrig, modifier, parts[1..], next, k - 1))
      && (FailsAt(b, host, keyOrig, modifier, parts, carry, k) ==>
          PartError(b, host, keyOrig, modifier, parts, carry, k) == PartError(b, host, keyOrig, modifier, parts[1..], next, k - 1))
  {
    if k < |parts| {
      var pre := parts[..k];
      assert pre[0] == parts[0] && pre[1..] == parts[1..][..k - 1];
      assert parts[k] == parts[1..][k - 1];
    }
  }

  /** Once part k has failed first, neither the later parts nor the
      iterator's end change the outcome. */
  lemma PartsAbortIgnoresRest(b: Backend, host: string, keyOrig: string, modifier: Modifier, parts: seq<Part>, end: PartsEnd, carry: Carry, k: nat, later: seq<Part>, end2: PartsEnd)
    requires FailsAt(b, host, keyOrig, modifier, parts, carry, k)
    ensures PartsSpec(b, host, keyOrig, modifier, parts[..k + 1] + later, end2, carry) == PartsSpec(b, host, keyOrig, modifier, parts, end, carry)
  {
    var other := parts[..k + 1] + later;
    assert other[..k] == parts[..k] && other[k] == parts[k];
    assert FailsAt(b, host, keyOrig, modifier, other, carry, k);
    PartsAbortAt(b, host, keyOrig, modifier, parts, end, carry);
    PartsAbortAt(b, host, keyOrig, modifier, other, end2, carry);
  }

  /** The size an unknown-length upload starts with stays 0 until a direct
      store replaces it, and then stays MaxUint64; a known size never
      changes. */
  lemma CarriedSize(b: Backend, host: string, keyOrig: string, key: string, metaKey: string, size: Uint64, ctype: string, payload: Payload)
    ensures var d := DoSpec(b, host, keyOrig, key, metaKey, size, ctype, payload);
      (size != 0 ==> d.size == size)
      && (size == 0 ==> d.size == 0 || d.size == MaxUint64)
      && (size == 0 && !IsMedia(ctype) && b.sessionError.None? && b.getBucket(0).Ok? ==> d.size == MaxUint64)
  {
  }

  /** A single-stream upload that succeeds yields exactly one reply, named
      by the key and, when stored directly, stored under modifier(key). */
  lemma SingleUpload(b: Backend, host: string, req: HttpRequest, key: string, modifier: Modifier)
    requires req.body.Single? && UploadSpec(b, host, req, key, modifier).Ok?
    ensures var rs := UploadSpec(b, host, req, key, modifier).value;
      |rs| == 1 && rs[0].name == key && rs[0].contentType == req.contentType
      && (!IsMedia(req.contentType) ==> rs[0].key == modifier(key) && rs[0].size == |req.body.payload|)
  {
  }

  /** The status of a download, and its error. */
  datatype Status = Status(code: int, err: Option<IoError>)

  /** GetKey, given the collaborators' answers. */
  function GetKeyResult(b: Backend, bucket: string, key: string): Status {
    if b.sessionError.Some? then Status(StatusServiceUnavailable, Some(SessionFailed(b.sessionError.value)))
    else if b.findBucket(bucket).Err? then Status(StatusServiceUnavailable, Some(FindFailed(b.findBucket(bucket).error)))
    else
      var meta := b.findBucket(bucket).value;
      if b.open(meta, key).Some? then
        var e := b.open(meta, key).value;
        Status(if e.DnetError? && e.code == ErrNoEntry then StatusNotFound else StatusServiceUnavailable, Some(OpenFailed(e)))
      else if b.deliver(meta, key).Some? then Status(StatusServiceUnavailable, Some(CopyFailed(b.deliver(meta, key).value)))
      else Status(StatusOK, None)
  }

  /** Store error -2 on open means 404; every other failure means 503;
      success, and only success, means 200. */
  lemma GetKeyStatusMapping(b: Backend, bucket: string, key: string)
    ensures var s := GetKeyResult(b, bucket, key);
      (s.code == StatusOK <==> s.err.None?)
      && (s.code == StatusNotFound <==>
            b.sessionError.None? && b.findBucket(bucket).Ok?
            && b.open(b.findBucket(bucket).value, key) == Some(DnetError(ErrNoEntry)))
      && (s.code == StatusOK || s.code == StatusNotFound || s.code == StatusServiceUnavailable)
  {
  }

  /** MetaJson, given the collaborators' answers. The metadata lives under
      the derived meta key; the X-Ell-Key header carries the caller's key. */
  function MetaJsonResult(b: Backend, host: string, bucket: string, key: string, modifier: Modifier): Status {
    var mkey := modifier(MetaModifier(key));
    if b.findBucket(bucket).Err? then Status(StatusServiceUnavailable, Some(FindFailed(b.findBucket(bucket).error)))
    else
      var meta := b.findBucket(bucket).value;
      var q := MetaRequest("http://" + host + "/meta_json/" + bucket + "/" + mkey, meta.name, key, DecimalList(meta.groups, ':'));
      var resp := b.fetchMeta(q);
      if resp.Err? then Status(StatusServiceUnavailable, Some(MetaFetchFailed(resp.error)))
      else if resp.value.status != StatusOK then Status(resp.value.status, Some(MetaStatus(resp.value.status)))
      else if resp.value.copyError.Some? then Status(StatusServiceUnavailable, Some(CopyFailed(resp.value.copyError.value)))
      else Status(StatusOK, None)
  }

  /** A non-200 answer of the metadata service is passed through with its
      own status. */
  lemma MetaJsonPassThrough(b: Backend, host: string, bucket: string, key: string, modifier: Modifier)
    requires b.findBucket(bucket).Ok?
    ensures var meta := b.findBucket(bucket).value;
      var q := MetaRequest("http://" + host + "/meta_json/" + bucket + "/" + modifier(MetaModifier(key)), meta.name, key, DecimalList(meta.groups, ':'));
      b.fetchMeta(q).Ok? && b.fetchMeta(q).value.status != StatusOK ==>
        MetaJsonResult(b, host, bucket, key, modifier) == Status(b.fetchMeta(q).value.status, Some(MetaStatus(b.fetchMeta(q).value.status)))
  {
  }

  /** io.IOCtl */
  class IOCtl {
    const backend: Backend
    const transcodingHost: string

    constructor (backend0: Backend, host: string)
      ensures backend == backend0 && transcodingHost == host
    {
      backend := backend0;
      transcodingHost := host;
    }

    /** Upload */
    method Upload(req: HttpRequest, key: string, modifier: Modifier) returns (r: Result<seq<Reply>, IoError>)
      ensures r == UploadSpec(backend, transcodingHost, req, key, modifier)
    {
      var size := DeclaredSize(req.contentLength);
      var u := new Uploader(this, key, modifier(key), modifier(MetaModifier(key)), size, req.contentType);
      match req.body {
        case Single(payload) =>
          u.reader := payload;
          var reply := u.Do();
          if reply.Err? {
            return Err(reply.error);
          }
          return Ok([reply.value]);
        case Multipart(parts, end) =>
          r := UploadParts(u, parts, end, key, modifier);
      }
    }

    /** The multipart loop of Upload: every part reuses the one uploader,
        which keeps its content type and size from part to part. */
    method UploadParts(u: Uploader, parts: seq<Part>, end: PartsEnd, key: string, modifier: Modifier) returns (r: Result<seq<Reply>, IoError>)
      requires u.ctl == this && u.keyOrig == key
      modifies u
      ensures r == PartsSpec(backend, transcodingHost, key, modifier, parts, end, Carry(old(u.ctype), old(u.size)))
    {
      ghost var cur := Carry(u.ctype, u.size);
      ghost var whole := PartsSpec(backend, transcodingHost, key, modifier, parts, end, cur);
      var replies: seq<Reply> := [];
      var i := 0;
      assert parts[0..] == parts;
      PrependNothing(whole);
      while i < |parts|
        invariant 0 <= i <= |parts|
        invariant u.ctl == this && u.keyOrig == key && cur == Carry(u.ctype, u.size)
        invariant whole == Prepend(replies, PartsSpec(backend, transcodingHost, key, modifier, parts[i..], end, cur))
      {
        var reply;
        reply, cur := UploadStep(u, parts, i, end, key, modifier, replies, cur, whole);
        if reply.Err? {
          return Err(reply.error);
        }
        replies := replies + [reply.value];
        i := i + 1;
      }
      assert parts[i..] == [];
      PartsEmpty(backend, transcodingHost, key, modifier, end, cur);
      if end.PartError? {
        return Err(PartFailed(end.reason));
      }
      assert replies + [] == replies;
      return Ok(replies);
    }

    /** One turn of the loop of UploadParts, in terms of the parts still to
        come: the part at i either fails the upload or moves its reply to
        the replies already gathered. */
    method UploadStep(u: Uploader, parts: seq<Part>, i: nat, end: PartsEnd, key: string, modifier: Modifier, replies: seq<Reply>, ghost cur: Carry, ghost whole: Result<seq<Reply>, IoError>) returns (reply: Result<Reply, IoError>, ghost next: Carry)
      requires u.ctl == this && u.keyOrig == key && cur == Carry(u.ctype, u.size) && i < |parts|
      requires whole == Prepend(replies, PartsSpec(backend, transcodingHost, key, modifier, parts[i..], end, cur))
      modifies u
      ensures u.ctl == this && u.keyOrig == key && next == Carry(u.ctype, u.size)
      ensures reply.Err? ==> whole == Err(reply.error)
      ensures reply.Ok? ==> whole == Prepend(replies + [reply.value], PartsSpec(backend, transcodingHost, key, modifier, parts[i + 1..], end, next))
    {
      reply := UploadPart(u, parts[i], modifier);
      next := Carry(u.ctype, u.size);
      PartsAdvance(backend, transcodingHost, key, modifier, parts, i, end, cur, replies, DoResult(reply, u.size));
    }

    /** One part: the uploader takes the part's type when it declares one,
        its derived keys and its body, then runs Do. */
    method UploadPart(u: Uploader, p: Part, modifier: Modifier) returns (reply: Result<Reply, IoError>)
      requires u.ctl == this
      modifies u
      ensures u.ctl == this && u.keyOrig == old(u.keyOrig)
      ensures u.ctype == if p.contentType != "" then p.contentType else old(u.ctype)
      ensures DoResult(reply, u.size) ==
        DoSpec(backend, transcodingHost, u.keyOrig, modifier(p.filename), modifier(MetaModifier(p.filename)), old(u.size), u.ctype, p.payload)
    {
      if p.contentType != "" {
        u.ctype := p.contentType;
      }
      u.key := modifier(p.filename);
      u.metaKey := modifier(MetaModifier(p.filename));
      u.reader := p.payload;
      reply := u.Do();
    }

    /** GetKey */
    method GetKey(bucket: string, key: string) returns (status: Status)
      ensures status == GetKeyResult(backend, bucket, key)
    {
      if backend.sessionError.Some? {
        return Status(StatusServiceUnavailable, Some(SessionFailed(backend.sessionError.value)));
      }
      var meta := backend.findBucket(bucket);
      if meta.Err? {
        return Status(StatusServiceUnavailable, Some(FindFailed(meta.error)));
      }
      var openErr := backend.open(meta.value, key);
      if openErr.Some? {
        var code := StatusServiceUnavailable;
        if openErr.value.DnetError? {
          if openErr.value.code == ErrNoEntry {
            code := StatusNotFound;
          }
        }
        return Status(code, Some(OpenFailed(openErr.value)));
      }
      var copyErr := backend.deliver(meta.value, key);
      if copyErr.Some? {
        return Status(StatusServiceUnavailable, Some(CopyFailed(copyErr.value)));
      }
      return Status(StatusOK, None);
    }

    /** Get: download the caller's object under its derived key. */
    method Get(bucket: string, key: string, modifier: Modifier) returns (status: Status)
      ensures status == GetKeyResult(backend, bucket, modifier(key))
    {
      status := GetKey(bucket, modifier(key));
    }

    /** MetaJson */
    method MetaJson(bucket: string, key: string, modifier: Modifier) returns (status: Status)
      ensures status == MetaJsonResult(backend, transcodingHost, bucket, key, modifier)
    {
      var mkey := modifier(MetaModifier(key));
      var meta := backend.findBucket(bucket);
      if meta.Err? {
        return Status(StatusServiceUnavailable, Some(FindFailed(meta.error)));
      }
      var sgroups := DecimalList(meta.value.groups, ':');
      var url := "http://" + transcodingHost + "/meta_json/" + bucket + "/" + mkey;
      var resp := backend.fetchMeta(MetaRequest(url, meta.value.name, key, sgroups));
      if resp.Err? {
        return Status(StatusServiceUnavailable, Some(MetaFetchFailed(resp.error)));
      }
      if resp.value.status != StatusOK {
        return Status(resp.value.status, Some(MetaStatus(resp.value.status)));
      }
      if resp.value.copyError.Some? {
        return Status(StatusServiceUnavailable, Some(CopyFailed(resp.value.copyError.value)));
      }
      return Status(StatusOK, None);
    }
  }

  /** Replies already collected in front of the outcome of the rest. */
  function Prepend(done: seq<Reply>, rest: Result<seq<Reply>, IoError>): Result<seq<Reply>, IoError> {
    if rest.Err? then rest else Ok(done + rest.value)
  }

  /** One turn of the multipart loop, in terms of the part's Do. */
  lemma PartsStep(b: Backend, host: string, keyOrig: string, modifier: Modifier, parts: seq<Part>, end: PartsEnd, carry: Carry, d: DoResult)
    requires parts != []
    requires var p := parts[0];
      var ctype := if p.contentType != "" then p.contentType else carry.ctype;
      d == DoSpec(b, host, keyOrig, modifier(p.filename), modifier(MetaModifier(p.filename)), carry.size, ctype, p.payload)
    ensures var ctype := if parts[0].contentType != "" then parts[0].contentType else carry.ctype;
      PartsSpec(b, host, keyOrig, modifier, parts, end, carry) ==
        if d.reply.Err? then Err(d.reply.error)
        else
          var rest := PartsSpec(b, host, keyOrig, modifier, parts[1..], end, Carry(ctype, d.size));
          if rest.Err? then rest else Ok([d.reply.value] + rest.value)
  {
  }

  lemma PartsEmpty(b: Backend, host: string, keyOrig: string, modifier: Modifier, end: PartsEnd, carry: Carry)
    ensures PartsSpec(b, host, keyOrig, modifier, [], end, carry) == if end.PartError? then Err(PartFailed(end.reason)) else Ok([])
  {
  }

  lemma PrependNothing(rest: Result<seq<Reply>, IoError>)
    ensures Prepend([], rest) == rest
  {
    if rest.Ok? {
      assert [] + rest.value == rest.value;
    }
  }

  /** One turn of the loop of UploadParts: the part at i either fails the
      upload or moves its reply to the replies already gathered. */
  lemma PartsAdvance(b: Backend, host: string, keyOrig: string, modifier: Modifier, parts: seq<Part>, i: nat, end: PartsEnd, carry: Carry, done: seq<Reply>, d: DoResult)
    requires i < |parts|
    requires var p := parts[i];
      var ctype := if p.contentType != "" then p.contentType else carry.ctype;
      d == DoSpec(b, host, keyOrig, modifier(p.filename), modifier(MetaModifier(p.filename)), carry.size, ctype, p.payload)
    ensures var ctype := if parts[i].contentType != "" then parts[i].contentType else carry.ctype;
      Prepend(done, PartsSpec(b, host, keyOrig, modifier, parts[i..], end, carry)) ==
        if d.reply.Err? then Err(d.reply.error)
        else Prepend(done + [d.reply.value], PartsSpec(b, host, keyOrig, modifier, parts[i + 1..], end, Carry(ctype, d.size)))
  {
    var ctype := if parts[i].contentType != "" then parts[i].contentType else carry.ctype;
    PartsStep(b, host, keyOrig, modifier, parts[i..], end, carry, d);
    assert parts[i..][1..] == parts[i + 1..];
    if d.reply.Ok? {
      PrependCons(done, d.reply.value, PartsSpec(b, host, keyOrig, modifier, parts[i + 1..], end, Carry(ctype, d.size)));
    }
  }

  lemma PrependCons(done: seq<Reply>, r: Reply, rest: Result<seq<Reply>, IoError>)
    ensures Prepend(done, if rest.Err? then rest else Ok([r] + rest.value)) == Prepend(done + [r], rest)
  {
    if rest.Ok? {
      assert done + ([r] + rest.value) == (done + [r]) + rest.value;
    }
  }

  /** io.uploader: the state one upload request threads through its parts. */
  class Uploader {
    const ctl: IOCtl
    var keyOrig: string
    var key: string
    var metaKey: string
    var size: Uint64
    var ctype: string
    var reader: Payload

    constructor (ctl0: IOCtl, keyOrig0: string, key0: string, metaKey0: string, size0: Uint64, ctype0: string)
      ensures ctl == ctl0 && keyOrig == keyOrig0 && key == key0 && metaKey == metaKey0
      ensures size == size0 && ctype == ctype0 && reader == []
    {
      ctl := ctl0;
      keyOrig := keyOrig0;
      key := key0;
      metaKey := metaKey0;
      size := size0;
      ctype := ctype0;
      reader := [];
    }

    /** UploadMedia */
    method UploadMedia() returns (r: Result<Reply, IoError>)
      ensures r == MediaUpload(ctl.backend, ctl.transcodingHost, key, metaKey, size, ctype, reader)
    {
      var meta := ctl.backend.getBucket(size);
      if meta.Err? {
        return Err(BucketFailed(meta.error));
      }
      var q := MediaRequest(ctl.transcodingHost, meta.value, key, metaKey, size, ctype, reader);
      var t := ctl.backend.transcode(q);
      if t.Err? {
        return Err(TranscodeFailed(t.error));
      }
      var v := t.value;
      return Ok(Reply("", v.bucket, v.key, v.size, v.metaSize, v.metaBucket, v.metaKey, ctype, v.timestamp, v.media));
    }

    /** UploadData */
    method UploadData() returns (r: Result<Reply, IoError>)
      modifies this`size
      ensures DoResult(r, size) == DataUpload(ctl.backend, key, old(size), reader)
    {
      if ctl.backend.sessionError.Some? {
        return Err(SessionFailed(ctl.backend.sessionError.value));
      }
      var meta := ctl.backend.getBucket(size);
      if meta.Err? {
        return Err(BucketFailed(meta.error));
      }
      if size == 0 {
        size := MaxUint64;
      }
      var w := WriteRequest(meta.value, key, size, reader);
      var timestamp := ctl.backend.clock(w);
      var werr := ctl.backend.write(w);
      if werr.Some? {
        return Err(WriteFailed(werr.value));
      }
      return Ok(Reply("", meta.value.name, key, |reader|, 0, "", "", "", timestamp, None));
    }

    /** Do: route by content type, then name and type the reply. A failed
        upload is returned as its error (see DoAsWritten). */
    method Do() returns (r: Result<Reply, IoError>)
      modifies this`size
      ensures DoResult(r, size) == DoSpec(ctl.backend, ctl.transcodingHost, keyOrig, key, metaKey, old(size), ctype, reader)
    {
      if HasPrefix(ctype, AudioPrefix) || HasPrefix(ctype, VideoPrefix) {
        r := UploadMedia();
      } else {
        r := UploadData();
      }
      if r.Err? {
        return;
      }
      r := Ok(r.value.(contentType := ctype, name := keyOrig));
    }
  }
}
