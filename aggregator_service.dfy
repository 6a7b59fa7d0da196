/** The aggregator's upload step (services/aggregator/indexer.go): an upload
    is forwarded to the object gateway; when the gateway accepts it, the
    first stored file is indexed under a date tag, the tag "all" and media
    tags, and the gateway's answer is returned to the client only once the
    index service has accepted the file.

    The gateway, the index service, the JSON codec and the date formatting
    are collaborators whose answers are inputs (an `Upstream` value). */
module AggregatorService {
  import opened Basics
  import opened Records
  import opened IndexRequests
  import IndexStore
  import ErrorContext

  /** The route prefix of an upload; the rest of the path names the file. */
  const UploadPrefix := "/upload/"

  /** The tag every indexed file gets. */
  const AllTag := "all"

  const AudioTag := "audio"
  const VideoTag := "video"
  const ImageTag := "image"

  /** The operation every error of this step is reported under. */
  const ForwardOperation := "forward"

  predicate AllSlashes(s: string) {
    forall k :: 0 <= k < |s| ==> s[k] == '/'
  }

  /** strings.TrimLeft(s, "/") */
  function TrimLeading(s: string): (r: string)
    ensures |r| <= |s| && r == s[|s| - |r|..]
    ensures AllSlashes(s[..|s| - |r|])
    ensures r != "" ==> r[0] != '/'
    decreases |s|
  {
    if s != [] && s[0] == '/' then TrimLeading(s[1..]) else s
  }

  /** strings.TrimRight(s, "/") */
  function TrimTrailing(s: string): (r: string)
    ensures |r| <= |s| && r == s[..|r|]
    ensures AllSlashes(s[|r|..])
    ensures r != "" ==> r[|r| - 1] != '/'
    decreases |s|
  {
    if s != [] && s[|s| - 1] == '/' then TrimTrailing(s[..|s| - 1]) else s
  }

  /** strings.Trim(s, "/") */
  function TrimSlashes(s: string): string {
    TrimTrailing(TrimLeading(s))
  }

  /** Trimming keeps the infix of `s` between its leading and trailing
      slashes: it drops only slashes, the result neither starts nor ends
      with one, and it is empty exactly when `s` is all slashes. */
  lemma TrimSlashesInfix(s: string)
    ensures var r := TrimSlashes(s);
      exists i, j :: (0 <= i <= j <= |s| && r == s[i..j] && AllSlashes(s[..i]) && AllSlashes(s[j..]))
    ensures var r := TrimSlashes(s); r != "" ==> r[0] != '/' && r[|r| - 1] != '/'
    ensures TrimSlashes(s) == "" <==> AllSlashes(s)
  {
    var left := TrimLeading(s);
    var r := TrimTrailing(left);
    var i := |s| - |left|;
    assert s[i..][..|r|] == s[i..i + |r|];
    assert AllSlashes(s[i + |r|..]) by {
      assert s[i + |r|..] == left[|r|..];
    }
  }

  /** The file name an upload path carries; the router guarantees the
      prefix. */
  function Filename(path: string): string
    requires HasPrefix(path, UploadPrefix)
  {
    TrimSlashes(path[|UploadPrefix|..])
  }

  /** A path of slashes only after the prefix carries no file name, and a
      path with any other character after it does. */
  lemma FilenameEmpty(path: string)
    requires HasPrefix(path, UploadPrefix)
    ensures Filename(path) == "" <==> AllSlashes(path[|UploadPrefix|..])
  {
    TrimSlashesInfix(path[|UploadPrefix|..]);
  }

  /** The media tags of a list of tracks: one "audio" per audio track and
      one "video" per video track, in track order. */
  function TrackTags(tracks: seq<Track>): seq<string>
    decreases |tracks|
  {
    if tracks == [] then []
    else
      var t := tracks[|tracks| - 1];
      TrackTags(tracks[..|tracks| - 1])
        + (if HasPrefix(t.mimeType, AudioPrefix) then [AudioTag] else [])
        + (if HasPrefix(t.mimeType, VideoPrefix) then [VideoTag] else [])
  }

  /** The media tag of a content type: at most one, by prefix. */
  function TypeTags(ctype: string): seq<string> {
    (if HasPrefix(ctype, AudioPrefix) then [AudioTag] else [])
      + (if HasPrefix(ctype, VideoPrefix) then [VideoTag] else [])
      + (if HasPrefix(ctype, ImagePrefix) then [ImageTag] else [])
  }

  /** The tags of a stored file: its date, "all", then the tags of its
      tracks when it has any, else the tag of its content type. */
  function ServiceTags(r: Reply, date: string): (tags: seq<string>)
    ensures |tags| >= 2 && tags[0] == date && tags[1] == AllTag
  {
    [date, AllTag] + (if |Tracks(r)| != 0 then TrackTags(Tracks(r)) else TypeTags(r.contentType))
  }

  /** The tracks whose MIME type has the given prefix. */
  function CountPrefixed(tracks: seq<Track>, prefix: string): nat
    decreases |tracks|
  {
    if tracks == [] then 0
    else CountPrefixed(tracks[..|tracks| - 1], prefix) + (if HasPrefix(tracks[|tracks| - 1].mimeType, prefix) then 1 else 0)
  }

  /** With tracks, there is one "audio" per audio track and one "video" per
      video track. */
  lemma {:induction false} TrackTagsCounts(tracks: seq<Track>)
    ensures Count(TrackTags(tracks), AudioTag) == CountPrefixed(tracks, AudioPrefix)
    ensures Count(TrackTags(tracks), VideoTag) == CountPrefixed(tracks, VideoPrefix)
    decreases |tracks|
  {
    if tracks != [] {
      var t := tracks[|tracks| - 1];
      var init := TrackTags(tracks[..|tracks| - 1]);
      var a: seq<string> := if HasPrefix(t.mimeType, AudioPrefix) then [AudioTag] else [];
      var v: seq<string> := if HasPrefix(t.mimeType, VideoPrefix) then [VideoTag] else [];
      TrackTagsCounts(tracks[..|tracks| - 1]);
      assert TrackTags(tracks) == init + a + v;
      CountAppend(init, a, AudioTag);
      CountAppend(init + a, v, AudioTag);
      CountAppend(init, a, VideoTag);
      CountAppend(init + a, v, VideoTag);
      CountSingle(AudioTag, VideoTag);
      CountSingle(VideoTag, AudioTag);
      CountSingle(AudioTag, AudioTag);
      CountSingle(VideoTag, VideoTag);
    }
  }

  /** The track tags are only "audio" and "video": never "image", whatever
      the content type says. */
  lemma {:induction false} TrackTagsOnlyMedia(tracks: seq<Track>)
    ensures forall k :: 0 <= k < |TrackTags(tracks)| ==> TrackTags(tracks)[k] == AudioTag || TrackTags(tracks)[k] == VideoTag
    decreases |tracks|
  {
    if tracks != [] {
      TrackTagsOnlyMedia(tracks[..|tracks| - 1]);
    }
  }

  lemma CountSingle(x: string, tag: string)
    ensures Count([x], tag) == if x == tag then 1 else 0
  {
    assert [x][..0] == [];
  }

  lemma {:induction false} CountAppend(a: seq<string>, b: seq<string>, tag: string)
    ensures Count(a + b, tag) == Count(a, tag) + Count(b, tag)
    decreases |b|
  {
    if b == [] {
      assert a + b == a;
    } else {
      CountAppend(a, b[..|b| - 1], tag);
      assert (a + b)[..|a + b| - 1] == a + b[..|b| - 1];
    }
  }

  /** Without tracks, the content type gives at most one media tag, exactly
      the one its classification names. */
  lemma TypeTagsClassify(ctype: string)
    ensures TypeTags(ctype) == match Classify(ctype)
      case Audio => [AudioTag]
      case Video => [VideoTag]
      case Image => [ImageTag]
      case Other => []
  {
    if HasPrefix(ctype, AudioPrefix) {
      assert ctype[0] == 'a';
    } else if HasPrefix(ctype, VideoPrefix) {
      assert ctype[0] == 'v';
    }
  }

  /** The file an index request carries: the stored file's key, bucket,
      name, time stamp and size; its content type and meta fields are
      dropped. */
  function IndexFileOf(r: Reply): (f: Reply)
    ensures f.key == r.key && f.bucket == r.bucket && f.name == r.name && f.timestamp == r.timestamp && f.size == r.size
    ensures f.contentType == "" && f.metaKey == "" && f.metaBucket == "" && f.metaSize == 0 && f.media.None?
  {
    Reply(r.name, r.bucket, r.key, r.size, 0, "", "", "", r.timestamp, None)
  }

  /** The one-file index request for a stored file. */
  function IndexRequestFor(r: Reply, tags: seq<string>): IndexRequest {
    IndexRequest([Request(IndexFileOf(r), tags)])
  }

  /** What the index service does with the request: the file is grouped
      under every tag, once per occurrence, and its table row is the row of
      the stored file. A repeated media tag puts the same file twice in one
      batch, which the replace-by-name write stores once. */
  lemma IndexRequestGrouping(r: Reply, tags: seq<string>, tag: string)
    ensures var req := IndexRequestFor(r, tags);
      Get(Grouped(req.files), tag) == Repeat(IndexFileOf(r), Count(tags, tag))
      && (tag in Grouped(req.files) <==> tag in tags)
    ensures IndexStore.RowOf(IndexFileOf(r)) == IndexStore.RowOf(r)
  {
    var req := IndexRequestFor(r, tags);
    GroupedContents(req.files, tag);
    assert req.files[..0] == [];
    if tag in tags {
      assert Mentioned(req.files, tag) by {
        assert tag in req.files[0].tags;
      }
    }
  }

  /** A response of the gateway. */
  datatype IoResponse = IoResponse(status: int, body: seq<Byte>)

  /** What the collaborators answer for one upload. */
  datatype Upstream = Upstream(
    sent: Result<IoResponse, string>,
    readError: Option<string>,
    decode: seq<Byte> -> Result<seq<Reply>, string>,
    cookie: Option<string>,
    index: (string, IndexRequest, Option<string>) -> Result<int, string>,
    dateOf: Time -> string)

  /** Why the step fails. */
  datatype ForwardError =
    | InvalidUrl
    | SendFailed(reason: string)
    | ReadFailed(reason: string)
    | DecodeFailed(reason: string)
    | IndexSendFailed(reason: string)
    | IndexStatus(status: int)

  /** What the client receives: a JSON error, the gateway's own response
      flushed through, the gateway's body after indexing, or a panic on an
      empty reply list. */
  datatype Response =
    | JsonError(status: int, operation: string, error: ForwardError)
    | Flushed(status: int, body: seq<Byte>)
    | Written(status: int, body: seq<Byte>)
    | ReplyIndexOutOfRange

  /** The index request the step sends, if it gets that far. */
  function IndexRequestSent(up: Upstream, path: string, tagsOf: Reply -> seq<string>): (q: Option<IndexRequest>)
    requires HasPrefix(path, UploadPrefix)
  {
    if Filename(path) == "" || up.sent.Err? || up.sent.value.status != StatusOK || up.readError.Some? then None
    else
      var dec := up.decode(up.sent.value.body);
      if dec.Err? || |dec.value| == 0 then None
      else Some(IndexRequestFor(dec.value[0], tagsOf(dec.value[0])))
  }

  /** The step, with the tag rule as a parameter (the older server differs
      only there). */
  function Pipeline(up: Upstream, path: string, indexUrl: string, tagsOf: Reply -> seq<string>): Response
    requires HasPrefix(path, UploadPrefix)
  {
    if Filename(path) == "" then JsonError(StatusBadRequest, ForwardOperation, InvalidUrl)
    else if up.sent.Err? then JsonError(StatusInternalServerError, ForwardOperation, SendFailed(up.sent.error))
    else
      var resp := up.sent.value;
      if resp.status != StatusOK then Flushed(resp.status, resp.body)
      else if up.readError.Some? then JsonError(StatusInternalServerError, ForwardOperation, ReadFailed(up.readError.value))
      else
        var dec := up.decode(resp.body);
        if dec.Err? then JsonError(StatusInternalServerError, ForwardOperation, DecodeFailed(dec.error))
        else if |dec.value| == 0 then ReplyIndexOutOfRange
        else IndexStep(up, indexUrl, dec.value[0], tagsOf(dec.value[0]), resp.body)
  }

  /** The last part of the step: index the file under its tags, then answer
      with the gateway's body or the index service's failure. */
  function IndexStep(up: Upstream, indexUrl: string, r: Reply, tags: seq<string>, body: seq<Byte>): Response {
    var res := up.index(indexUrl, IndexRequestFor(r, tags), up.cookie);
    if res.Err? then JsonError(StatusInternalServerError, ForwardOperation, IndexSendFailed(res.error))
    else if res.value != StatusOK then JsonError(res.value, ForwardOperation, IndexStatus(res.value))
    else Written(StatusOK, body)
  }

  /** An upload path without a file name is refused with 400 before the
      gateway is contacted: the answer does not depend on any collaborator
      and nothing is indexed. */
  lemma EmptyFilenameRejected(up: Upstream, other: Upstream, path: string, indexUrl: string, tagsOf: Reply -> seq<string>)
    requires HasPrefix(path, UploadPrefix) && Filename(path) == ""
    ensures Pipeline(up, path, indexUrl, tagsOf) == JsonError(StatusBadRequest, ForwardOperation, InvalidUrl)
    ensures Pipeline(other, path, indexUrl, tagsOf) == Pipeline(up, path, indexUrl, tagsOf)
    ensures IndexRequestSent(up, path, tagsOf).None?
  {
  }

  /** A gateway answer other than 200 reaches the client unchanged, and
      nothing is indexed. */
  lemma GatewayFailurePassedThrough(up: Upstream, path: string, indexUrl: string, tagsOf: Reply -> seq<string>)
    requires HasPrefix(path, UploadPrefix) && Filename(path) != ""
    requires up.sent.Ok? && up.sent.value.status != StatusOK
    ensures Pipeline(up, path, indexUrl, tagsOf) == Flushed(up.sent.value.status, up.sent.value.body)
    ensures IndexRequestSent(up, path, tagsOf).None?
  {
  }

  /** Only the first reply is indexed, as a one-file request carrying its
      tags; the client gets the gateway's exact body with 200 when the
      index service answers 200, and the index service's status otherwise. */
  lemma IndexOutcome(up: Upstream, path: string, indexUrl: string, tagsOf: Reply -> seq<string>)
    requires HasPrefix(path, UploadPrefix)
    requires IndexRequestSent(up, path, tagsOf).Some?
    ensures var q := IndexRequestSent(up, path, tagsOf).value;
      var r := up.decode(up.sent.value.body).value[0];
      |q.files| == 1 && q.files[0].file == IndexFileOf(r) && q.files[0].tags == tagsOf(r)
      && var res := up.index(indexUrl, q, up.cookie);
      (res.Ok? && res.value == StatusOK ==> Pipeline(up, path, indexUrl, tagsOf) == Written(StatusOK, up.sent.value.body))
      && (res.Ok? && res.value != StatusOK ==> Pipeline(up, path, indexUrl, tagsOf) == JsonError(res.value, ForwardOperation, IndexStatus(res.value)))
  {
  }

  /** The answer depends on the decoded replies only through the first
      one. */
  lemma OnlyFirstReplyMatters(up: Upstream, other: Upstream, path: string, indexUrl: string, tagsOf: Reply -> seq<string>)
    requires HasPrefix(path, UploadPrefix)
    requires other == up.(decode := other.decode)
    requires up.sent.Ok?
    requires var a := up.decode(up.sent.value.body); var b := other.decode(up.sent.value.body);
      a.Ok? && b.Ok? && |a.value| > 0 && |b.value| > 0 && a.value[0] == b.value[0]
    ensures Pipeline(other, path, indexUrl, tagsOf) == Pipeline(up, path, indexUrl, tagsOf)
    ensures IndexRequestSent(other, path, tagsOf) == IndexRequestSent(up, path, tagsOf)
  {
  }

  /** Indexer: the gateway address, the index service's URL, and the
      formatting of error texts. */
  class Indexer {
    const addr: string
    const indexUrl: string
    const formatError: ForwardError -> string

    constructor (addr0: string, indexUrl0: string, formatError0: ForwardError -> string)
      ensures addr == addr0 && indexUrl == indexUrl0 && formatError == formatError0
    {
      addr := addr0;
      indexUrl := indexUrl0;
      formatError := formatError0;
    }

    /** The tag list Forward builds, appending as it goes. */
    method BuildTags(r: Reply, date: string) returns (tags: seq<string>)
      ensures tags == ServiceTags(r, date)
    {
      tags := [date, AllTag];
      var tracks := Tracks(r);
      if |tracks| != 0 {
        var i := 0;
        while i < |tracks|
          invariant 0 <= i <= |tracks|
          invariant tags == [date, AllTag] + TrackTags(tracks[..i])
        {
          assert tracks[..i + 1][..i] == tracks[..i];
          if HasPrefix(tracks[i].mimeType, AudioPrefix) {
            tags := tags + [AudioTag];
          }
          if HasPrefix(tracks[i].mimeType, VideoPrefix) {
            tags := tags + [VideoTag];
          }
          i := i + 1;
        }
        assert tracks[..i] == tracks;
      } else {
        var ctype := r.contentType;
        if HasPrefix(ctype, AudioPrefix) {
          tags := tags + [AudioTag];
        }
        if HasPrefix(ctype, VideoPrefix) {
          tags := tags + [VideoTag];
        }
        if HasPrefix(ctype, ImagePrefix) {
          tags := tags + [ImageTag];
        }
      }
    }

    /** Forward: every failure answered as JSON is also recorded in the
        request's error list, under "forward", with the same text. */
    method Forward(ctx: ErrorContext.Context, path: string, up: Upstream) returns (resp: Response)
      requires HasPrefix(path, UploadPrefix)
      requires ErrorContext.Writable(ctx.keys)
      modifies ctx
      ensures resp == Pipeline(up, path, indexUrl, (r: Reply) => ServiceTags(r, up.dateOf(r.timestamp)))
      ensures resp.JsonError? ==> ctx.keys == ErrorContext.WithError(old(ctx.keys), ForwardOperation, formatError(resp.error))
      ensures !resp.JsonError? ==> ctx.keys == old(ctx.keys)
    {
      var filename := TrimSlashes(path[|UploadPrefix|..]);
      if |filename| == 0 {
        resp := Fail(ctx, StatusBadRequest, InvalidUrl);
        return;
      }
      if up.sent.Err? {
        resp := Fail(ctx, StatusInternalServerError, SendFailed(up.sent.error));
        return;
      }
      var ioResp := up.sent.value;
      if ioResp.status != StatusOK {
        return Flushed(ioResp.status, ioResp.body);
      }
      if up.readError.Some? {
        resp := Fail(ctx, StatusInternalServerError, ReadFailed(up.readError.value));
        return;
      }
      var data := ioResp.body;
      var iore := up.decode(data);
      if iore.Err? {
        resp := Fail(ctx, StatusInternalServerError, DecodeFailed(iore.error));
        return;
      }
      if |iore.value| == 0 {
        return ReplyIndexOutOfRange;
      }
      var r := iore.value[0];
      var tags := BuildTags(r, up.dateOf(r.timestamp));
      ghost var tagsOf := (r: Reply) => ServiceTags(r, up.dateOf(r.timestamp));
      assert tags == tagsOf(r);
      resp := IndexFirst(ctx, up, r, tags, data);
    }

    /** The index call and the answer after it, failures recorded. */
    method IndexFirst(ctx: ErrorContext.Context, up: Upstream, r: Reply, tags: seq<string>, data: seq<Byte>) returns (resp: Response)
      requires ErrorContext.Writable(ctx.keys)
      modifies ctx
      ensures resp == IndexStep(up, indexUrl, r, tags, data)
      ensures resp.JsonError? ==> ctx.keys == ErrorContext.WithError(old(ctx.keys), ForwardOperation, formatError(resp.error))
      ensures !resp.JsonError? ==> ctx.keys == old(ctx.keys)
    {
      var ireq := IndexRequestFor(r, tags);
      var indexResp := up.index(indexUrl, ireq, up.cookie);
      if indexResp.Err? {
        resp := Fail(ctx, StatusInternalServerError, IndexSendFailed(indexResp.error));
        return;
      }
      if indexResp.value != StatusOK {
        resp := Fail(ctx, indexResp.value, IndexStatus(indexResp.value));
        return;
      }
      return Written(StatusOK, data);
    }

    /** FormatError, then the JSON answer. */
    method Fail(ctx: ErrorContext.Context, status: int, e: ForwardError) returns (resp: Response)
      requires ErrorContext.Writable(ctx.keys)
      modifies ctx
      ensures resp == JsonError(status, ForwardOperation, e)
      ensures ctx.keys == ErrorContext.WithError(old(ctx.keys), ForwardOperation, formatError(e))
    {
      ctx.NewError(ForwardOperation, formatError(e));
      resp := JsonError(status, ForwardOperation, e);
    }
  }
}
