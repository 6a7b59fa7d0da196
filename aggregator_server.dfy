/** The older aggregator server (servers/aggregator/aggregator.go): the same
    upload step as the aggregator service, except that media tags come from
    the content type only and failures are not recorded in the request
    context; and the plain forwarder the other routes use. */
module AggregatorServer {
  import opened Basics
  import opened Records
  import opened AggregatorService

  /** The tags of a stored file: its date, "all", and at most one media tag
      from its content type. */
  function ServerTags(r: Reply, date: string): (tags: seq<string>)
    ensures |tags| >= 2 && tags[0] == date && tags[1] == AllTag
  {
    [date, AllTag] + TypeTags(r.contentType)
  }

  /** Tracks are ignored: the tags depend only on the date and the content
      type, with at most one media tag, the one the classification names. */
  lemma ServerTagsByType(r: Reply, date: string, media: Option<seq<Track>>)
    ensures ServerTags(r.(media := media), date) == ServerTags(r, date)
    ensures |ServerTags(r, date)| <= 3
    ensures Classify(r.contentType) == Other <==> |ServerTags(r, date)| == 2
  {
    TypeTagsClassify(r.contentType);
  }

  /** For a file without tracks both versions choose the same tags; with
      tracks, the newer one reads them from the tracks instead. */
  lemma VersionsAgreeWithoutTracks(r: Reply, date: string)
    ensures |Tracks(r)| == 0 ==> ServiceTags(r, date) == ServerTags(r, date)
    ensures |Tracks(r)| != 0 ==> ServiceTags(r, date) == [date, AllTag] + TrackTags(Tracks(r))
  {
  }

  /** The index service's URL, from its address. */
  function IndexUrl(indexAddr: string): (url: string)
    ensures HasPrefix(url, "http://") && url[|url| - |"/index"|..] == "/index"
    ensures |url| == |"http://"| + |indexAddr| + |"/index"|
    ensures url[|"http://"|..|"http://"| + |indexAddr|] == indexAddr
  {
    "http://" + indexAddr + "/index"
  }

  /** Forwarder: proxies a request to one address. */
  class Forwarder {
    const addr: string

    constructor (addr0: string)
      ensures addr == addr0
    {
      addr := addr0;
    }

    /** forward: a failed send is 500 under "forward"; any response is
        flushed through as it is. */
    method Forward(sent: Result<IoResponse, string>) returns (resp: Response)
      ensures sent.Err? ==> resp == JsonError(StatusInternalServerError, ForwardOperation, SendFailed(sent.error))
      ensures sent.Ok? ==> resp == Flushed(sent.value.status, sent.value.body)
    {
      if sent.Err? {
        return JsonError(StatusInternalServerError, ForwardOperation, SendFailed(sent.error));
      }
      return Flushed(sent.value.status, sent.value.body);
    }
  }

  /** Indexer: the upload route's forwarder. */
  class Indexer {
    const addr: string
    const indexUrl: string

    constructor (ioAddr: string, indexAddr: string)
      ensures addr == ioAddr && indexUrl == IndexUrl(indexAddr)
    {
      addr := ioAddr;
      indexUrl := IndexUrl(indexAddr);
    }

    /** The tag list forward builds, by content type only. */
    method BuildTags(r: Reply, date: string) returns (tags: seq<string>)
      ensures tags == ServerTags(r, date)
    {
      tags := [date, AllTag];
      var ctype := r.contentType;
      if HasPrefix(ctype, AudioPrefix) {
        tags := tags + [AudioTag];
      }
      if HasPrefix(ctype, VideoPrefix) {
        tags := tags + [VideoTag];
      }
      if HasPrefix(ctype, ImagePrefix) {
        tags := tags + [ImageTag];
      }
    }

    /** forward */
    method Forward(path: string, up: Upstream) returns (resp: Response)
      requires HasPrefix(path, UploadPrefix)
      ensures resp == Pipeline(up, path, indexUrl, (r: Reply) => ServerTags(r, up.dateOf(r.timestamp)))
    {
      var filename := TrimSlashes(path[|UploadPrefix|..]);
      if |filename| == 0 {
        return JsonError(StatusBadRequest, ForwardOperation, InvalidUrl);
      }
      if up.sent.Err? {
        return JsonError(StatusInternalServerError, ForwardOperation, SendFailed(up.sent.error));
      }
      var ioResp := up.sent.value;
      if ioResp.status != StatusOK {
        return Flushed(ioResp.status, ioResp.body);
      }
      if up.readError.Some? {
        return JsonError(StatusInternalServerError, ForwardOperation, ReadFailed(up.readError.value));
      }
      var data := ioResp.body;
      var iore := up.decode(data);
      if iore.Err? {
        return JsonError(StatusInternalServerError, ForwardOperation, DecodeFailed(iore.error));
      }
      if |iore.value| == 0 {
        return ReplyIndexOutOfRange;
      }
      var r := iore.value[0];
      var tags := BuildTags(r, up.dateOf(r.timestamp));
      resp := IndexFirst(up, r, tags, data);
    }

    /** The index call and the answer after it. */
    method IndexFirst(up: Upstream, r: Reply, tags: seq<string>, data: seq<Byte>) returns (resp: Response)
      ensures resp == IndexStep(up, indexUrl, r, tags, data)
    {
      var indexResp := up.index(indexUrl, IndexRequestFor(r, tags), up.cookie);
      if indexResp.Err? {
        return JsonError(StatusInternalServerError, ForwardOperation, IndexSendFailed(indexResp.error));
      }
      if indexResp.value != StatusOK {
        return JsonError(indexResp.value, ForwardOperation, IndexStatus(indexResp.value));
      }
      return Written(StatusOK, data);
    }
  }
}
