/** The record every service passes around: the reply describing one stored
    object (services/common/reply.go), the media tracks the transcoder reports
    (services/nullx/nullx.go), and the closed classification of a MIME type by
    its prefix that routing and tagging both rely on. */
module Records {
  import opened Basics

  /** One track of a transcoded media file; only the MIME type is interpreted. */
  datatype Track = Track(codec: string, mimeType: string)

  /** common.Reply. `media` is the transcoder's track list when it supplied one. */
  datatype Reply = Reply(
    name: string,
    bucket: string,
    key: string,
    size: Uint64,
    metaSize: Uint64,
    metaBucket: string,
    metaKey: string,
    contentType: string,
    timestamp: Time,
    media: Option<seq<Track>>)

  /** A reply with every field at Go's zero value. */
  const EmptyReply := Reply("", "", "", 0, 0, "", "", "", 0, None)

  /** The tracks of a reply, an absent list read as empty (len of a nil slice). */
  function Tracks(r: Reply): seq<Track> {
    if r.media.Some? then r.media.value else []
  }

  const AudioPrefix := "audio/"
  const VideoPrefix := "video/"
  const ImagePrefix := "image/"

  datatype MediaKind = Audio | Video | Image | Other

  /** Classification of a content type by the three prefixes the code tests. */
  function Classify(ctype: string): (k: MediaKind)
    ensures k == Audio <==> HasPrefix(ctype, AudioPrefix)
    ensures k == Video <==> HasPrefix(ctype, VideoPrefix)
    ensures k == Image <==> HasPrefix(ctype, ImagePrefix)
  {
    if HasPrefix(ctype, AudioPrefix) then Audio
    else if HasPrefix(ctype, VideoPrefix) then Video
    else if HasPrefix(ctype, ImagePrefix) then Image
    else Other
  }
}
