/** The values the service hands to its clients, and the library behaviour it relies on. */
module Infos {
  import opened Common

  datatype StreamType =
    | PROXY | VOD_PROXY | RELAY | ENCODE | TIMESHIFT_PLAYER | TIMESHIFT_RECORDER | CATCHUP
    | TEST_LIFE | VOD_RELAY | VOD_ENCODE | COD_RELAY | COD_ENCODE | CV_DATA

  datatype OutputUri = OutputUri(id: int32, url: string, httpRoot: Option<string>, hlsType: Option<int32>)

  datatype MetaUrl = MetaUrl(name: string, url: string)

  datatype UserStreamInfo =
    UserStreamInfo(favorite: bool, recent: int, interruption: int, priv: bool, locked: bool)

  const NO_USER_INFO := UserStreamInfo(false, 0, 0, false, false)

  datatype Epg = Epg(tvgId: string, name: string, icon: string, urls: seq<string>)

  const NO_EPG := Epg("", "", "", [])

  /** The part shared by channels, vods and catchups. `haveVideo` and `haveAudio` are the two flags in
      the order the readers pass them on. */
  datatype StreamBase = StreamBase(
    id: string, groups: seq<string>, iarc: int, favorite: bool, recent: int, interruption: int,
    haveVideo: bool, haveAudio: bool, parts: seq<string>, viewCount: nat, locked: bool, meta: seq<MetaUrl>)

  datatype ChannelInfo = ChannelInfo(base: StreamBase, epg: Epg)

  datatype CatchupInfo = CatchupInfo(base: StreamBase, epg: Epg, start: int, stop: int)

  datatype MovieInfo = MovieInfo(
    name: string, description: string, preview: string, urls: seq<string>, trailer: string,
    score: real, primeDate: int, country: string, duration: int, kind: int)

  datatype VodInfo = VodInfo(base: StreamBase, movie: MovieInfo)

  datatype SerialInfo = SerialInfo(
    id: string, name: string, icon: string, groups: seq<string>, description: string, season: nat,
    episodes: seq<string>, viewCount: nat)

  datatype ContentRequestInfo = ContentRequestInfo(id: string, title: string, kind: int, status: int)

  /** The `_cls` texts stored in new documents. Nothing depends on what they say, so proofs take them
      as a parameter; module StreamClasses holds the texts the service uses. */
  datatype Classes = Classes(catchup: string, outputUrl: string, inputUrl: string, userStream: string, request: string)

  /** What the linked libraries do with texts, and the defaults they start from. A url is represented
      by its canonical spec, a directory by its normalised path. */
  datatype Library = Library(
    gurl: string -> string,
    directory: string -> string,
    subdirectory: (string, string) -> Option<string>,
    metaValid: MetaUrl -> bool,
    defaultIarc: int32,
    defaultMovie: MovieInfo,
    serialKind: int,
    catchupNumber: nat,      // the number printed for the type CATCHUP
    logLevelInfo: int32,
    classes: Classes,
    streamType: string -> StreamType)

  function UrlsOf(outputs: seq<OutputUri>): seq<string> {
    seq(|outputs|, i requires 0 <= i < |outputs| => outputs[i].url)
  }

  predicate IsVod(st: StreamType) {
    st == VOD_RELAY || st == VOD_ENCODE || st == VOD_PROXY
  }
}
