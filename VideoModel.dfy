/** `Video`, the record the client decodes for every search result and every channel
    video, with its table of JSON keys and what Swift's synthesized `Codable`
    conformance makes of it. */
module VideoModel {
  import opened Wrappers
  import opened JsonValues
  import YoutubeService

  /** `duration` and `streamURL` are optionals; `views` is a `UInt`; `thumbnail` and
      `streamURL` are URLs, kept as their strings. */
  datatype Video = Video(
    id: string, title: string, channelID: string, uploader: string,
    duration: Option<real>, views: nat, isLive: bool,
    thumbnail: string, streamURL: Option<string>)

  /** What a decoded `Video` always satisfies: `views` fits a `UInt` and both URLs
      came from non-empty strings. */
  predicate Representable(v: Video) {
    && v.views < UInt64Bound
    && v.thumbnail != ""
    && (v.streamURL.Some? ==> v.streamURL.value != "")
  }

  /** The cases of `Video.CodingKeys`. */
  datatype CodingKey = Id | Title | ChannelID | Uploader | Duration | Views | IsLive | Thumbnail | StreamURL

  const AllKeys: seq<CodingKey> := [Id, Title, ChannelID, Uploader, Duration, Views, IsLive, Thumbnail, StreamURL]

  /** The raw value of each coding key: the JSON key of the field. */
  function KeyName(k: CodingKey): string {
    match k
    case Id => "id"
    case Title => "title"
    case ChannelID => "channel_id"
    case Uploader => "uploader"
    case Duration => "duration"
    case Views => "views"
    case IsLive => "is_live"
    case Thumbnail => "thumbnail"
    case StreamURL => "stream_url"
  }

  /** Every key the decoder looks up. */
  function KeyNames(): set<string> {
    set i | 0 <= i < |AllKeys| :: KeyName(AllKeys[i])
  }

  /** No two fields share a JSON key. */
  lemma KeyNameInjective(a: CodingKey, b: CodingKey)
    ensures KeyName(a) == KeyName(b) ==> a == b
  {
  }

  /** The keys of `Video` are exactly the keys of every video dict the backend emits,
      for search results and channel videos alike. */
  lemma KeysMatchBackend(v: YoutubeService.VideoRecord)
    ensures KeyNames() == YoutubeService.VideoDict(v).Keys
  {
    var names := KeyNames();
    assert KeyName(AllKeys[0]) in names && KeyName(AllKeys[1]) in names && KeyName(AllKeys[2]) in names;
    assert KeyName(AllKeys[3]) in names && KeyName(AllKeys[4]) in names && KeyName(AllKeys[5]) in names;
    assert KeyName(AllKeys[6]) in names && KeyName(AllKeys[7]) in names && KeyName(AllKeys[8]) in names;
  }

  /** `JSONDecoder().decode(Video.self, ...)`: `duration` and `stream_url` are read with
      `decodeIfPresent`, every other key is required; unknown keys are ignored. */
  function DecodeVideo(j: Json): (r: Option<Video>)
    ensures r.Some? ==> j.JObj? && Representable(r.value)
    ensures r.Some? ==> forall k :: k in AllKeys && k != Duration && k != StreamURL ==> KeyName(k) in j.fields
  {
    if !j.JObj? then None
    else
      var o := j.fields;
      var id := RequiredField(o, KeyName(Id), AsString);
      var title := RequiredField(o, KeyName(Title), AsString);
      var channelID := RequiredField(o, KeyName(ChannelID), AsString);
      var uploader := RequiredField(o, KeyName(Uploader), AsString);
      var duration := OptionalField(o, KeyName(Duration), AsDouble);
      var views := RequiredField(o, KeyName(Views), AsUInt);
      var isLive := RequiredField(o, KeyName(IsLive), AsBool);
      var thumbnail := RequiredField(o, KeyName(Thumbnail), AsUrl);
      var streamURL := OptionalField(o, KeyName(StreamURL), AsUrl);
      if && id.Some? && title.Some? && channelID.Some? && uploader.Some? && duration.Some?
         && views.Some? && isLive.Some? && thumbnail.Some? && streamURL.Some?
      then Some(Video(id.value, title.value, channelID.value, uploader.value, duration.value,
                      views.value, isLive.value, thumbnail.value, streamURL.value))
      else None
  }

  /** `JSONEncoder().encode(video)`: a `nil` optional leaves its key out. */
  function EncodeVideo(v: Video): Json {
    var required := map[
      KeyName(Id) := JStr(v.id), KeyName(Title) := JStr(v.title),
      KeyName(ChannelID) := JStr(v.channelID), KeyName(Uploader) := JStr(v.uploader),
      KeyName(Views) := JNum(v.views as real), KeyName(IsLive) := JBool(v.isLive),
      KeyName(Thumbnail) := JStr(v.thumbnail)];
    var withDuration := if v.duration.Some? then required[KeyName(Duration) := JNum(v.duration.value)] else required;
    JObj(if v.streamURL.Some? then withDuration[KeyName(StreamURL) := JStr(v.streamURL.value)] else withDuration)
  }

  /** Encoding a video and decoding it again gives the same video. */
  lemma DecodeEncode(v: Video)
    requires Representable(v)
    ensures DecodeVideo(EncodeVideo(v)) == Some(v)
  {
    var o := EncodeVideo(v).fields;
    EncodedRequiredFields(v);
    EncodedOptionalFields(v);
    DecodesTo(o, v);
  }

  /** The two optional fields of an encoded video read back as the video's own. */
  lemma EncodedOptionalFields(v: Video)
    requires Representable(v)
    ensures OptionalField(EncodeVideo(v).fields, KeyName(Duration), AsDouble) == Some(v.duration)
    ensures OptionalField(EncodeVideo(v).fields, KeyName(StreamURL), AsUrl) == Some(v.streamURL)
  {
    var o := EncodeVideo(v).fields;
    assert v.streamURL.Some? ==> o[KeyName(StreamURL)] == JStr(v.streamURL.value);
    assert v.duration.Some? ==> o[KeyName(Duration)] == JNum(v.duration.value);
  }

  /** The required fields of an encoded video read back as the video's own. */
  lemma EncodedRequiredFields(v: Video)
    requires Representable(v)
    ensures var o := EncodeVideo(v).fields;
      && RequiredField(o, KeyName(Id), AsString) == Some(v.id)
      && RequiredField(o, KeyName(Title), AsString) == Some(v.title)
      && RequiredField(o, KeyName(ChannelID), AsString) == Some(v.channelID)
      && RequiredField(o, KeyName(Uploader), AsString) == Some(v.uploader)
      && RequiredField(o, KeyName(Views), AsUInt) == Some(v.views)
      && RequiredField(o, KeyName(IsLive), AsBool) == Some(v.isLive)
      && RequiredField(o, KeyName(Thumbnail), AsUrl) == Some(v.thumbnail)
  {
    EncodedStringFields(v);
    var o := EncodeVideo(v).fields;
    assert (v.views as real).Floor == v.views;
    assert o[KeyName(Views)] == JNum(v.views as real);
    assert o[KeyName(IsLive)] == JBool(v.isLive);
    assert o[KeyName(Thumbnail)] == JStr(v.thumbnail);
  }

  /** The four plain string fields of an encoded video. */
  lemma EncodedStringFields(v: Video)
    ensures var o := EncodeVideo(v).fields;
      && RequiredField(o, KeyName(Id), AsString) == Some(v.id)
      && RequiredField(o, KeyName(Title), AsString) == Some(v.title)
      && RequiredField(o, KeyName(ChannelID), AsString) == Some(v.channelID)
      && RequiredField(o, KeyName(Uploader), AsString) == Some(v.uploader)
  {
    var o := EncodeVideo(v).fields;
    assert o[KeyName(Id)] == JStr(v.id);
    assert o[KeyName(Title)] == JStr(v.title);
    assert o[KeyName(ChannelID)] == JStr(v.channelID);
    assert o[KeyName(Uploader)] == JStr(v.uploader);
  }

  /** A dict whose nine lookups decode to the fields of `v` decodes to `v`. */
  lemma DecodesTo(o: Dict, v: Video)
    requires RequiredField(o, KeyName(Id), AsString) == Some(v.id)
    requires RequiredField(o, KeyName(Title), AsString) == Some(v.title)
    requires RequiredField(o, KeyName(ChannelID), AsString) == Some(v.channelID)
    requires RequiredField(o, KeyName(Uploader), AsString) == Some(v.uploader)
    requires OptionalField(o, KeyName(Duration), AsDouble) == Some(v.duration)
    requires RequiredField(o, KeyName(Views), AsUInt) == Some(v.views)
    requires RequiredField(o, KeyName(IsLive), AsBool) == Some(v.isLive)
    requires RequiredField(o, KeyName(Thumbnail), AsUrl) == Some(v.thumbnail)
    requires OptionalField(o, KeyName(StreamURL), AsUrl) == Some(v.streamURL)
    ensures DecodeVideo(JObj(o)) == Some(v)
  {
  }

  /** `duration` and `stream_url` may be `null` or absent: either way decoding gives
      the same answer. */
  lemma OptionalKeysMayBeNullOrAbsent(o: Dict, k: CodingKey)
    requires k == Duration || k == StreamURL
    ensures DecodeVideo(JObj(o[KeyName(k) := JNull])) == DecodeVideo(JObj(o - {KeyName(k)}))
  {
    var a := o[KeyName(k) := JNull];
    var b := o - {KeyName(k)};
    SameLookup(a, b, KeyName(Id), AsString);
    SameLookup(a, b, KeyName(Title), AsString);
    SameLookup(a, b, KeyName(ChannelID), AsString);
    SameLookup(a, b, KeyName(Uploader), AsString);
    SameLookup(a, b, KeyName(Views), AsUInt);
    SameLookup(a, b, KeyName(IsLive), AsBool);
    SameLookup(a, b, KeyName(Thumbnail), AsUrl);
    if k == Duration {
      SameLookup(a, b, KeyName(StreamURL), AsUrl);
      assert OptionalField(a, KeyName(Duration), AsDouble) == OptionalField(b, KeyName(Duration), AsDouble);
    } else {
      SameLookup(a, b, KeyName(Duration), AsDouble);
      assert OptionalField(a, KeyName(StreamURL), AsUrl) == OptionalField(b, KeyName(StreamURL), AsUrl);
    }
    SameDecode(a, b);
  }

  /** Two dicts whose nine lookups agree decode alike. */
  lemma SameDecode(a: Dict, b: Dict)
    requires RequiredField(a, KeyName(Id), AsString) == RequiredField(b, KeyName(Id), AsString)
    requires RequiredField(a, KeyName(Title), AsString) == RequiredField(b, KeyName(Title), AsString)
    requires RequiredField(a, KeyName(ChannelID), AsString) == RequiredField(b, KeyName(ChannelID), AsString)
    requires RequiredField(a, KeyName(Uploader), AsString) == RequiredField(b, KeyName(Uploader), AsString)
    requires OptionalField(a, KeyName(Duration), AsDouble) == OptionalField(b, KeyName(Duration), AsDouble)
    requires RequiredField(a, KeyName(Views), AsUInt) == RequiredField(b, KeyName(Views), AsUInt)
    requires RequiredField(a, KeyName(IsLive), AsBool) == RequiredField(b, KeyName(IsLive), AsBool)
    requires RequiredField(a, KeyName(Thumbnail), AsUrl) == RequiredField(b, KeyName(Thumbnail), AsUrl)
    requires OptionalField(a, KeyName(StreamURL), AsUrl) == OptionalField(b, KeyName(StreamURL), AsUrl)
    ensures DecodeVideo(JObj(a)) == DecodeVideo(JObj(b))
  {
  }

  /** Two dicts that agree on `key` decode it alike. */
  lemma SameLookup<T>(a: Dict, b: Dict, key: string, decode: Json -> Option<T>)
    requires (key in a) == (key in b) && (key in a ==> a[key] == b[key])
    ensures RequiredField(a, key, decode) == RequiredField(b, key, decode)
    ensures OptionalField(a, key, decode) == OptionalField(b, key, decode)
  {
  }

  /** Every other key is required. */
  lemma RequiredKeyMissingFails(o: Dict, k: CodingKey)
    requires k != Duration && k != StreamURL && KeyName(k) !in o
    ensures DecodeVideo(JObj(o)) == None
  {
  }

  /** `views` is unsigned: `null` or a negative number is refused. */
  lemma NullOrNegativeViewsFail(o: Dict)
    requires "views" in o && (o["views"] == JNull || (o["views"].JNum? && o["views"].n < 0.0))
    ensures DecodeVideo(JObj(o)) == None
  {
    assert KeyName(Views) == "views";
  }

  /** A search record for a live entry whose `concurrent_view_count` is missing or
      `None` carries `"views": None`, which the client cannot decode. */
  lemma LiveEntryWithoutViewerCountFails(e: Dict, r: YoutubeService.VideoRecord)
    requires YoutubeService.SearchRecord(e) == Ok(r) && r.isLive
    requires YoutubeService.Get(e, "concurrent_view_count") == JNull
    ensures DecodeVideo(JObj(YoutubeService.VideoDict(r))) == None
  {
    NullOrNegativeViewsFail(YoutubeService.VideoDict(r));
  }

  /** A backend video dict with string fields, a non-negative whole view count below
      2^64 and a non-empty thumbnail decodes to the video it describes, with no
      stream URL. */
  lemma BackendVideoDecodes(r: YoutubeService.VideoRecord)
    requires r.id.JStr? && r.channelId.JStr? && r.uploader.JStr?
    requires r.duration == JNull || r.duration.JNum?
    requires AsUInt(r.views).Some? && r.thumbnail.JStr? && r.thumbnail.s != ""
    ensures DecodeVideo(JObj(YoutubeService.VideoDict(r))) == Some(Video(
      r.id.s, r.title, r.channelId.s, r.uploader.s,
      if r.duration.JNum? then Some(r.duration.n) else None,
      AsUInt(r.views).value, r.isLive, r.thumbnail.s, None))
  {
    BackendStringFields(r);
    BackendOtherFields(r);
    DecodesTo(YoutubeService.VideoDict(r), Video(
      r.id.s, r.title, r.channelId.s, r.uploader.s,
      if r.duration.JNum? then Some(r.duration.n) else None,
      AsUInt(r.views).value, r.isLive, r.thumbnail.s, None));
  }

  /** The four string fields of a backend video dict. */
  lemma BackendStringFields(r: YoutubeService.VideoRecord)
    requires r.id.JStr? && r.channelId.JStr? && r.uploader.JStr?
    ensures var o := YoutubeService.VideoDict(r);
      && RequiredField(o, KeyName(Id), AsString) == Some(r.id.s)
      && RequiredField(o, KeyName(Title), AsString) == Some(r.title)
      && RequiredField(o, KeyName(ChannelID), AsString) == Some(r.channelId.s)
      && RequiredField(o, KeyName(Uploader), AsString) == Some(r.uploader.s)
  {
    var o := YoutubeService.VideoDict(r);
    assert o["id"] == r.id && o["title"] == JStr(r.title);
    assert o["channel_id"] == r.channelId && o["uploader"] == r.uploader;
  }

  /** The other five fields of a backend video dict. */
  lemma BackendOtherFields(r: YoutubeService.VideoRecord)
    requires r.duration == JNull || r.duration.JNum?
    requires AsUInt(r.views).Some? && r.thumbnail.JStr? && r.thumbnail.s != ""
    ensures var o := YoutubeService.VideoDict(r);
      && OptionalField(o, KeyName(Duration), AsDouble) == Some(if r.duration.JNum? then Some(r.duration.n) else None)
      && RequiredField(o, KeyName(Views), AsUInt) == Some(AsUInt(r.views).value)
      && RequiredField(o, KeyName(IsLive), AsBool) == Some(r.isLive)
      && RequiredField(o, KeyName(Thumbnail), AsUrl) == Some(r.thumbnail.s)
      && OptionalField(o, KeyName(StreamURL), AsUrl) == Some(None)
  {
    var o := YoutubeService.VideoDict(r);
    assert o["duration"] == r.duration && o["views"] == r.views;
    assert o["is_live"] == JBool(r.isLive) && o["thumbnail"] == r.thumbnail;
    assert o["stream_url"] == JNull;
  }
}
