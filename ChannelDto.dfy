/** `ChannelDTO`, the wire form of a channel page, with its table of JSON keys and the
    decoding Swift's synthesized `Codable` conformance performs. */
module ChannelDto {
  import opened Wrappers
  import opened JsonValues
  import YoutubeService

  /** One element of `videos`. The definition of `VideoDTO` is not part of this model:
      an element is any JSON object, kept as its fields. */
  datatype VideoDto = VideoDto(fields: map<string, Json>)

  function DecodeVideoDto(j: Json): Option<VideoDto> {
    if j.JObj? then Some(VideoDto(j.fields)) else None
  }

  /** `subscribers` is a `UInt`; both URLs are kept as their strings. */
  datatype ChannelDTO = ChannelDTO(
    id: string, title: string, desc: string, subscribers: nat,
    videos: seq<VideoDto>, avatarURL: string, bannerURL: string)

  /** The cases of `ChannelDTO.CodingKeys`. */
  datatype CodingKey = Id | Title | Desc | Subscribers | Videos | AvatarURL | BannerURL

  const AllKeys: seq<CodingKey> := [Id, Title, Desc, Subscribers, Videos, AvatarURL, BannerURL]

  function KeyName(k: CodingKey): string {
    match k
    case Id => "id"
    case Title => "title"
    case Desc => "desc"
    case Subscribers => "subscribers"
    case Videos => "videos"
    case AvatarURL => "avatar_url"
    case BannerURL => "banner_url"
  }

  function KeyNames(): set<string> {
    set i | 0 <= i < |AllKeys| :: KeyName(AllKeys[i])
  }

  /** No two fields share a JSON key. */
  lemma KeyNameInjective(a: CodingKey, b: CodingKey)
    ensures KeyName(a) == KeyName(b) ==> a == b
  {
  }

  /** The keys of `ChannelDTO` are exactly the keys of the dict `get_channel` returns. */
  lemma KeysMatchBackend(a: YoutubeService.ChannelAnswer)
    ensures KeyNames() == YoutubeService.ChannelDict(a).Keys
  {
    var names := KeyNames();
    assert KeyName(AllKeys[0]) in names && KeyName(AllKeys[1]) in names && KeyName(AllKeys[2]) in names;
    assert KeyName(AllKeys[3]) in names && KeyName(AllKeys[4]) in names;
    assert KeyName(AllKeys[5]) in names && KeyName(AllKeys[6]) in names;
  }

  /** Each field of `c` is what its key of `o` decodes to, with the field's type. */
  predicate ReadsChannelFields(o: Dict, c: ChannelDTO) {
    && RequiredField(o, KeyName(Id), AsString) == Some(c.id)
    && RequiredField(o, KeyName(Title), AsString) == Some(c.title)
    && RequiredField(o, KeyName(Desc), AsString) == Some(c.desc)
    && RequiredField(o, KeyName(Subscribers), AsUInt) == Some(c.subscribers)
    && RequiredField(o, KeyName(Videos), (v: Json) => DecodeEach(v, DecodeVideoDto)) == Some(c.videos)
    && RequiredField(o, KeyName(AvatarURL), AsUrl) == Some(c.avatarURL)
    && RequiredField(o, KeyName(BannerURL), AsUrl) == Some(c.bannerURL)
  }

  /** `JSONDecoder().decode(ChannelDTO.self, ...)`: all seven keys are required, each
      decoded as its field's type; the object decodes exactly when every key does, and
      then to the channel those keys describe. */
  function DecodeChannelDto(j: Json): (r: Option<ChannelDTO>)
    ensures r.Some? ==> j.JObj? && forall k :: k in AllKeys ==> KeyName(k) in j.fields
    ensures r.Some? ==> r.value.subscribers < UInt64Bound && r.value.avatarURL != "" && r.value.bannerURL != ""
    ensures r.Some? ==> "videos" in j.fields && j.fields["videos"].JArr? && |r.value.videos| == |j.fields["videos"].items|
    ensures r.Some? ==> ReadsChannelFields(j.fields, r.value)
    ensures forall c :: j.JObj? && ReadsChannelFields(j.fields, c) ==> r == Some(c)
  {
    if !j.JObj? then None
    else
      var o := j.fields;
      var id := RequiredField(o, KeyName(Id), AsString);
      var title := RequiredField(o, KeyName(Title), AsString);
      var desc := RequiredField(o, KeyName(Desc), AsString);
      var subscribers := RequiredField(o, KeyName(Subscribers), AsUInt);
      var videos := RequiredField(o, KeyName(Videos), (v: Json) => DecodeEach(v, DecodeVideoDto));
      var avatar := RequiredField(o, KeyName(AvatarURL), AsUrl);
      var banner := RequiredField(o, KeyName(BannerURL), AsUrl);
      if && id.Some? && title.Some? && desc.Some? && subscribers.Some? && videos.Some?
         && avatar.Some? && banner.Some?
      then Some(ChannelDTO(id.value, title.value, desc.value, subscribers.value, videos.value,
                           avatar.value, banner.value))
      else None
  }

  /** `videos` is decoded element by element, in order. */
  lemma VideosDecodedInOrder(j: Json, i: nat)
    requires DecodeChannelDto(j).Some? && i < |DecodeChannelDto(j).value.videos|
    ensures j.fields["videos"].items[i] == JObj(DecodeChannelDto(j).value.videos[i].fields)
  {
    var items := j.fields["videos"].items;
    var vs := DecodeEach(JArr(items), DecodeVideoDto).value;
    assert DecodeVideoDto(items[i]) == Some(vs[i]);
  }

  /** A `null` avatar or banner url is refused: both URLs are required. */
  lemma NullUrlFails(o: Dict, k: CodingKey)
    requires k == AvatarURL || k == BannerURL
    requires KeyName(k) in o && o[KeyName(k)] == JNull
    ensures DecodeChannelDto(JObj(o)) == None
  {
  }

  /** When the backend finds no square thumbnail (or none with a resolution) it answers
      `"avatar_url": None` (likewise for the banner), and the client cannot decode the
      channel. */
  lemma MissingThumbnailBreaksChannel(a: YoutubeService.ChannelAnswer)
    requires a.avatarUrl.None? || a.bannerUrl.None?
    ensures DecodeChannelDto(JObj(YoutubeService.ChannelDict(a))) == None
  {
    var o := YoutubeService.ChannelDict(a);
    if a.avatarUrl.None? {
      NullUrlFails(o, AvatarURL);
    } else {
      NullUrlFails(o, BannerURL);
    }
  }

  /** A well-typed answer of `get_channel` decodes to the channel it describes: string
      id, title and description, a `UInt` subscriber count, object videos in order and
      two non-empty URL strings, `avatar_url` to `avatarURL` and `banner_url` to
      `bannerURL`. */
  lemma BackendChannelDecodes(a: YoutubeService.ChannelAnswer, avatar: string, banner: string)
    requires a.id.JStr? && a.title.JStr? && a.desc.JStr? && AsUInt(a.subscribers).Some?
    requires a.avatarUrl == Some(JStr(avatar)) && avatar != ""
    requires a.bannerUrl == Some(JStr(banner)) && banner != ""
    ensures DecodeChannelDto(JObj(YoutubeService.ChannelDict(a))) == Some(ChannelDTO(
      a.id.s, a.title.s, a.desc.s, AsUInt(a.subscribers).value,
      seq(|a.videos|, i requires 0 <= i < |a.videos| => VideoDto(YoutubeService.VideoDict(a.videos[i]))),
      avatar, banner))
  {
    var o := YoutubeService.ChannelDict(a);
    var vs := seq(|a.videos|, i requires 0 <= i < |a.videos| => VideoDto(YoutubeService.VideoDict(a.videos[i])));
    var c := ChannelDTO(a.id.s, a.title.s, a.desc.s, AsUInt(a.subscribers).value, vs, avatar, banner);
    assert o["id"] == a.id && o["title"] == a.title && o["desc"] == a.desc;
    assert o["subscribers"] == a.subscribers;
    assert o["avatar_url"] == JStr(avatar) && o["banner_url"] == JStr(banner);
    var items := seq(|a.videos|, i requires 0 <= i < |a.videos| => JObj(YoutubeService.VideoDict(a.videos[i])));
    assert o["videos"] == JArr(items);
    assert forall i :: 0 <= i < |items| ==> DecodeVideoDto(items[i]) == Some(vs[i]);
    var d := DecodeEach(JArr(items), DecodeVideoDto);
    assert d.Some?;
    assert d.value == vs;
    assert ReadsChannelFields(o, c);
  }

  /** A negative, fractional or `null` subscriber count is refused. */
  lemma SubscribersMustBeUnsigned(o: Dict)
    requires "subscribers" in o && AsUInt(o["subscribers"]).None?
    ensures DecodeChannelDto(JObj(o)) == None
  {
    assert KeyName(Subscribers) == "subscribers";
  }
}
