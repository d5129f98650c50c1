/** `Channel`, the stored model of a channel page, built from its DTO. */
module ChannelModel {
  import opened ChannelDto
  import opened VideoModel

  class Channel {
    var id: string
    var title: string
    var desc: string
    var subscribers: nat
    var videos: seq<Video>
    var avatarURL: string
    var bannerURL: string

    /** `init(dto:)`. `convert` is `Video(dto:)`, whose definition is not part of this
        model. The scalar fields are copied and `videos` is filled by a loop, one
        converted element per DTO element, in order. */
    constructor FromDto(dto: ChannelDTO, convert: VideoDto -> Video)
      ensures id == dto.id && title == dto.title && desc == dto.desc
      ensures subscribers == dto.subscribers
      ensures avatarURL == dto.avatarURL && bannerURL == dto.bannerURL
      ensures |videos| == |dto.videos|
      ensures forall i :: 0 <= i < |dto.videos| ==> videos[i] == convert(dto.videos[i])
    {
      id := dto.id;
      title := dto.title;
      desc := dto.desc;
      subscribers := dto.subscribers;
      var converted: seq<Video> := [];
      for i := 0 to |dto.videos|
        invariant |converted| == i
        invariant forall j :: 0 <= j < i ==> converted[j] == convert(dto.videos[j])
      {
        converted := converted + [convert(dto.videos[i])];
      }
      videos := converted;
      avatarURL := dto.avatarURL;
      bannerURL := dto.bannerURL;
    }
  }
}
