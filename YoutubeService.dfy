/** The Python backend (YoutubeService/main.py): the routes it serves and how it
    shapes the metadata `yt_dlp.extract_info` returns into the JSON the client reads.

    `extract_info`'s result is an input here: a dict of JSON values. Every Python
    exception a handler raises becomes an `Err`; FastAPI answers all of them with
    status 500. */
module YoutubeService {
  import opened Wrappers
  import opened JsonValues
  import opened Text
  import opened Http

  /** The exceptions the handlers can raise on malformed metadata. */
  datatype PyError = KeyError | TypeError | AttributeError | ZeroDivisionError

  // ------------------------------------------------------- Python built-ins

  /** `d.get(key)`. */
  function Get(d: Dict, key: string): Json {
    if key in d then d[key] else JNull
  }

  /** `d.get(key, default)`: the default only when the key is absent. */
  function GetOr(d: Dict, key: string, default: Json): Json {
    if key in d then d[key] else default
  }

  /** `d[key]`. */
  function Lookup(d: Dict, key: string): Result<Json, PyError> {
    if key in d then Ok(d[key]) else Err(KeyError)
  }

  /** The value Python's arithmetic sees (`bool` is a subclass of `int`). */
  function PyNumber(j: Json): Option<real> {
    match j
    case JNum(n) => Some(n)
    case JBool(b) => Some(if b then 1.0 else 0.0)
    case _ => None
  }

  /** Python truthiness. */
  predicate Truthy(j: Json) {
    match j
    case JNull => false
    case JBool(b) => b
    case JNum(n) => n != 0.0
    case JStr(s) => s != ""
    case JArr(a) => a != []
    case JObj(m) => m != map[]
  }

  /** Iterating a JSON list whose elements the loop treats as dicts. */
  function AsDicts(j: Json): (r: Result<seq<Dict>, PyError>)
    ensures r.Ok? ==> j.JArr? && |r.value| == |j.items|
    ensures r.Ok? ==> forall i :: 0 <= i < |j.items| ==> j.items[i] == JObj(r.value[i])
  {
    if !j.JArr? then Err(TypeError)
    else if forall i :: 0 <= i < |j.items| ==> j.items[i].JObj? then
      Ok(seq(|j.items|, i requires 0 <= i < |j.items| => j.items[i].fields))
    else Err(TypeError)
  }

  /** Python's `max(keys)` position: the FIRST element with the greatest key
      (CPython replaces the running maximum only on a strictly greater key). */
  function ArgMax(keys: seq<real>): (k: nat)
    requires |keys| > 0
    ensures k < |keys|
    ensures forall i :: 0 <= i < |keys| ==> keys[i] <= keys[k]
    ensures forall i :: 0 <= i < k ==> keys[i] < keys[k]
    decreases |keys|
  {
    if |keys| == 1 then 0
    else
      var best := ArgMax(keys[..|keys| - 1]);
      if keys[|keys| - 1] > keys[best] then |keys| - 1 else best
  }

  // ------------------------------------------------------------- thumbnails

  /** `[t for t in thumbnails if "resolution" in t]`. */
  function ResolutionCandidates(ts: seq<Dict>): (cs: seq<Dict>)
    ensures forall t :: t in cs ==> "resolution" in t
    ensures forall t :: t in ts && "resolution" in t ==> t in cs
    ensures forall t :: t in cs ==> t in ts
    decreases |ts|
  {
    if ts == [] then []
    else (if "resolution" in ts[0] then [ts[0]] else []) + ResolutionCandidates(ts[1..])
  }

  /** `t["width"]` and `t["height"]` as numbers. */
  function Dimensions(t: Dict): Result<(real, real), PyError> {
    if "width" !in t || "height" !in t then Err(KeyError)
    else match (PyNumber(t["width"]), PyNumber(t["height"]))
      case (Some(w), Some(h)) => Ok((w, h))
      case _ => Err(TypeError)
  }

  /** The `key=lambda t: t["width"] * t["height"]` of both `max` calls. */
  function Areas(cs: seq<Dict>): (r: Result<seq<real>, PyError>)
    ensures r.Ok? ==> |r.value| == |cs|
    ensures r.Ok? ==> forall i :: 0 <= i < |cs| ==>
      Dimensions(cs[i]).Ok? && r.value[i] == Dimensions(cs[i]).value.0 * Dimensions(cs[i]).value.1
    decreases |cs|
  {
    if cs == [] then Ok([])
    else match Dimensions(cs[0])
      case Err(e) => Err(e)
      case Ok(d) =>
        match Areas(cs[1..])
        case Err(e) => Err(e)
        case Ok(rest) =>
          assert forall i :: 1 <= i < |cs| ==> cs[i] == cs[1..][i - 1];
          Ok([d.0 * d.1] + rest)
  }

  /** `abs(w / h - 1.0) < 0.01`, for a non-zero height. */
  predicate IsSquare(w: real, h: real)
    requires h != 0.0
  {
    -0.01 < w / h - 1.0 < 0.01
  }

  function Abs(x: real): real {
    if x < 0.0 then -x else x
  }

  /** The squareness test says that width and height differ by less than 1% of the height. */
  lemma IsSquareMeaning(w: real, h: real)
    requires h != 0.0
    ensures IsSquare(w, h) <==> Abs(w - h) < 0.01 * Abs(h)
  {
    var q := w / h;
    assert q * h == w;
    SquareBand(w, h, q);
  }

  /** With `q * h == w`, `q` lies strictly between 0.99 and 1.01 exactly when `w` is
      within 1% of `h`. */
  lemma SquareBand(w: real, h: real, q: real)
    requires h != 0.0 && q * h == w
    ensures 0.99 < q < 1.01 <==> Abs(w - h) < 0.01 * Abs(h)
  {
    Scale(q, 1.01, h, w, 1.01 * h);
    Scale(0.99, q, h, 0.99 * h, w);
  }

  /** Multiplying both sides of `a < b` by `c` keeps the order when `c` is positive and
      reverses it when `c` is negative. */
  lemma Scale(a: real, b: real, c: real, pa: real, pb: real)
    requires a * c == pa && b * c == pb
    ensures c > 0.0 ==> (a < b <==> pa < pb)
    ensures c < 0.0 ==> (a < b <==> pb < pa)
  {
    assert pb - pa == (b - a) * c;
    if a < b && c > 0.0 {
      assert (b - a) * c > 0.0;
    } else if a < b && c < 0.0 {
      assert (b - a) * c < 0.0;
    } else if c > 0.0 {
      assert (a - b) * c >= 0.0;
    } else if c < 0.0 {
      assert (a - b) * c <= 0.0;
    }
  }

  /** `[t for t in candidates if abs(t["width"]/t["height"] - 1.0) < 0.01]`. */
  function SquareCandidates(cs: seq<Dict>): (r: Result<seq<Dict>, PyError>)
    ensures r.Ok? ==> forall t :: t in r.value ==> t in cs
    ensures r.Ok? ==> forall t :: t in cs ==> Dimensions(t).Ok? && Dimensions(t).value.1 != 0.0
    ensures r.Ok? ==> forall t :: t in cs ==>
      (t in r.value <==> IsSquare(Dimensions(t).value.0, Dimensions(t).value.1))
    decreases |cs|
  {
    if cs == [] then Ok([])
    else match Dimensions(cs[0])
      case Err(e) => Err(e)
      case Ok(d) =>
        if d.1 == 0.0 then Err(ZeroDivisionError)
        else match SquareCandidates(cs[1..])
          case Err(e) => Err(e)
          case Ok(rest) => Ok((if IsSquare(d.0, d.1) then [cs[0]] else []) + rest)
  }

  /** `max(candidates, key=area)["url"]`, or `None` for no candidates. */
  function LargestUrl(cs: seq<Dict>): Result<Option<Json>, PyError> {
    if cs == [] then Ok(None)
    else match Areas(cs)
      case Err(e) => Err(e)
      case Ok(keys) =>
        match Lookup(cs[ArgMax(keys)], "url")
        case Err(e) => Err(e)
        case Ok(u) => Ok(Some(u))
  }

  /** `get_highest_res_banner`, over the thumbnails once they are iterated as dicts. */
  function HighestResBanner(ts: seq<Dict>): Result<Option<Json>, PyError> {
    LargestUrl(ResolutionCandidates(ts))
  }

  /** `get_highest_res_avatar`, over the thumbnails once they are iterated as dicts. */
  function HighestResAvatar(ts: seq<Dict>): Result<Option<Json>, PyError> {
    match SquareCandidates(ResolutionCandidates(ts))
    case Err(e) => Err(e)
    case Ok(square) => LargestUrl(square)
  }

  /** The url of the first candidate of greatest area, as `max(..., key=area)["url"]` picks it. */
  predicate IsFirstLargestUrl(cs: seq<Dict>, u: Json, k: nat)
    requires Areas(cs).Ok?
  {
    && k < |cs| && "url" in cs[k] && u == cs[k]["url"]
    && (forall i :: 0 <= i < |cs| ==> Areas(cs).value[i] <= Areas(cs).value[k])
    && (forall i :: 0 <= i < k ==> Areas(cs).value[i] < Areas(cs).value[k])
  }

  lemma LargestUrlIsFirstLargest(cs: seq<Dict>, u: Json) returns (k: nat)
    requires LargestUrl(cs) == Ok(Some(u))
    ensures Areas(cs).Ok? && IsFirstLargestUrl(cs, u, k)
  {
    k := ArgMax(Areas(cs).value);
  }

  /** The banner is absent exactly when no thumbnail carries a "resolution" key. */
  lemma BannerAbsentIff(ts: seq<Dict>)
    ensures HighestResBanner(ts) == Ok(None) <==> forall i :: 0 <= i < |ts| ==> "resolution" !in ts[i]
  {
    var cs := ResolutionCandidates(ts);
    if cs != [] {
      assert cs[0] in cs;
    }
    if exists i :: 0 <= i < |ts| && "resolution" in ts[i] {
      var i :| 0 <= i < |ts| && "resolution" in ts[i];
      assert ts[i] in ts;
    }
  }

  /** A banner url, when there is one, is that of a "resolution" thumbnail of greatest
      area, the first such one. */
  lemma BannerIsLargest(ts: seq<Dict>, u: Json) returns (k: nat)
    requires HighestResBanner(ts) == Ok(Some(u))
    ensures var cs := ResolutionCandidates(ts);
      Areas(cs).Ok? && IsFirstLargestUrl(cs, u, k) && "resolution" in cs[k] && cs[k] in ts
  {
    var cs := ResolutionCandidates(ts);
    k := LargestUrlIsFirstLargest(cs, u);
    assert cs[k] in cs;
  }

  /** The avatar candidates are the "resolution" thumbnails whose width and height differ
      by less than 1% of the height; there is no avatar exactly when there are none. */
  lemma AvatarCandidatesAreSquare(ts: seq<Dict>)
    requires HighestResAvatar(ts).Ok?
    ensures var cs := ResolutionCandidates(ts);
      var square := SquareCandidates(cs).value;
      && (forall t :: t in square <==> t in cs && IsNearlySquare(t))
      && (HighestResAvatar(ts) == Ok(None) <==> square == [])
  {
    var cs := ResolutionCandidates(ts);
    forall t | t in cs
      ensures t in SquareCandidates(cs).value <==> IsNearlySquare(t)
    {
      IsSquareMeaning(Dimensions(t).value.0, Dimensions(t).value.1);
    }
  }

  /** Width and height differ by less than 1% of the height. */
  predicate IsNearlySquare(t: Dict)
    requires Dimensions(t).Ok?
  {
    var (w, h) := Dimensions(t).value;
    Abs(w - h) < 0.01 * Abs(h)
  }

  /** An avatar url, when there is one, is that of the first nearly square "resolution"
      thumbnail of greatest area among the nearly square ones. */
  lemma AvatarIsLargestSquare(ts: seq<Dict>, u: Json) returns (k: nat)
    requires HighestResAvatar(ts) == Ok(Some(u))
    ensures var square := SquareCandidates(ResolutionCandidates(ts)).value;
      Areas(square).Ok? && IsFirstLargestUrl(square, u, k) && square[k] in ts &&
      "resolution" in square[k] && IsNearlySquare(square[k])
  {
    var cs := ResolutionCandidates(ts);
    var square := SquareCandidates(cs).value;
    k := LargestUrlIsFirstLargest(square, u);
    assert square[k] in square;
    AvatarCandidatesAreSquare(ts);
  }

  // ----------------------------------------------------------- get_video

  /** The filter of `progressive_formats`: audio and video, MP4, not HLS.
      `and` short-circuits, so the protocol is inspected only when the rest hold;
      a protocol that is present but not a string has no `startswith`. */
  function IsProgressive(f: Dict): Result<bool, PyError> {
    if Get(f, "acodec") == JStr("none") || Get(f, "vcodec") == JStr("none") || Get(f, "ext") != JStr("mp4") then
      Ok(false)
    else match GetOr(f, "protocol", JStr(""))
      case JStr(p) => Ok(!StartsWith(p, "m3u8"))
      case _ => Err(AttributeError)
  }

  /** The conditions of the filter, stated field by field. */
  predicate QualifiesAsProgressive(f: Dict) {
    && Get(f, "acodec") != JStr("none")
    && Get(f, "vcodec") != JStr("none")
    && Get(f, "ext") == JStr("mp4")
    && GetOr(f, "protocol", JStr("")).JStr?
    && !StartsWith(GetOr(f, "protocol", JStr("")).s, "m3u8")
  }

  /** The list comprehension `progressive_formats`, in input order. */
  function ProgressiveFormats(fs: seq<Json>): (r: Result<seq<Dict>, PyError>)
    ensures r.Ok? ==> forall f :: f in r.value ==> QualifiesAsProgressive(f) && JObj(f) in fs
    ensures r.Ok? ==> forall f :: JObj(f) in fs && QualifiesAsProgressive(f) ==> f in r.value
    decreases |fs|
  {
    if fs == [] then Ok([])
    else if !fs[0].JObj? then Err(AttributeError)
    else match IsProgressive(fs[0].fields)
      case Err(e) => Err(e)
      case Ok(keep) =>
        match ProgressiveFormats(fs[1..])
        case Err(e) => Err(e)
        case Ok(rest) =>
          assert forall f :: JObj(f) in fs[1..] ==> JObj(f) in fs;
          Ok((if keep then [fs[0].fields] else []) + rest)
  }

  /** `f.get("height", 0)`, when it is a number. */
  function HeightKey(f: Dict): Option<real> {
    PyNumber(GetOr(f, "height", JNum(0.0)))
  }

  /** `max(formats, key=height, default=None)`. With two or more formats every key
      is compared at least once, and comparing a non-number with a number raises. */
  function BestFormat(ps: seq<Dict>): (r: Result<Option<Dict>, PyError>)
    ensures r == Ok(None) <==> ps == []
    ensures r.Ok? && r.value.Some? ==> r.value.value in ps
  {
    if ps == [] then Ok(None)
    else if |ps| == 1 then Ok(Some(ps[0]))
    else if forall i :: 0 <= i < |ps| ==> HeightKey(ps[i]).Some? then
      Ok(Some(ps[ArgMax(seq(|ps|, i requires 0 <= i < |ps| => HeightKey(ps[i]).value))]))
    else Err(TypeError)
  }

  /** The JSON body of `/video/{id}`. */
  datatype StreamAnswer = StreamAnswer(streamUrl: Json, headers: Json)

  function StreamAnswerJson(a: StreamAnswer): Json {
    JObj(map["stream_url" := a.streamUrl, "headers" := a.headers])
  }

  /** `get_video`, from `extract_info`'s result onward. */
  function GetVideo(info: Dict): Result<StreamAnswer, PyError> {
    match Get(info, "formats")
    case JArr(fs) =>
      (match ProgressiveFormats(fs)
       case Err(e) => Err(e)
       case Ok(ps) =>
         match BestFormat(ps)
         case Err(e) => Err(e)
         case Ok(None) => Err(AttributeError)
         case Ok(Some(best)) =>
           match Lookup(best, "url")
           case Err(e) => Err(e)
           case Ok(url) => Ok(StreamAnswer(url, GetOr(best, "http_headers", JObj(map[])))))
    case _ => Err(TypeError)
  }

  /** `ps[k]` has the greatest height key, and every earlier one a smaller key; with a
      single format no key is compared. */
  predicate IsFirstTallest(ps: seq<Dict>, k: nat) {
    && k < |ps|
    && (|ps| >= 2 ==> forall i :: 0 <= i < |ps| ==>
          && HeightKey(ps[i]).Some? && HeightKey(ps[k]).Some?
          && HeightKey(ps[i]).value <= HeightKey(ps[k]).value
          && (i < k ==> HeightKey(ps[i]).value < HeightKey(ps[k]).value))
  }

  /** `get_video` answers with the url and headers of a qualifying format of greatest
      height (a missing height counting as 0), the first such one; and fails when no
      format qualifies. */
  lemma GetVideoChoosesTallestProgressive(info: Dict) returns (k: nat)
    requires Get(info, "formats").JArr? && ProgressiveFormats(Get(info, "formats").items).Ok?
    ensures var ps := ProgressiveFormats(Get(info, "formats").items).value;
      && (ps == [] ==> GetVideo(info).Err?)
      && (GetVideo(info).Ok? ==>
            && IsFirstTallest(ps, k) && QualifiesAsProgressive(ps[k]) && "url" in ps[k]
            && GetVideo(info).value == StreamAnswer(ps[k]["url"], GetOr(ps[k], "http_headers", JObj(map[]))))
  {
    k := 0;
    var ps := ProgressiveFormats(Get(info, "formats").items).value;
    if GetVideo(info).Ok? {
      assert BestFormat(ps).Ok? && BestFormat(ps).value.Some?;
      k := BestFormatIsFirstTallest(ps);
      assert ps[k] in ps;
    }
  }

  /** The format `max` picks is the first of greatest height. */
  lemma BestFormatIsFirstTallest(ps: seq<Dict>) returns (k: nat)
    requires BestFormat(ps).Ok? && BestFormat(ps).value.Some?
    ensures IsFirstTallest(ps, k) && BestFormat(ps) == Ok(Some(ps[k]))
  {
    k := 0;
    if |ps| >= 2 {
      var keys := seq(|ps|, i requires 0 <= i < |ps| => HeightKey(ps[i]).value);
      k := ArgMax(keys);
      assert forall i :: 0 <= i < |ps| ==> keys[i] == HeightKey(ps[i]).value;
    }
  }

  // ------------------------------------------------- entries: shared pieces

  /** `raw.isupper() and not raw.islower()` → `raw.lower().capitalize()`. */
  function NormalizeTitle(raw: string): (title: string)
    ensures |title| == |raw|
    ensures !PyIsUpper(raw) ==> title == raw
    ensures PyIsUpper(raw) ==> forall i :: 1 <= i < |raw| ==> title[i] == ToLowerChar(raw[i])
    ensures PyIsUpper(raw) && |raw| > 0 ==> title[0] == raw[0]
  {
    UpperIsNotLower(raw);
    if PyIsUpper(raw) && !PyIsLower(raw) then
      if |raw| > 0 then RaiseLowered(raw[0]); Capitalize(Lower(raw)) else Capitalize(Lower(raw))
    else raw
  }

  /** Normalising a title a second time changes nothing. */
  lemma NormalizeTitleIdempotent(raw: string)
    ensures NormalizeTitle(NormalizeTitle(raw)) == NormalizeTitle(raw)
  {
    var t := NormalizeTitle(raw);
    if PyIsUpper(raw) && PyIsUpper(t) {
      // every cased character of t is upper case, so only t[0] can be cased
      forall i | 1 <= i < |t| ensures t[i] == raw[i] && !IsCased(t[i]) {
        assert !IsLowerChar(t[i]);
        assert !IsUpperChar(t[i]);
      }
      assert NormalizeTitle(t) == t;
    }
  }

  /** `thumbnails[-1]["url"] if thumbnails else ""`. */
  function LastThumbnailUrl(thumbnails: Json): (r: Result<Json, PyError>)
    ensures !Truthy(thumbnails) ==> r == Ok(JStr(""))
    ensures r.Ok? && Truthy(thumbnails) ==> (
      && thumbnails.JArr? && |thumbnails.items| > 0
      && var last := thumbnails.items[|thumbnails.items| - 1];
         last.JObj? && "url" in last.fields && r.value == last.fields["url"])
  {
    if !Truthy(thumbnails) then Ok(JStr(""))
    else match thumbnails
      case JArr(a) =>
        var last := a[|a| - 1];
        if !last.JObj? then Err(TypeError)
        else if "url" !in last.fields then Err(KeyError)
        else Ok(last.fields["url"])
      case JObj(_) => Err(KeyError)
      case _ => Err(TypeError)
  }

  /** One video of a response, before it becomes a dict. */
  datatype VideoRecord = VideoRecord(
    id: Json, title: string, channelId: Json, uploader: Json,
    duration: Json, views: Json, isLive: bool, thumbnail: Json)

  /** The dict literal appended to `results` / `videos`; "stream_url" is always `None`. */
  function VideoDict(v: VideoRecord): Dict {
    map["id" := v.id, "title" := JStr(v.title), "channel_id" := v.channelId,
        "uploader" := v.uploader, "duration" := v.duration, "views" := v.views,
        "is_live" := JBool(v.isLive), "thumbnail" := v.thumbnail, "stream_url" := JNull]
  }

  /** `info.get("entries", [])`, iterated. */
  function Entries(info: Dict): Result<seq<Json>, PyError> {
    match GetOr(info, "entries", JArr([]))
    case JArr(es) => Ok(es)
    case _ => Err(TypeError)
  }

  // ------------------------------------------------------------ search

  /** `live_status not in (None, "was_live", False)` is false; `0 == False` in Python. */
  predicate NotLive(status: Json) {
    status == JNull || status == JStr("was_live") || status == JBool(false) || status == JNum(0.0)
  }

  /** The two `continue`s of the search loop. `"/channel/" in url` needs a string url. */
  function SearchSkips(e: Dict): Result<bool, PyError> {
    if Get(e, "availability") == JStr("subscriber_only") then Ok(true)
    else match Get(e, "url")
      case JStr(u) => Ok(Contains(u, "/channel/") || Contains(u, "/shorts/"))
      case _ => Err(TypeError)
  }

  /** The record built for a search entry that was not skipped. */
  function SearchRecord(e: Dict): (r: Result<VideoRecord, PyError>)
    ensures r.Ok? ==> r.value.isLive == !NotLive(Get(e, "live_status"))
    ensures r.Ok? && r.value.isLive ==>
      r.value.duration == JNull && r.value.views == Get(e, "concurrent_view_count")
    ensures r.Ok? && !r.value.isLive ==>
      r.value.duration == Get(e, "duration") && r.value.views == GetOr(e, "view_count", JNum(0.0))
    ensures r.Ok? ==> Get(e, "title").JStr? && r.value.title == NormalizeTitle(Get(e, "title").s)
    ensures r.Ok? ==> LastThumbnailUrl(Get(e, "thumbnails")) == Ok(r.value.thumbnail)
    ensures r.Ok? ==> (r.value.id == Get(e, "id") && r.value.channelId == Get(e, "channel_id") &&
      r.value.uploader == Get(e, "uploader"))
  {
    var isLive := !NotLive(Get(e, "live_status"));
    match Get(e, "title")
    case JStr(raw) =>
      (match LastThumbnailUrl(Get(e, "thumbnails"))
       case Err(err) => Err(err)
       case Ok(thumb) =>
         Ok(VideoRecord(
           Get(e, "id"), NormalizeTitle(raw), Get(e, "channel_id"), Get(e, "uploader"),
           if isLive then JNull else Get(e, "duration"),
           if isLive then Get(e, "concurrent_view_count") else GetOr(e, "view_count", JNum(0.0)),
           isLive, thumb)))
    case _ => Err(AttributeError)
  }

  /** One iteration of the search loop: skip, append, or raise. */
  function SearchStep(entry: Json): Result<Option<VideoRecord>, PyError> {
    if !entry.JObj? then Err(AttributeError)
    else match SearchSkips(entry.fields)
      case Err(err) => Err(err)
      case Ok(true) => Ok(None)
      case Ok(false) =>
        match SearchRecord(entry.fields)
        case Err(err) => Err(err)
        case Ok(v) => Ok(Some(v))
  }

  /** `results` after the loop has run over `entries` (the first exception wins). */
  function SearchResults(entries: seq<Json>): Result<seq<VideoRecord>, PyError>
    decreases |entries|
  {
    if entries == [] then Ok([])
    else
      match SearchResults(entries[..|entries| - 1])
      case Err(err) => Err(err)
      case Ok(rs) =>
        match SearchStep(entries[|entries| - 1])
        case Err(err) => Err(err)
        case Ok(None) => Ok(rs)
        case Ok(Some(v)) => Ok(rs + [v])
  }

  /** The search loop: `for entry in entries: ... results.append(...)`. */
  method CollectSearchResults(entries: seq<Json>) returns (r: Result<seq<VideoRecord>, PyError>)
    ensures r == SearchResults(entries)
  {
    var results: seq<VideoRecord> := [];
    var i := 0;
    while i < |entries|
      invariant 0 <= i <= |entries|
      invariant SearchResults(entries[..i]) == Ok(results)
    {
      assert entries[..i + 1][..i] == entries[..i];
      var step := SearchStep(entries[i]);
      match step {
        case Err(err) =>
          SearchErrorPersists(entries, i + 1);
          return Err(err);
        case Ok(None) =>
        case Ok(Some(v)) =>
          results := results + [v];
      }
      i := i + 1;
    }
    assert entries[..i] == entries;
    r := Ok(results);
  }

  /** Once an entry raises, the whole loop has raised. */
  lemma {:induction false} SearchErrorPersists(entries: seq<Json>, n: nat)
    requires n <= |entries| && SearchResults(entries[..n]).Err?
    ensures SearchResults(entries) == SearchResults(entries[..n])
    decreases |entries| - n
  {
    if n < |entries| {
      assert entries[..n + 1][..n] == entries[..n];
      SearchErrorPersists(entries, n + 1);
    } else {
      assert entries[..n] == entries;
    }
  }

  /** The `search` handler, from `extract_info`'s result onward. */
  method Search(info: Dict) returns (r: Result<seq<Dict>, PyError>)
    ensures Entries(info).Err? ==> r == Err(Entries(info).error)
    ensures Entries(info).Ok? ==> match SearchResults(Entries(info).value)
      case Err(err) => r == Err(err)
      case Ok(rs) => r.Ok? && |r.value| == |rs| && forall i :: 0 <= i < |rs| ==> r.value[i] == VideoDict(rs[i])
  {
    var entries := Entries(info);
    if entries.Err? {
      return Err(entries.error);
    }
    var records := CollectSearchResults(entries.value);
    if records.Err? {
      return Err(records.error);
    }
    r := Ok(seq(|records.value|, i requires 0 <= i < |records.value| => VideoDict(records.value[i])));
  }

  /** The entries the search loop does not skip, in input order. */
  function SearchSurvivors(entries: seq<Json>): seq<Dict>
    decreases |entries|
  {
    if entries == [] then []
    else
      var last := entries[|entries| - 1];
      SearchSurvivors(entries[..|entries| - 1]) +
        (if last.JObj? && SearchSkips(last.fields) == Ok(false) then [last.fields] else [])
  }

  /** A search that succeeds keeps exactly the entries that are neither subscriber-only nor
      a channel or shorts link, in input order, one record per surviving entry. */
  lemma {:induction false} SearchKeepsSurvivorsInOrder(entries: seq<Json>)
    requires SearchResults(entries).Ok?
    ensures var out := SearchResults(entries).value;
      var kept := SearchSurvivors(entries);
      |out| == |kept| && forall j :: 0 <= j < |out| ==> SearchRecord(kept[j]) == Ok(out[j])
    decreases |entries|
  {
    if entries != [] {
      SearchKeepsSurvivorsInOrder(entries[..|entries| - 1]);
    }
  }

  /** The dicts the search loop keeps: not subscriber-only, with a string url that
      contains neither "/channel/" nor "/shorts/". */
  predicate Kept(d: Dict) {
    Get(d, "availability") != JStr("subscriber_only") &&
    Get(d, "url").JStr? && !Contains(Get(d, "url").s, "/channel/") && !Contains(Get(d, "url").s, "/shorts/")
  }

  /** Membership in the survivors: an entry survives iff it is a dict that is not
      subscriber-only and whose url contains neither "/channel/" nor "/shorts/". */
  lemma {:induction false} SearchSurvivorsAre(entries: seq<Json>, d: Dict)
    requires SearchResults(entries).Ok?
    ensures d in SearchSurvivors(entries) <==> JObj(d) in entries && Kept(d)
    decreases |entries|
  {
    if entries != [] {
      var init := entries[..|entries| - 1];
      var last := entries[|entries| - 1];
      SearchErrorPrefix(entries);
      SearchSurvivorsAre(init, d);
      SurvivorsStep(entries, d);
      SearchStepOk(entries, |entries| - 1);
      LastSurvives(last, d);
    }
  }

  /** The survivors of a non-empty list are those of all but its last entry, and the
      last entry when it is kept. */
  lemma SurvivorsStep(entries: seq<Json>, d: Dict)
    requires entries != []
    ensures var init, last := entries[..|entries| - 1], entries[|entries| - 1];
      && (d in SearchSurvivors(entries) <==>
            d in SearchSurvivors(init) || (last.JObj? && SearchSkips(last.fields) == Ok(false) && last.fields == d))
      && (JObj(d) in entries <==> JObj(d) in init || JObj(d) == last)
  {
    var init, last := entries[..|entries| - 1], entries[|entries| - 1];
    assert entries == init + [last];
    var tail := if last.JObj? && SearchSkips(last.fields) == Ok(false) then [last.fields] else [];
    assert SearchSurvivors(entries) == SearchSurvivors(init) + tail;
  }

  /** The entry a loop iteration keeps, for an iteration that did not raise. */
  lemma LastSurvives(last: Json, d: Dict)
    requires SearchStep(last).Ok?
    ensures (last.JObj? && SearchSkips(last.fields) == Ok(false) && last.fields == d) <==> (last == JObj(d) && Kept(d))
  {
  }

  /** Every entry of a successful search went through its iteration without raising. */
  lemma {:induction false} SearchStepOk(entries: seq<Json>, k: nat)
    requires SearchResults(entries).Ok? && k < |entries|
    ensures SearchStep(entries[k]).Ok?
    decreases |entries|
  {
    if k < |entries| - 1 {
      assert entries[..|entries| - 1][k] == entries[k];
      SearchStepOk(entries[..|entries| - 1], k);
    }
  }

  lemma SearchErrorPrefix(entries: seq<Json>)
    requires entries != [] && SearchResults(entries).Ok?
    ensures SearchResults(entries[..|entries| - 1]).Ok?
  {
  }

  // ---------------------------------------------------------- get_channel

  /** The record built for a channel video that is not subscriber-only. */
  function ChannelRecord(video: Dict, info: Dict): (r: Result<VideoRecord, PyError>)
    ensures r.Ok? ==> !r.value.isLive
    ensures r.Ok? ==> ("channel_id" in info && "channel" in info &&
      r.value.channelId == info["channel_id"] && r.value.uploader == info["channel"])
    ensures r.Ok? ==> (r.value.id == Get(video, "id") && r.value.duration == Get(video, "duration") &&
      r.value.views == Get(video, "view_count"))
    ensures r.Ok? ==> Get(video, "title").JStr? && r.value.title == NormalizeTitle(Get(video, "title").s)
    ensures r.Ok? ==> LastThumbnailUrl(Get(video, "thumbnails")) == Ok(r.value.thumbnail)
  {
    match Get(video, "title")
    case JStr(raw) =>
      (match LastThumbnailUrl(Get(video, "thumbnails"))
       case Err(err) => Err(err)
       case Ok(thumb) =>
         match Lookup(info, "channel_id")
         case Err(err) => Err(err)
         case Ok(channelId) =>
           match Lookup(info, "channel")
           case Err(err) => Err(err)
           case Ok(channel) =>
             Ok(VideoRecord(Get(video, "id"), NormalizeTitle(raw), channelId, channel,
               Get(video, "duration"), Get(video, "view_count"), false, thumb)))
    case _ => Err(AttributeError)
  }

  /** One iteration of the channel loop. */
  function ChannelStep(entry: Json, info: Dict): Result<Option<VideoRecord>, PyError> {
    if !entry.JObj? then Err(AttributeError)
    else if Get(entry.fields, "availability") == JStr("subscriber_only") then Ok(None)
    else match ChannelRecord(entry.fields, info)
      case Err(err) => Err(err)
      case Ok(v) => Ok(Some(v))
  }

  /** `videos` after the loop has run over `entries`. */
  function ChannelVideos(entries: seq<Json>, info: Dict): Result<seq<VideoRecord>, PyError>
    decreases |entries|
  {
    if entries == [] then Ok([])
    else
      match ChannelVideos(entries[..|entries| - 1], info)
      case Err(err) => Err(err)
      case Ok(vs) =>
        match ChannelStep(entries[|entries| - 1], info)
        case Err(err) => Err(err)
        case Ok(None) => Ok(vs)
        case Ok(Some(v)) => Ok(vs + [v])
  }

  lemma {:induction false} ChannelErrorPersists(entries: seq<Json>, info: Dict, n: nat)
    requires n <= |entries| && ChannelVideos(entries[..n], info).Err?
    ensures ChannelVideos(entries, info) == ChannelVideos(entries[..n], info)
    decreases |entries| - n
  {
    if n < |entries| {
      assert entries[..n + 1][..n] == entries[..n];
      ChannelErrorPersists(entries, info, n + 1);
    } else {
      assert entries[..n] == entries;
    }
  }

  /** The channel loop: `for video in entries: ... videos.append(...)`. */
  method CollectChannelVideos(entries: seq<Json>, info: Dict) returns (r: Result<seq<VideoRecord>, PyError>)
    ensures r == ChannelVideos(entries, info)
  {
    var videos: seq<VideoRecord> := [];
    var i := 0;
    while i < |entries|
      invariant 0 <= i <= |entries|
      invariant ChannelVideos(entries[..i], info) == Ok(videos)
    {
      assert entries[..i + 1][..i] == entries[..i];
      var step := ChannelStep(entries[i], info);
      match step {
        case Err(err) =>
          ChannelErrorPersists(entries, info, i + 1);
          return Err(err);
        case Ok(None) =>
        case Ok(Some(v)) =>
          videos := videos + [v];
      }
      i := i + 1;
    }
    assert entries[..i] == entries;
    r := Ok(videos);
  }

  /** The non-subscriber-only dicts among `entries`, in order. */
  function PublicEntries(entries: seq<Json>): seq<Dict>
    decreases |entries|
  {
    if entries == [] then []
    else
      var last := entries[|entries| - 1];
      PublicEntries(entries[..|entries| - 1]) +
        (if last.JObj? && Get(last.fields, "availability") != JStr("subscriber_only") then [last.fields] else [])
  }

  /** Each video of a channel is built, in input order, from one entry that is not
      subscriber-only; it is never live and carries the channel's id and name. */
  lemma {:induction false} ChannelVideosArePublicEntries(entries: seq<Json>, info: Dict)
    requires ChannelVideos(entries, info).Ok?
    ensures var vs := ChannelVideos(entries, info).value;
      var kept := PublicEntries(entries);
      && |vs| == |kept|
      && (forall j :: 0 <= j < |vs| ==> ChannelRecord(kept[j], info) == Ok(vs[j]))
      && (forall j :: 0 <= j < |vs| ==>
            !vs[j].isLive && vs[j].channelId == info["channel_id"] && vs[j].uploader == info["channel"])
    decreases |entries|
  {
    if entries != [] {
      ChannelVideosArePublicEntries(entries[..|entries| - 1], info);
    }
  }

  /** The JSON body of `/channel/{id}`. */
  datatype ChannelAnswer = ChannelAnswer(
    id: Json, title: Json, desc: Json, subscribers: Json,
    videos: seq<VideoRecord>, avatarUrl: Option<Json>, bannerUrl: Option<Json>)

  function OrNull(o: Option<Json>): Json {
    if o.Some? then o.value else JNull
  }

  function ChannelDict(a: ChannelAnswer): Dict {
    map["id" := a.id, "title" := a.title, "desc" := a.desc, "subscribers" := a.subscribers,
        "videos" := JArr(seq(|a.videos|, i requires 0 <= i < |a.videos| => JObj(VideoDict(a.videos[i])))),
        "avatar_url" := OrNull(a.avatarUrl), "banner_url" := OrNull(a.bannerUrl)]
  }

  /** `get_channel`, from `extract_info`'s result onward. */
  method GetChannel(info: Dict) returns (r: Result<ChannelAnswer, PyError>)
    ensures r.Ok? ==> ("thumbnails" in info && AsDicts(info["thumbnails"]).Ok? &&
      HighestResAvatar(AsDicts(info["thumbnails"]).value) == Ok(r.value.avatarUrl) &&
      HighestResBanner(AsDicts(info["thumbnails"]).value) == Ok(r.value.bannerUrl))
    ensures r.Ok? ==> Entries(info).Ok? && ChannelVideos(Entries(info).value, info) == Ok(r.value.videos)
    ensures r.Ok? ==> ("channel_id" in info && "channel" in info && "description" in info &&
      "channel_follower_count" in info &&
      r.value.id == info["channel_id"] && r.value.title == info["channel"] &&
      r.value.desc == info["description"] && r.value.subscribers == info["channel_follower_count"])
    ensures r.Err? ==> ("thumbnails" !in info || AsDicts(info["thumbnails"]).Err? ||
      HighestResAvatar(AsDicts(info["thumbnails"]).value).Err? ||
      HighestResBanner(AsDicts(info["thumbnails"]).value).Err? || Entries(info).Err? ||
      ChannelVideos(Entries(info).value, info).Err? ||
      "channel_id" !in info || "channel" !in info || "description" !in info ||
      "channel_follower_count" !in info)
  {
    var thumbnails := Lookup(info, "thumbnails");
    if thumbnails.Err? { return Err(thumbnails.error); }
    var ts := AsDicts(thumbnails.value);
    if ts.Err? { return Err(ts.error); }
    var avatar := HighestResAvatar(ts.value);
    if avatar.Err? { return Err(avatar.error); }
    var banner := HighestResBanner(ts.value);
    if banner.Err? { return Err(banner.error); }
    var entries := Entries(info);
    if entries.Err? { return Err(entries.error); }
    var videos := CollectChannelVideos(entries.value, info);
    if videos.Err? { return Err(videos.error); }
    var id := Lookup(info, "channel_id");
    if id.Err? { return Err(id.error); }
    var title := Lookup(info, "channel");
    if title.Err? { return Err(title.error); }
    var desc := Lookup(info, "description");
    if desc.Err? { return Err(desc.error); }
    var subscribers := Lookup(info, "channel_follower_count");
    if subscribers.Err? { return Err(subscribers.error); }
    r := Ok(ChannelAnswer(id.value, title.value, desc.value, subscribers.value, videos.value,
      avatar.value, banner.value));
  }

  // -------------------------------------------------------------- routes

  const Host: string := "127.0.0.1"
  const Port: nat := 8777

  /** The origin uvicorn serves the app on. */
  function ServedOrigin(): string {
    "http://" + Host + ":" + NatToString(Port)
  }

  /** The routes FastAPI dispatches to. */
  datatype Endpoint = Health | ChannelEndpoint(id: string) | VideoEndpoint(id: string) | SearchEndpoint(q: string)

  /** A single path parameter: non-empty and without a slash. */
  predicate IsPathParameter(s: string) {
    s != "" && forall i :: 0 <= i < |s| ==> s[i] != '/'
  }

  /** A scalar query parameter as FastAPI reads it from Starlette's multi-dict: when the
      name is repeated, the last occurrence wins. */
  function LastQueryValue(items: seq<QueryItem>, name: string): (r: Option<string>)
    ensures r.None? <==> forall i :: 0 <= i < |items| ==> items[i].name != name
    ensures r.Some? ==> exists i :: (0 <= i < |items| && items[i].name == name && items[i].value == r.value &&
                                     forall j :: i < j < |items| ==> items[j].name != name)
    decreases |items|
  {
    if items == [] then None
    else if items[|items| - 1].name == name then Some(items[|items| - 1].value)
    else LastQueryValue(items[..|items| - 1], name)
  }

  /** Which handler a request reaches; `None` is a 404, 405 or 422 answer. */
  function Route(req: Request): Option<Endpoint> {
    var path := req.url.path;
    if req.url.origin != ServedOrigin() then None
    else if req.verb == GET && path == "/health" then Some(Health)
    else if req.verb == GET && StartsWith(path, "/video/") && IsPathParameter(path[7..]) then
      Some(VideoEndpoint(path[7..]))
    else if req.verb == GET && StartsWith(path, "/channel/") && IsPathParameter(path[9..]) then
      Some(ChannelEndpoint(path[9..]))
    else if req.verb == POST && path == "/search" && LastQueryValue(req.url.query, "q").Some? then
      Some(SearchEndpoint(LastQueryValue(req.url.query, "q").value))
    else None
  }
}
