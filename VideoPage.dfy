/** The watch page: what it decodes from the backend and from the skip-segment
    service, the per-tick choice of a segment to skip, and `WatchVideoView`'s
    retry loop with its observer bookkeeping. The player is an abstract object that
    records what is asked of it; what it reports back arrives as event inputs. */
module VideoPage {
  import opened Wrappers
  import opened JsonValues
  import opened Http
  import YoutubeService

  // ------------------------------------------------------------ wire types

  /** `YtDlpHeaders`. */
  datatype YtDlpHeaders = YtDlpHeaders(userAgent: string, accept: string, acceptLanguage: string, secFetchMode: string)

  /** The cases of `YtDlpHeaders.CodingKeys`. */
  datatype HeaderKey = UserAgent | Accept | AcceptLanguage | SecFetchMode

  function HeaderName(k: HeaderKey): string {
    match k
    case UserAgent => "User-Agent"
    case Accept => "Accept"
    case AcceptLanguage => "Accept-Language"
    case SecFetchMode => "Sec-Fetch-Mode"
  }

  function HeaderValue(h: YtDlpHeaders, k: HeaderKey): string {
    match k
    case UserAgent => h.userAgent
    case Accept => h.accept
    case AcceptLanguage => h.acceptLanguage
    case SecFetchMode => h.secFetchMode
  }

  /** Decoding `YtDlpHeaders`: the four keys are required strings. */
  function DecodeHeaders(j: Json): (r: Option<YtDlpHeaders>)
    ensures r.Some? ==> j.JObj? && forall k: HeaderKey :: HeaderName(k) in j.fields
    ensures r.Some? ==> forall k: HeaderKey :: j.fields[HeaderName(k)] == JStr(HeaderValue(r.value, k))
  {
    if !j.JObj? then None
    else
      var o := j.fields;
      match (RequiredField(o, HeaderName(UserAgent), AsString), RequiredField(o, HeaderName(Accept), AsString),
             RequiredField(o, HeaderName(AcceptLanguage), AsString), RequiredField(o, HeaderName(SecFetchMode), AsString))
      case (Some(ua), Some(a), Some(al), Some(sfm)) => Some(YtDlpHeaders(ua, a, al, sfm))
      case _ => None
  }

  /** `headersDict` in `play()`: the decoded headers keyed by their wire names. */
  function HeadersDict(h: YtDlpHeaders): map<string, string> {
    map[HeaderName(UserAgent) := h.userAgent, HeaderName(Accept) := h.accept,
        HeaderName(AcceptLanguage) := h.acceptLanguage, HeaderName(SecFetchMode) := h.secFetchMode]
  }

  function StringsAsJson(d: map<string, string>): Json {
    JObj(map k | k in d :: JStr(d[k]))
  }

  /** `headersDict` holds exactly the four wire names, each with the value decoded from
      it, so decoding it again gives back the headers. */
  lemma HeadersDictRoundTrip(h: YtDlpHeaders)
    ensures HeadersDict(h).Keys == {"User-Agent", "Accept", "Accept-Language", "Sec-Fetch-Mode"}
    ensures forall k: HeaderKey :: HeadersDict(h)[HeaderName(k)] == HeaderValue(h, k)
    ensures DecodeHeaders(StringsAsJson(HeadersDict(h))) == Some(h)
  {
    var o := StringsAsJson(HeadersDict(h)).fields;
    assert o[HeaderName(UserAgent)] == JStr(h.userAgent);
    assert o[HeaderName(Accept)] == JStr(h.accept);
    assert o[HeaderName(AcceptLanguage)] == JStr(h.acceptLanguage);
    assert o[HeaderName(SecFetchMode)] == JStr(h.secFetchMode);
  }

  /** `Test`, the answer of `getVideo`. */
  datatype Test = Test(streamURL: string, headers: YtDlpHeaders)

  /** Decoding `Test`: a non-empty `stream_url` string and a `headers` object. */
  function DecodeTest(j: Json): (r: Option<Test>)
    ensures r.Some? ==> j.JObj? && "stream_url" in j.fields && "headers" in j.fields
    ensures r.Some? ==> AsUrl(j.fields["stream_url"]) == Some(r.value.streamURL)
    ensures r.Some? ==> DecodeHeaders(j.fields["headers"]) == Some(r.value.headers)
  {
    if !j.JObj? then None
    else
      match (RequiredField(j.fields, "stream_url", AsUrl), RequiredField(j.fields, "headers", DecodeHeaders))
      case (Some(u), Some(h)) => Some(Test(u, h))
      case _ => None
  }

  /** The backend's answer decodes exactly when its url is a non-empty string and its
      headers carry the four names as strings. */
  lemma BackendAnswerDecodes(a: YoutubeService.StreamAnswer)
    ensures DecodeTest(YoutubeService.StreamAnswerJson(a)).Some? <==>
      AsUrl(a.streamUrl).Some? && DecodeHeaders(a.headers).Some?
  {
    var o := YoutubeService.StreamAnswerJson(a).fields;
    assert o["stream_url"] == a.streamUrl && o["headers"] == a.headers;
  }

  /** A format without `http_headers` makes the backend answer `"headers": {}`, which
      the client cannot decode. */
  lemma DefaultHeadersFail(url: Json)
    ensures DecodeTest(YoutubeService.StreamAnswerJson(YoutubeService.StreamAnswer(url, JObj(map[])))) == None
  {
    var o := YoutubeService.StreamAnswerJson(YoutubeService.StreamAnswer(url, JObj(map[]))).fields;
    assert o["headers"] == JObj(map[]);
    assert DecodeHeaders(JObj(map[])) == None;
  }

  /** `SkipSegment`, one element of the skip-segment service's answer. Without coding
      keys, every field is read under its own name (`UUID` included). */
  datatype SkipSegment = SkipSegment(
    category: string, actionType: string, segment: seq<real>, uuid: string,
    videoDuration: real, locked: int, votes: int, description: string)

  /** The eight keys of `SkipSegment`, all required. */
  const SkipSegmentKeys: set<string> :=
    {"category", "actionType", "segment", "UUID", "videoDuration", "locked", "votes", "description"}

  /** Each field of `s` is what its key of `o` decodes to, with the field's type. */
  predicate ReadsSegmentFields(o: Dict, s: SkipSegment) {
    && RequiredField(o, "category", AsString) == Some(s.category)
    && RequiredField(o, "actionType", AsString) == Some(s.actionType)
    && RequiredField(o, "segment", (v: Json) => DecodeEach(v, AsDouble)) == Some(s.segment)
    && RequiredField(o, "UUID", AsString) == Some(s.uuid)
    && RequiredField(o, "videoDuration", AsDouble) == Some(s.videoDuration)
    && RequiredField(o, "locked", AsInt) == Some(s.locked)
    && RequiredField(o, "votes", AsInt) == Some(s.votes)
    && RequiredField(o, "description", AsString) == Some(s.description)
  }

  /** The synthesized `Codable` decoding of `SkipSegment`: all eight keys are required,
      each decoded as its field's type (`String`, `[Double]`, `Double` or `Int`). */
  function DecodeSkipSegment(j: Json): (r: Option<SkipSegment>)
    ensures r.Some? ==> j.JObj? && SkipSegmentKeys <= j.fields.Keys
    ensures j.JObj? && !(SkipSegmentKeys <= j.fields.Keys) ==> r.None?
    ensures r.Some? ==> ReadsSegmentFields(j.fields, r.value)
    ensures forall s :: j.JObj? && ReadsSegmentFields(j.fields, s) ==> r == Some(s)
  {
    if !j.JObj? then None
    else
      var o := j.fields;
      var category := RequiredField(o, "category", AsString);
      var actionType := RequiredField(o, "actionType", AsString);
      var segment := RequiredField(o, "segment", (v: Json) => DecodeEach(v, AsDouble));
      var uuid := RequiredField(o, "UUID", AsString);
      var videoDuration := RequiredField(o, "videoDuration", AsDouble);
      var locked := RequiredField(o, "locked", AsInt);
      var votes := RequiredField(o, "votes", AsInt);
      var description := RequiredField(o, "description", AsString);
      if && category.Some? && actionType.Some? && segment.Some? && uuid.Some?
         && videoDuration.Some? && locked.Some? && votes.Some? && description.Some?
      then Some(SkipSegment(category.value, actionType.value, segment.value, uuid.value,
                            videoDuration.value, locked.value, votes.value, description.value))
      else None
  }

  /** The synthesized `Codable` encoding of `SkipSegment`. */
  function EncodeSkipSegment(s: SkipSegment): Json {
    JObj(map[
      "category" := JStr(s.category), "actionType" := JStr(s.actionType),
      "segment" := JArr(seq(|s.segment|, i requires 0 <= i < |s.segment| => JNum(s.segment[i]))),
      "UUID" := JStr(s.uuid), "videoDuration" := JNum(s.videoDuration),
      "locked" := JNum(s.locked as real), "votes" := JNum(s.votes as real),
      "description" := JStr(s.description)])
  }

  /** A segment whose counts fit a 64-bit `Int` decodes back from its encoding. */
  lemma DecodeEncodeSkipSegment(s: SkipSegment)
    requires Int64Min <= s.locked < Int64Bound && Int64Min <= s.votes < Int64Bound
    ensures DecodeSkipSegment(EncodeSkipSegment(s)) == Some(s)
  {
    EncodedSegmentStrings(s);
    EncodedSegmentNumbers(s);
  }

  lemma EncodedSegmentStrings(s: SkipSegment)
    ensures var o := EncodeSkipSegment(s).fields;
      && RequiredField(o, "category", AsString) == Some(s.category)
      && RequiredField(o, "actionType", AsString) == Some(s.actionType)
      && RequiredField(o, "UUID", AsString) == Some(s.uuid)
      && RequiredField(o, "description", AsString) == Some(s.description)
  {
    var o := EncodeSkipSegment(s).fields;
    assert o["category"] == JStr(s.category) && o["actionType"] == JStr(s.actionType);
    assert o["UUID"] == JStr(s.uuid) && o["description"] == JStr(s.description);
  }

  lemma EncodedSegmentNumbers(s: SkipSegment)
    requires Int64Min <= s.locked < Int64Bound && Int64Min <= s.votes < Int64Bound
    ensures var o := EncodeSkipSegment(s).fields;
      && RequiredField(o, "segment", (v: Json) => DecodeEach(v, AsDouble)) == Some(s.segment)
      && RequiredField(o, "videoDuration", AsDouble) == Some(s.videoDuration)
      && RequiredField(o, "locked", AsInt) == Some(s.locked)
      && RequiredField(o, "votes", AsInt) == Some(s.votes)
  {
    var o := EncodeSkipSegment(s).fields;
    var items := seq(|s.segment|, i requires 0 <= i < |s.segment| => JNum(s.segment[i]));
    assert o["segment"] == JArr(items);
    assert forall i :: 0 <= i < |items| ==> AsDouble(items[i]) == Some(s.segment[i]);
    var d := DecodeEach(JArr(items), AsDouble);
    assert d.Some?;
    assert d.value == s.segment;
    assert o["videoDuration"] == JNum(s.videoDuration);
    assert o["locked"] == JNum(s.locked as real) && o["votes"] == JNum(s.votes as real);
    assert (s.locked as real).Floor == s.locked && (s.votes as real).Floor == s.votes;
  }

  /** An answer element lacking any one of the eight keys, `description` say, does not
      decode. */
  lemma SegmentKeyMissingFails(o: Dict, key: string)
    requires key in SkipSegmentKeys && key !in o
    ensures DecodeSkipSegment(JObj(o)) == None
  {
  }

  // ------------------------------------------------------------ skip scan

  /** `skip.segment[0]` and `skip.segment[1]` exist. */
  predicate WellFormed(s: SkipSegment) {
    |s.segment| >= 2
  }

  /** `currentTime >= start && currentTime < end`. */
  predicate Covers(s: SkipSegment, t: real)
    requires WellFormed(s)
  {
    s.segment[0] <= t < s.segment[1]
  }

  /** What one run of the periodic closure does: seek, nothing, or trap on a segment
      with fewer than two numbers. */
  datatype TickAction = SeekTo(target: real) | NoSeek | IndexOutOfRange

  /** `segs[k]` is the first segment covering `t`, and every earlier one was read
      without trapping. */
  predicate IsFirstCovering(segs: seq<SkipSegment>, t: real, k: int) {
    && 0 <= k < |segs|
    && (forall j :: 0 <= j < k ==> WellFormed(segs[j]) && !Covers(segs[j], t))
    && WellFormed(segs[k]) && Covers(segs[k], t)
  }

  /** The decision the loop over `skipSegments` makes at position `t`. */
  function FirstCovering(segs: seq<SkipSegment>, t: real): (a: TickAction)
    ensures a.SeekTo? <==> exists k :: IsFirstCovering(segs, t, k)
    ensures forall k :: IsFirstCovering(segs, t, k) ==> a == SeekTo(segs[k].segment[1] + 2.0)
    ensures a == NoSeek <==> forall j :: 0 <= j < |segs| ==> WellFormed(segs[j]) && !Covers(segs[j], t)
    decreases |segs|
  {
    if segs == [] then NoSeek
    else if !WellFormed(segs[0]) then IndexOutOfRange
    else if Covers(segs[0], t) then
      assert IsFirstCovering(segs, t, 0);
      SeekTo(segs[0].segment[1] + 2.0)
    else
      var rest := FirstCovering(segs[1..], t);
      assert forall k :: IsFirstCovering(segs[1..], t, k) ==> IsFirstCovering(segs, t, k + 1);
      assert forall k :: IsFirstCovering(segs, t, k) ==> k >= 1 && IsFirstCovering(segs[1..], t, k - 1);
      rest
  }

  /** The loop body of the periodic closure: scan in array order, seek past the first
      covering segment, `break`. */
  method ScanSegments(segs: seq<SkipSegment>, t: real) returns (a: TickAction)
    ensures a == FirstCovering(segs, t)
  {
    var i := 0;
    a := NoSeek;
    while i < |segs|
      invariant 0 <= i <= |segs|
      invariant forall j :: 0 <= j < i ==> WellFormed(segs[j]) && !Covers(segs[j], t)
    {
      if |segs[i].segment| < 2 {
        a := IndexOutOfRange;
        assert !exists k :: IsFirstCovering(segs, t, k);
        return;
      }
      var start := segs[i].segment[0];
      var end := segs[i].segment[1];
      if t >= start && t < end {
        a := SeekTo(end + 2.0);
        assert IsFirstCovering(segs, t, i);
        return;
      }
      i := i + 1;
    }
  }

  /** The choice depends on the list and `t` alone: a segment before the first
      covering one is passed over, and once seeking the scan looks no further. */
  lemma {:induction false} LaterSegmentsIgnored(segs: seq<SkipSegment>, more: seq<SkipSegment>, t: real)
    requires FirstCovering(segs, t).SeekTo?
    ensures FirstCovering(segs + more, t) == FirstCovering(segs, t)
  {
    var k :| IsFirstCovering(segs, t, k);
    assert IsFirstCovering(segs + more, t, k);
  }

  // ------------------------------------------------------------ the player

  datatype ItemNotification = TimeJumped | FailedToPlayToEndTime | PlaybackStalled | NewErrorLogEntry

  datatype TimeControlStatus = Paused | WaitingToPlayAtSpecifiedRate | Playing

  /** An `AVPlayerItem`, numbered in order of creation. */
  datatype PlayerItem = PlayerItem(serial: nat, url: string)

  /** What can arrive while the retry loop sleeps: a notification posted by an item, or
      a change of the player's `timeControlStatus`. */
  datatype PlayerEvent = ItemPosted(item: nat, note: ItemNotification) | StatusChanged(status: TimeControlStatus)

  /** A NotificationCenter registration for `note` posted by the item numbered `item`. */
  datatype ItemObserver = ItemObserver(note: ItemNotification, item: nat)

  /** The KVO observation of `timeControlStatus` made while starting item `item`. */
  datatype StatusObservation = StatusObservation(item: nat)

  /** The four registrations `startPlayback` makes for a new item, in order. */
  function ObserversFor(serial: nat): seq<ItemObserver> {
    [ItemObserver(TimeJumped, serial), ItemObserver(FailedToPlayToEndTime, serial),
     ItemObserver(PlaybackStalled, serial), ItemObserver(NewErrorLogEntry, serial)]
  }

  /** An event runs a closure that sets `playbackStarted`: a time jump of an item with
      a registered time-jump observer, or `.playing` while a status observation exists. */
  predicate Confirms(items: seq<ItemObserver>, statuses: seq<StatusObservation>, e: PlayerEvent) {
    match e
    case ItemPosted(item, note) => note == TimeJumped && ItemObserver(TimeJumped, item) in items
    case StatusChanged(status) => status == Playing && |statuses| > 0
  }

  /** With the registrations of one `startPlayback` in place, a window confirms
      playback exactly when the new item's time jump or the `.playing` status is in it;
      either one alone suffices. */
  predicate WindowConfirms(serial: nat, window: seq<PlayerEvent>) {
    ItemPosted(serial, TimeJumped) in window || StatusChanged(Playing) in window
  }

  lemma ConfirmsAfterStart(serial: nat, window: seq<PlayerEvent>)
    ensures (exists i :: 0 <= i < |window| && Confirms(ObserversFor(serial), [StatusObservation(serial)], window[i]))
      <==> WindowConfirms(serial, window)
  {
    if WindowConfirms(serial, window) {
      if ItemPosted(serial, TimeJumped) in window {
        var i :| 0 <= i < |window| && window[i] == ItemPosted(serial, TimeJumped);
        assert Confirms(ObserversFor(serial), [StatusObservation(serial)], window[i]);
      } else {
        var i :| 0 <= i < |window| && window[i] == StatusChanged(Playing);
        assert Confirms(ObserversFor(serial), [StatusObservation(serial)], window[i]);
      }
    }
  }

  /** `AVPlayer`, reduced to what the page asks of it. */
  class Player {
    var currentItem: Option<PlayerItem>
    var playing: bool
    var waitsToMinimizeStalling: bool
    /** The periodic time observers currently installed, by token. */
    var timeObservers: set<nat>
    var tokensIssued: nat
    /** Every seek target requested, in order. */
    var seeks: seq<real>

    constructor ()
      ensures currentItem == None && !playing && waitsToMinimizeStalling
      ensures timeObservers == {} && tokensIssued == 0 && seeks == []
    {
      currentItem := None;
      playing := false;
      waitsToMinimizeStalling := true;
      timeObservers := {};
      tokensIssued := 0;
      seeks := [];
    }

    method Play()
      modifies this`playing
      ensures playing
    {
      playing := true;
    }

    method Pause()
      modifies this`playing
      ensures !playing
    {
      playing := false;
    }

    method ReplaceCurrentItem(item: Option<PlayerItem>)
      modifies this`currentItem
      ensures currentItem == item
    {
      currentItem := item;
    }

    method SetWaitsToMinimizeStalling(waits: bool)
      modifies this`waitsToMinimizeStalling
      ensures waitsToMinimizeStalling == waits
    {
      waitsToMinimizeStalling := waits;
    }

    method AddPeriodicTimeObserver() returns (token: nat)
      modifies this`timeObservers, this`tokensIssued
      ensures token == old(tokensIssued) && tokensIssued == old(tokensIssued) + 1
      ensures timeObservers == old(timeObservers) + {token}
    {
      token := tokensIssued;
      tokensIssued := tokensIssued + 1;
      timeObservers := timeObservers + {token};
    }

    method RemoveTimeObserver(token: nat)
      modifies this`timeObservers
      ensures timeObservers == old(timeObservers) - {token}
    {
      timeObservers := timeObservers - {token};
    }

    method Seek(target: real)
      modifies this`seeks
      ensures seeks == old(seeks) + [target]
    {
      seeks := seeks + [target];
    }
  }

  /** The part of the page's state that teardown touches. */
  datatype TeardownState = TeardownState(
    currentItem: Option<PlayerItem>, playing: bool, timeObserver: Option<nat>,
    installed: set<nat>, playerObservers: seq<StatusObservation>, itemObservers: seq<ItemObserver>)

  /** What `onDisappear` leaves behind. */
  function TornDown(s: TeardownState): (r: TeardownState)
    ensures r.currentItem == None && !r.playing && r.timeObserver == None
    ensures r.playerObservers == [] && r.itemObservers == []
    ensures r.installed <= s.installed
    ensures s.timeObserver.None? ==> r.installed == s.installed
  {
    TeardownState(None, false, None,
      if s.timeObserver.Some? then s.installed - {s.timeObserver.value} else s.installed, [], [])
  }

  /** Tearing down twice is tearing down once. */
  lemma TornDownIdempotent(s: TeardownState)
    ensures TornDown(TornDown(s)) == TornDown(s)
  {
  }

  /** `WatchVideoView`. */
  class WatchVideoView {
    var videoID: string
    const player: Player
    var isLoading: bool
    var skipSegments: seq<SkipSegment>
    var errorMessage: Option<ClientError>
    /** Declared to hold the periodic observer's token; nothing ever stores one. */
    var timeObserver: Option<nat>
    var playerObservers: seq<StatusObservation>
    var itemObservers: seq<ItemObserver>
    /** How many `AVPlayerItem`s have been made; the next one gets this number. */
    var itemsCreated: nat

    constructor (videoID: string)
      ensures this.videoID == videoID && fresh(player)
      ensures isLoading && skipSegments == [] && errorMessage == None && timeObserver == None
      ensures playerObservers == [] && itemObservers == [] && itemsCreated == 0
      ensures player.currentItem == None && player.timeObservers == {} && player.seeks == []
    {
      this.videoID := videoID;
      player := new Player();
      isLoading := true;
      skipSegments := [];
      errorMessage := None;
      timeObserver := None;
      playerObservers := [];
      itemObservers := [];
      itemsCreated := 0;
    }

    function Teardown(): TeardownState
      reads this, player
    {
      TeardownState(player.currentItem, player.playing, timeObserver, player.timeObservers,
        playerObservers, itemObservers)
    }

    /** `cleanupObservers`: invalidate and drop every registration. */
    method CleanupObservers()
      modifies this`playerObservers, this`itemObservers
      ensures playerObservers == [] && itemObservers == []
    {
      playerObservers := [];
      itemObservers := [];
    }

    /** `startPlayback`: a new item replaces the current one and plays, with exactly
        four item registrations and one status observation, all for the new item. */
    method StartPlayback(url: string) returns (playbackStarted: bool)
      modifies this`itemsCreated, this`playerObservers, this`itemObservers
      modifies player`currentItem, player`playing, player`waitsToMinimizeStalling
      ensures !playbackStarted
      ensures itemsCreated == old(itemsCreated) + 1
      ensures player.currentItem == Some(PlayerItem(old(itemsCreated), url))
      ensures player.playing && !player.waitsToMinimizeStalling
      ensures itemObservers == ObserversFor(old(itemsCreated)) && |itemObservers| == 4
      ensures playerObservers == [StatusObservation(old(itemsCreated))]
    {
      playbackStarted := false;
      var item := PlayerItem(itemsCreated, url);
      itemsCreated := itemsCreated + 1;
      CleanupObservers();
      player.SetWaitsToMinimizeStalling(false);
      player.ReplaceCurrentItem(Some(item));
      player.Play();
      itemObservers := itemObservers + [ItemObserver(TimeJumped, item.serial)];
      itemObservers := itemObservers + [ItemObserver(FailedToPlayToEndTime, item.serial)];
      itemObservers := itemObservers + [ItemObserver(PlaybackStalled, item.serial)];
      itemObservers := itemObservers + [ItemObserver(NewErrorLogEntry, item.serial)];
      playerObservers := playerObservers + [StatusObservation(item.serial)];
    }

    /** The closures run, one event after another, while the loop sleeps: the time-jump
        observer and the `.playing` branch set `playbackStarted` and clear `isLoading`;
        every other closure only logs. */
    method Deliver(events: seq<PlayerEvent>, started: bool) returns (playbackStarted: bool)
      modifies this`isLoading
      ensures playbackStarted == (started || exists i :: 0 <= i < |events| && Confirms(itemObservers, playerObservers, events[i]))
      ensures isLoading == (old(isLoading) && !exists i :: 0 <= i < |events| && Confirms(itemObservers, playerObservers, events[i]))
    {
      playbackStarted := started;
      for i := 0 to |events|
        invariant playbackStarted == (started || exists j :: 0 <= j < i && Confirms(itemObservers, playerObservers, events[j]))
        invariant isLoading == (old(isLoading) && !exists j :: 0 <= j < i && Confirms(itemObservers, playerObservers, events[j]))
      {
        if Confirms(itemObservers, playerObservers, events[i]) {
          playbackStarted := true;
          isLoading := false;
        }
      }
    }

    /** `monitorSkipSegments`: installs a periodic observer only when there are
        segments, and drops the returned token. */
    method MonitorSkipSegments()
      modifies player`timeObservers, player`tokensIssued
      ensures skipSegments == [] ==> player.timeObservers == old(player.timeObservers) && player.tokensIssued == old(player.tokensIssued)
      ensures skipSegments != [] ==>
        player.timeObservers == old(player.timeObservers) + {old(player.tokensIssued)} &&
        player.tokensIssued == old(player.tokensIssued) + 1
    {
      if skipSegments == [] {
        return;
      }
      var _ := player.AddPeriodicTimeObserver();
    }

    /** One run of an installed periodic observer's closure at position `t`: at most
        one seek, chosen from `skipSegments` and `t` alone. */
    method OnPeriodicTick(t: real) returns (trapped: bool)
      requires player.timeObservers != {}
      modifies player`seeks
      ensures trapped <==> FirstCovering(skipSegments, t) == IndexOutOfRange
      ensures FirstCovering(skipSegments, t).SeekTo? ==> player.seeks == old(player.seeks) + [FirstCovering(skipSegments, t).target]
      ensures !FirstCovering(skipSegments, t).SeekTo? ==> player.seeks == old(player.seeks)
    {
      var action := ScanSegments(skipSegments, t);
      trapped := action == IndexOutOfRange;
      if action.SeekTo? {
        player.Seek(action.target);
      }
    }

    /** `resilientPlay`: start, wait one window of events, and either confirm (start
        the skip monitor and return with the observers in place) or drop the item and
        try again, at most `maxRetries` times; on giving up, clean up. */
    method ResilientPlay(url: string, maxRetries: int, windows: nat -> seq<PlayerEvent>)
      returns (attempt: nat, playbackStarted: bool)
      modifies this`isLoading, this`itemsCreated, this`playerObservers, this`itemObservers
      modifies player`currentItem, player`playing, player`waitsToMinimizeStalling
      modifies player`timeObservers, player`tokensIssued
      ensures forall i :: 0 <= i < attempt ==> !WindowConfirms(old(itemsCreated) + i, windows(i))
      ensures itemsCreated == old(itemsCreated) + attempt + (if playbackStarted then 1 else 0)
      ensures playbackStarted ==> attempt < maxRetries && WindowConfirms(old(itemsCreated) + attempt, windows(attempt))
      ensures playbackStarted ==>
        && player.currentItem == Some(PlayerItem(itemsCreated - 1, url))
        && itemObservers == ObserversFor(itemsCreated - 1)
        && playerObservers == [StatusObservation(itemsCreated - 1)]
        && !isLoading
      ensures playbackStarted && skipSegments != [] ==> player.timeObservers == old(player.timeObservers) + {old(player.tokensIssued)}
      ensures !(playbackStarted && skipSegments != []) ==> player.timeObservers == old(player.timeObservers)
      ensures !playbackStarted ==> attempt == (if maxRetries > 0 then maxRetries else 0)
      ensures !playbackStarted ==> itemObservers == [] && playerObservers == [] && isLoading
      ensures !playbackStarted && attempt > 0 ==> player.currentItem == None
    {
      attempt := 0;
      playbackStarted := false;
      isLoading := true;
      while attempt < maxRetries
        invariant maxRetries >= 0 ==> attempt <= maxRetries
        invariant maxRetries < 0 ==> attempt == 0
        invariant itemsCreated == old(itemsCreated) + attempt
        invariant forall i :: 0 <= i < attempt ==> !WindowConfirms(old(itemsCreated) + i, windows(i))
        invariant !playbackStarted && isLoading
        invariant attempt > 0 ==> player.currentItem == None
        invariant player.timeObservers == old(player.timeObservers) && player.tokensIssued == old(player.tokensIssued)
      {
        playbackStarted := StartPlayback(url);
        var serial := itemsCreated - 1;
        playbackStarted := Deliver(windows(attempt), playbackStarted);
        ConfirmsAfterStart(serial, windows(attempt));
        if !playbackStarted {
          player.ReplaceCurrentItem(None);
          attempt := attempt + 1;
        } else {
          MonitorSkipSegments();
          return;
        }
      }
      CleanupObservers();
    }

    /** `onDisappear`: pause, drop the item, remove the stored periodic observer if
        there is one, and drop every registration. The token of the skip monitor is
        never stored, so an observer installed by `Play` outlives the view. */
    method OnDisappear()
      modifies this`timeObserver, this`playerObservers, this`itemObservers
      modifies player`playing, player`currentItem, player`timeObservers
      ensures Teardown() == TornDown(old(Teardown()))
      ensures old(timeObserver).None? ==> player.timeObservers == old(player.timeObservers)
    {
      player.Pause();
      player.ReplaceCurrentItem(None);
      if timeObserver.Some? {
        player.RemoveTimeObserver(timeObserver.value);
        timeObserver := None;
      }
      playerObservers := [];
      itemObservers := [];
    }

    /** `play()`: fetch the stream; on failure show the error and stop loading.
        Otherwise take the skip segments when the service returned a list (a failure
        there is only logged) and run the retry loop with 100 attempts. */
    method Play(video: Result<Test, ClientError>, segments: Result<Option<seq<SkipSegment>>, ClientError>,
                windows: nat -> seq<PlayerEvent>)
      returns (attempt: nat, playbackStarted: bool)
      modifies this`isLoading, this`errorMessage, this`skipSegments, this`itemsCreated
      modifies this`playerObservers, this`itemObservers
      modifies player`currentItem, player`playing, player`waitsToMinimizeStalling
      modifies player`timeObservers, player`tokensIssued
      ensures timeObserver == old(timeObserver)
      ensures video.Err? ==> errorMessage == Some(video.error) && !isLoading
      ensures video.Err? ==> attempt == 0 && !playbackStarted && itemsCreated == old(itemsCreated)
      ensures video.Err? ==> skipSegments == old(skipSegments)
      ensures video.Ok? ==> errorMessage == old(errorMessage)
      ensures video.Ok? && segments.Ok? && segments.value.Some? ==> skipSegments == segments.value.value
      ensures video.Ok? && !(segments.Ok? && segments.value.Some?) ==> skipSegments == old(skipSegments)
      ensures video.Ok? ==> attempt <= 100 && (!playbackStarted ==> attempt == 100)
      ensures video.Ok? ==> forall i :: 0 <= i < attempt ==> !WindowConfirms(old(itemsCreated) + i, windows(i))
      ensures video.Ok? && playbackStarted ==> WindowConfirms(old(itemsCreated) + attempt, windows(attempt))
    {
      if video.Err? {
        errorMessage := Some(video.error);
        isLoading := false;
        return 0, false;
      }
      var headers := HeadersDict(video.value.headers);
      if segments.Ok? && segments.value.Some? {
        skipSegments := segments.value.value;
      }
      attempt, playbackStarted := ResilientPlay(video.value.streamURL, 100, windows);
    }
  }
}
