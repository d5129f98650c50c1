/** The search results page: each result row (`VideoRowView`) with its duration label
    and its Subscribe and uploader buttons, and the row tap that opens the video. */
module SearchPage {
  import opened Wrappers
  import opened SwiftNumbers
  import opened SubscriptionModel
  import opened Navigation
  import opened JsonValues
  import opened VideoModel
  import YoutubeService
  import VideoRow

  // ---------------------------------------------------------------- durations

  /** `VideoRowView.formatDuration`: the hours, minutes and seconds are taken from the
      `Double` with `/` and `truncatingRemainder` and only then converted with `Int(_)`. */
  function FormatDuration(seconds: real): string {
    VideoRow.ClockLabel(
      Trunc(seconds / 3600.0),
      Trunc(FMod(seconds, 3600.0) / 60.0),
      Trunc(FMod(seconds, 60.0)))
  }

  /** For a non-negative duration the real-valued split gives the same label as the
      integer split of `VideoRow`, so it too reads back as the whole number of seconds
      and shows an hours field exactly from one hour on. */
  lemma {:induction false} FormatDurationAgreesWithRow(seconds: real)
    requires seconds >= 0.0
    ensures FormatDuration(seconds) == VideoRow.FormatDuration(seconds)
    ensures VideoRow.ParseClock(FormatDuration(seconds)) == Some(seconds.Floor)
    ensures VideoRow.HasHours(FormatDuration(seconds)) <==> seconds >= 3600.0
  {
    var total := Trunc(seconds);
    HoursAgree(seconds);
    MinutesAgree(seconds);
    SecondsAgree(seconds);
    assert FormatDuration(seconds) == VideoRow.ClockLabel(Quot(total, 3600), Quot(Rem(total, 3600), 60), Rem(total, 60));
    VideoRow.FormatDurationReadsBack(seconds);
  }

  lemma HoursAgree(seconds: real)
    requires seconds >= 0.0
    ensures Trunc(seconds / 3600.0) == Quot(Trunc(seconds), 3600)
  {
    FloorDiv(seconds, 3600);
    assert Trunc(seconds) == seconds.Floor;
  }

  lemma MinutesAgree(seconds: real)
    requires seconds >= 0.0
    ensures Trunc(FMod(seconds, 3600.0) / 60.0) == Quot(Rem(Trunc(seconds), 3600), 60)
  {
    var k := seconds.Floor;
    var hrs := k / 3600;
    HoursAgree(seconds);
    assert Trunc(seconds / 3600.0) == hrs;
    var rest := FMod(seconds, 3600.0);
    assert rest == seconds - 3600.0 * hrs as real;
    FloorShift(seconds, 3600 * hrs);
    assert rest.Floor == k % 3600;
    FloorDiv(rest, 60);
    assert Trunc(rest / 60.0) == (k % 3600) / 60;
    assert Trunc(seconds) == k && Rem(k, 3600) == k % 3600;
  }

  lemma SecondsAgree(seconds: real)
    requires seconds >= 0.0
    ensures Trunc(FMod(seconds, 60.0)) == Rem(Trunc(seconds), 60)
  {
    var k := seconds.Floor;
    FloorDiv(seconds, 60);
    assert Trunc(seconds / 60.0) == k / 60;
    var rest := FMod(seconds, 60.0);
    assert rest == seconds - 60.0 * (k / 60) as real;
    FloorShift(seconds, 60 * (k / 60));
    assert Trunc(rest) == k % 60;
    assert Trunc(seconds) == k;
  }

  /** Taking a whole number off a real takes it off its floor. */
  lemma FloorShift(x: real, c: int)
    ensures (x - c as real).Floor == x.Floor - c
  {
  }

  /** Dividing a non-negative real by 60 or 3600 and rounding down is rounding down
      first and dividing with Dafny's `/`. */
  lemma FloorDiv(x: real, n: int)
    requires x >= 0.0 && (n == 60 || n == 3600)
    ensures (x / n as real).Floor == x.Floor / n
  {
    var k := x.Floor;
    var q := k / n;
    if n == 60 {
      assert 60 * q <= k < 60 * q + 60;
      assert 60.0 * q as real <= x < 60.0 * q as real + 60.0;
      FloorBetween(x / 60.0, q);
    } else {
      assert 3600 * q <= k < 3600 * q + 3600;
      assert 3600.0 * q as real <= x < 3600.0 * q as real + 3600.0;
      FloorBetween(x / 3600.0, q);
    }
  }

  lemma FloorBetween(y: real, q: int)
    requires q as real <= y < q as real + 1.0
    ensures y.Floor == q
  {
  }

  /** The duration label of a row: `"Live"` for a live video, otherwise the formatted
      duration, which is force-unwrapped; `None` stands for the trap on a missing one. */
  function DurationLabel(v: Video): (r: Option<string>)
    ensures r.None? <==> !v.isLive && v.duration.None?
    ensures v.isLive ==> r == Some("Live")
  {
    if v.isLive then Some("Live")
    else if v.duration.Some? then Some(FormatDuration(v.duration.value))
    else None
  }

  /** A non-live search result whose duration the backend reports as `None` decodes,
      and its row then traps on the force unwrap. */
  lemma MissingDurationTraps(r: YoutubeService.VideoRecord)
    requires r.id.JStr? && r.channelId.JStr? && r.uploader.JStr?
    requires AsUInt(r.views).Some? && r.thumbnail.JStr? && r.thumbnail.s != ""
    requires !r.isLive && r.duration == JNull
    ensures DecodeVideo(JObj(YoutubeService.VideoDict(r))).Some?
    ensures DurationLabel(DecodeVideo(JObj(YoutubeService.VideoDict(r))).value).None?
  {
    BackendVideoDecodes(r);
  }

  // ---------------------------------------------------------------- Subscribe

  /** The subscription the Subscribe button builds from a result. */
  function NewSubscription(v: Video): (s: Subscription)
    ensures s.id == v.channelID && s.title == v.uploader
  {
    Subscription(v.channelID, v.uploader, "https://www.example.com/channel/" + v.channelID)
  }

  predicate NoDuplicates(l: seq<Subscription>) {
    forall i, j :: 0 <= i < j < |l| ==> l[i] != l[j]
  }

  /** The list after Subscribe: `x` is appended unless an equal subscription (same id,
      title and url) is already there. The old elements keep their places, at most one
      element is added, and a list without duplicates stays without. */
  function AppendIfAbsent(l: seq<Subscription>, x: Subscription): (r: seq<Subscription>)
    ensures x in r
    ensures |l| <= |r| <= |l| + 1 && r[..|l|] == l
    ensures x in l <==> r == l
    ensures NoDuplicates(l) ==> NoDuplicates(r)
  {
    if x in l then l else l + [x]
  }

  /** Pressing Subscribe twice leaves the list as pressing it once. */
  lemma SubscribeTwiceIsOnce(l: seq<Subscription>, x: Subscription)
    ensures AppendIfAbsent(AppendIfAbsent(l, x), x) == AppendIfAbsent(l, x)
  {
  }

  /** The Subscribe button. */
  method SubscribeTapped(b: Bindings, video: Video)
    modifies b`subscriptions
    ensures b.subscriptions == AppendIfAbsent(old(b.subscriptions), NewSubscription(video))
  {
    var sub := NewSubscription(video);
    if sub !in b.subscriptions {
      b.subscriptions := b.subscriptions + [sub];
    }
  }

  // ------------------------------------------------------------------ buttons

  /** The uploader button opens the uploader's channel. */
  method UploaderTapped(b: Bindings, video: Video)
    modifies b`selection, b`currentChannelID
    ensures b.selection == Channel && b.currentChannelID == video.channelID
  {
    b.selection := Channel;
    b.currentChannelID := video.channelID;
  }

  /** Tapping a result row opens the video. */
  method RowTapped(b: Bindings, video: Video)
    modifies b`selection, b`currentVideoID
    ensures b.selection == WatchVideo && b.currentVideoID == video.id
  {
    b.selection := WatchVideo;
    b.currentVideoID := video.id;
  }
}
