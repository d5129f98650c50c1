# Veila, modelled in Dafny

Veila is a macOS YouTube client: a SwiftUI front end talking to a small Python
backend (FastAPI plus yt-dlp) that it launches itself on `127.0.0.1:8777`. This
project models the parts of both with statable behaviour:

- the backend's response shaping:
  - which search and channel entries survive, in order;
  - the live-status rule and the live-dependent fields;
  - all-caps title normalisation;
  - the last-thumbnail-or-empty rule;
  - the choice of avatar, banner and progressive stream format;
- the client's gateway (`ContentService`):
  - the once-only launch of the backend;
  - the bounded health poll that `search` waits on;
  - the requests it sends;
  - how it maps answers to results, including the skip-segment status switch;
- the wire formats:
  - the `CodingKeys` tables of `Video`, `ChannelDTO`, `YtDlpHeaders`, `Test` and `SkipSegment`, checked against the exact dicts the backend emits;
  - the DTO-to-model conversion `Channel.init(dto:)`;
- the watch page (`WatchVideoView`):
  - the retry loop;
  - the observer bookkeeping;
  - the skip-segment scan;
  - the teardown;
- the display formatting of counts and durations, and the row captions;
- the small in-place updates: subscribe-if-absent and the subscription toggle;
- the navigation bindings.

Each module follows one source file:

| module | file |
|---|---|
| `YoutubeService` | `YoutubeService/main.py` |
| `ContentService` | `Veila/ContentService.swift` |
| `VideoModel` | `Veila/Models/VideoModel.swift` |
| `ChannelDto` | `Veila/DTOs/ChannelDTO.swift` |
| `ChannelModel` | `Veila/Models/ChannelModel.swift` |
| `VideoPage` | `Veila/Views/VideoPage.swift` |
| `VideoRow` | `Veila/Views/Components/VideoRow.swift` |
| `ChannelPage` | `Veila/Views/ChannelPage.swift` |
| `SearchPage` | `Veila/Views/SearchPage.swift` |
| `Navigation` | the `SidebarSelection` enum and the `@Binding`s the pages share |
| `SubscriptionModel` | `Veila/Models/Subscription.swift` |

Some modules hold vocabulary shared by the rest:

- `JsonValues` covers JSON values and what Swift's `JSONDecoder` accepts for each field type.
- `Http` covers requests, responses and client errors.
- `Text` covers decimal printing and parsing, ASCII case and substrings.
- `SwiftNumbers` covers Swift's truncating `Int(_)`, `/`, `%` and `truncatingRemainder`.
- `Wrappers` defines `Option` and `Result`.

The health poll sleeps 100_000_000_000 ns, which is 100 seconds, between probes (`Veila/ContentService.swift:57`), and the model keeps that constant.

Python's and Swift's stateful code is imperative here:

- `WatchVideoView`, `AVPlayer`, `ContentService` and `ChannelView` are classes whose methods change their fields.
- The loops of `search`, `get_channel`, `waitUntilServerIsReady`, `monitorSkipSegments` and `resilientPlay` are `while`/`for` loops. Each is proved against a specification function or postcondition.

The backend's handlers start from the dict `extract_info` returned, so yt-dlp itself is an input. The network is an input too:

- whether each health probe got an answer;
- the response to each request;
- the events that arrive while the retry loop sleeps.

## Model

| member | source | states |
|---|---|---|
| `YoutubeService.ArgMax` | YoutubeService/main.py:30 | the position `max(..., key=...)` picks: a greatest key, with every earlier key strictly smaller (the first maximum) |
| `YoutubeService.ResolutionCandidates` | YoutubeService/main.py:25 | exactly the thumbnails carrying a `"resolution"` key, and only thumbnails of the input |
| `YoutubeService.Areas` | YoutubeService/main.py:30 | one `width * height` key per candidate, or the error the first malformed candidate raises |
| `YoutubeService.IsSquareMeaning` | YoutubeService/main.py:26 | `abs(w/h - 1.0) < 0.01` holds exactly when width and height differ by less than 1% of the height |
| `YoutubeService.SquareCandidates` | YoutubeService/main.py:26 | on success, a subset of the candidates, each of which has a non-zero numeric height, kept exactly when nearly square |
| `YoutubeService.LargestUrlIsFirstLargest` | YoutubeService/main.py:29-31 | a returned url belongs to the first candidate of greatest area |
| `YoutubeService.BannerAbsentIff` | YoutubeService/main.py:33-37 | `get_highest_res_banner` returns `None` exactly when no thumbnail has a `"resolution"` key |
| `YoutubeService.BannerIsLargest` | YoutubeService/main.py:33-40 | a banner url is that of the first `"resolution"` thumbnail of greatest area |
| `YoutubeService.AvatarCandidatesAreSquare` | YoutubeService/main.py:23-26 | the avatar candidates are exactly the `"resolution"` thumbnails that are nearly square |
| `YoutubeService.AvatarIsLargestSquare` | YoutubeService/main.py:23-31 | an avatar url is that of the first nearly square `"resolution"` thumbnail of greatest area |
| `YoutubeService.ProgressiveFormats` | YoutubeService/main.py:121-127 | the formats kept are exactly those with both codecs not `"none"`, `ext == "mp4"` and a protocol not starting with `m3u8` |
| `YoutubeService.BestFormat` | YoutubeService/main.py:129-133 | `None` exactly for no formats, otherwise one of them |
| `YoutubeService.GetVideoChoosesTallestProgressive` | YoutubeService/main.py:121-140 | `get_video` answers with the url and headers of the first qualifying format of greatest height (missing height counts as 0); it raises when none qualifies |
| `YoutubeService.NormalizeTitle` | YoutubeService/main.py:165-169 | an all-caps title keeps its first character and lower-cases the rest; any other title is unchanged; the length is kept |
| `YoutubeService.NormalizeTitleIdempotent` | YoutubeService/main.py:76-80 | normalising a normalised title changes nothing |
| `YoutubeService.LastThumbnailUrl` | YoutubeService/main.py:171-172 | `""` for a missing or empty list, otherwise the url of the last thumbnail |
| `YoutubeService.SearchRecord` | YoutubeService/main.py:162-188 | `is_live` is false exactly for `None`, `"was_live"` or `False` (and so `0`); live entries get no duration and `concurrent_view_count`; others get `duration` and `view_count` defaulting to 0 |
| `YoutubeService.CollectSearchResults` | YoutubeService/main.py:152-188 | the loop's result is the fold `SearchResults` over the entries |
| `YoutubeService.SearchErrorPersists` | YoutubeService/main.py:153 | once an entry raises, the whole search has raised that error |
| `YoutubeService.Search` | YoutubeService/main.py:149-190 | the handler's answer is one video dict per record of the fold, in order, or the error raised |
| `YoutubeService.SearchKeepsSurvivorsInOrder` | YoutubeService/main.py:153-160 | a successful search has one result per entry that is neither subscriber-only nor a channel or shorts url, in input order |
| `YoutubeService.SearchSurvivorsAre` | YoutubeService/main.py:153-160 | an entry survives exactly when it is a dict of the input that is not subscriber-only and whose url holds neither `/channel/` nor `/shorts/` |
| `YoutubeService.ChannelRecord` | YoutubeService/main.py:76-95 | a channel video is never live, takes `channel_id`/`uploader` from the channel, and its title and thumbnail follow the same rules as search |
| `YoutubeService.ChannelErrorPersists` | YoutubeService/main.py:71 | once an entry raises, the whole channel loop has raised |
| `YoutubeService.CollectChannelVideos` | YoutubeService/main.py:70-95 | the loop's result is the fold `ChannelVideos` over the entries |
| `YoutubeService.ChannelVideosArePublicEntries` | YoutubeService/main.py:71-74 | each channel video is built, in order, from one entry that is not subscriber-only |
| `YoutubeService.GetChannel` | YoutubeService/main.py:62-105 | the channel answer: avatar and banner from the thumbnails, the videos of the loop, and the channel fields, or the error raised |
| `YoutubeService.LastQueryValue` | YoutubeService/main.py:143-144 | the scalar `q` parameter is present exactly when some query item has that name, and is the value of the last such item |
| `ContentService.BaseUrlIsServedOrigin` | Veila/ContentService.swift:6 | the client's base URL is the origin uvicorn serves the backend on |
| `ContentService.FailedProbes` | Veila/ContentService.swift:56-57 | `n` unanswered probes alternate a health GET and a 100_000_000_000 ns sleep |
| `ContentService.FirstAnswered` | Veila/ContentService.swift:55-56 | the first answered probe among those still allowed, or none of them answered |
| `ContentService.ReadinessTraceShape` | Veila/ContentService.swift:53-60 | the poll is `k` failed probes then one answered probe, or 50 failed probes then a warning |
| `ContentService.AtMostFiftyProbes` | Veila/ContentService.swift:55 | the poll makes at most 50 probes |
| `ContentService.RequestsReachBackendRoutes` | Veila/ContentService.swift:54-86 | the health, search, video and channel requests reach the backend's `/health`, `/search`, `/video/{id}` and `/channel/{id}` handlers |
| `ContentService.Decoded` | Veila/ContentService.swift:71-72 | a transport failure throws; otherwise the body decodes or a decoding error is thrown; the status code is not looked at |
| `ContentService.SkipSegmentsAnswer` | Veila/ContentService.swift:98-109 | status 200 gives the decoded list (or throws); any other status or a non-HTTP response gives `nil`; a transport failure throws |
| `ContentService.LaunchStep` | Veila/ContentService.swift:9-41 | a call with a process set changes nothing; a process is recorded exactly when none was set and the interpreter is found and `run()` succeeds |
| `ContentService.LaunchesAtMostOnce` | Veila/ContentService.swift:10 | across any number of calls the backend is launched at most once, and never once a process is set |
| `ContentService.ContentService.StartPythonServer` | Veila/ContentService.swift:9-51 | the call follows `LaunchStep` and registers a termination hook exactly when it got past the guard |
| `ContentService.ContentService.WaitUntilServerIsReady` | Veila/ContentService.swift:53-60 | the loop performs exactly the readiness trace |
| `ContentService.ContentService.Search` | Veila/ContentService.swift:62-73 | the readiness wait always comes before the POST `/search?q=<query>`; the answer is the decoded list of videos |
| `ContentService.ContentService.GetVideo` | Veila/ContentService.swift:76-82 | a single GET of `video/<id>` with no readiness wait, decoded as `Test` |
| `ContentService.ContentService.GetChannel` | Veila/ContentService.swift:84-90 | a single GET of `channel/<id>` with no readiness wait; the channel holds the decoded fields |
| `ContentService.ContentService.GetSkipSegments` | Veila/ContentService.swift:92-110 | a single GET of the skip-segment service with `videoID=<id>`, answered by the status switch |
| `JsonValues.AsUInt` | Veila/Models/VideoModel.swift:9 | a `UInt` decodes exactly from an integral number in `[0, 2^64)` |
| `JsonValues.DecodeEach` | Veila/ContentService.swift:72 | an array decodes exactly when every element does, keeping length and order |
| `Http.AppendingPathComponent` | Veila/ContentService.swift:65 | appending a component keeps the origin and the query, and the new path is the old path, `/`, then the component |
| `VideoModel.KeysMatchBackend` | Veila/Models/VideoModel.swift:14-24 | the nine JSON keys of `Video` are exactly the keys of every video dict the backend emits |
| `VideoModel.KeyNameInjective` | Veila/Models/VideoModel.swift:14-24 | no two fields share a key |
| `VideoModel.DecodeVideo` | Veila/Models/VideoModel.swift:3-12 | a decoded video has every non-optional key present, a view count below 2^64 and non-empty URLs |
| `VideoModel.DecodeEncode` | Veila/Models/VideoModel.swift:3-24 | encoding a representable video and decoding it again gives it back |
| `VideoModel.OptionalKeysMayBeNullOrAbsent` | Veila/Models/VideoModel.swift:8-12 | `duration` and `stream_url` decode alike when `null` and when absent |
| `VideoModel.RequiredKeyMissingFails` | Veila/Models/VideoModel.swift:3-12 | a missing non-optional key fails the decode |
| `VideoModel.NullOrNegativeViewsFail` | Veila/Models/VideoModel.swift:9 | a `null` or negative view count fails the decode |
| `VideoModel.LiveEntryWithoutViewerCountFails` | YoutubeService/main.py:176 | a live search entry without `concurrent_view_count` yields a dict the client cannot decode |
| `VideoModel.BackendVideoDecodes` | YoutubeService/main.py:178-188 | a well-typed backend video dict decodes to the video it describes, with no stream URL |
| `ChannelDto.KeysMatchBackend` | Veila/DTOs/ChannelDTO.swift:13-21 | the seven keys of `ChannelDTO` are exactly the keys of `get_channel`'s answer |
| `ChannelDto.KeyNameInjective` | Veila/DTOs/ChannelDTO.swift:13-21 | no two fields share a key |
| `ChannelDto.DecodeChannelDto` | Veila/DTOs/ChannelDTO.swift:4-21 | every key is required; each field is read from its own key with its own type (`avatar_url` into `avatarURL`, `banner_url` into `bannerURL`); the object decodes exactly when all seven reads succeed, and then to the channel they describe; the subscriber count fits a `UInt` and both URLs are non-empty |
| `ChannelDto.BackendChannelDecodes` | YoutubeService/main.py:96-105 | an answer with string id, title and description, a `UInt` subscriber count and two non-empty URL strings decodes to the DTO it describes, videos in order and each URL in its own field |
| `ChannelDto.VideosDecodedInOrder` | Veila/DTOs/ChannelDTO.swift:9 | the `i`-th video is the `i`-th array element |
| `ChannelDto.NullUrlFails` | Veila/DTOs/ChannelDTO.swift:10-11 | a `null` avatar or banner URL fails the decode |
| `ChannelDto.MissingThumbnailBreaksChannel` | YoutubeService/main.py:27-28 | when the backend finds no avatar or banner, the client cannot decode the channel |
| `ChannelDto.SubscribersMustBeUnsigned` | Veila/DTOs/ChannelDTO.swift:8 | a negative, fractional or `null` subscriber count fails the decode |
| `ChannelModel.Channel.FromDto` | Veila/Models/ChannelModel.swift:14-26 | scalar fields are copied; `videos` holds one converted element per DTO element, in order |
| `VideoPage.DecodeHeaders` | Veila/Views/VideoPage.swift:4-16 | the four header keys are required strings, each becoming its field |
| `VideoPage.HeadersDictRoundTrip` | Veila/Views/VideoPage.swift:127-132 | `headersDict` has exactly the four wire names with the decoded values, and decodes back to the same headers |
| `VideoPage.DecodeTest` | Veila/Views/VideoPage.swift:19-27 | `stream_url` is a non-empty URL string and `headers` decodes |
| `VideoPage.BackendAnswerDecodes` | YoutubeService/main.py:137-140 | the backend's answer decodes exactly when its url is a non-empty string and its headers decode |
| `VideoPage.DefaultHeadersFail` | YoutubeService/main.py:135 | a format without `http_headers` gives `"headers": {}`, which the client cannot decode |
| `VideoPage.DecodeSkipSegment` | Veila/Views/VideoPage.swift:29-38 | all eight keys are required: an object lacking one does not decode, and a decoded segment holds exactly what each key decodes to as its field's type (`String`, `[Double]`, `Double`, `Int`); an object whose keys all decode gives that segment |
| `VideoPage.DecodeEncodeSkipSegment` | Veila/Views/VideoPage.swift:29-38 | a segment whose `locked` and `votes` fit a 64-bit `Int` decodes back from its `Codable` encoding |
| `VideoPage.SegmentKeyMissingFails` | Veila/Views/VideoPage.swift:29-38 | an answer element lacking any one of the eight keys, `description` say, does not decode |
| `VideoPage.FirstCovering` | Veila/Views/VideoPage.swift:104-114 | a seek happens exactly when some segment is the first covering `t`, and then to its end + 2; no seek exactly when every segment is well formed and none covers `t` |
| `VideoPage.ScanSegments` | Veila/Views/VideoPage.swift:104-114 | the loop with `break` decides as `FirstCovering` |
| `VideoPage.LaterSegmentsIgnored` | Veila/Views/VideoPage.swift:108-113 | once a segment matched, appending segments changes nothing: there is no per-segment state |
| `VideoPage.ConfirmsAfterStart` | Veila/Views/VideoPage.swift:189-238 | with one start's registrations, an event confirms exactly when it is that item's time jump or a `.playing` status |
| `VideoPage.Player.AddPeriodicTimeObserver` | Veila/Views/VideoPage.swift:101 | a fresh token is issued and installed |
| `VideoPage.TornDown` | Veila/Views/VideoPage.swift:77-93 | teardown leaves no item, a paused player, no stored periodic observer and both observer lists empty |
| `VideoPage.TornDownIdempotent` | Veila/Views/VideoPage.swift:77-93 | tearing down twice is tearing down once |
| `VideoPage.WatchVideoView.constructor` | Veila/Views/VideoPage.swift:41-50 | the page starts loading, with no segments, no error, no stored observer and empty observer lists |
| `VideoPage.WatchVideoView.CleanupObservers` | Veila/Views/VideoPage.swift:158-163 | both observer lists are emptied |
| `VideoPage.WatchVideoView.StartPlayback` | Veila/Views/VideoPage.swift:165-239 | the flag is reset; a new item replaces the current one and plays without waiting to minimise stalling; exactly 4 item observers and 1 player observer are registered |
| `VideoPage.WatchVideoView.Deliver` | Veila/Views/VideoPage.swift:193-195 | `playbackStarted` ends true exactly when it was or some event confirms, and loading stops when one confirms |
| `VideoPage.WatchVideoView.MonitorSkipSegments` | Veila/Views/VideoPage.swift:96-117 | no observer is installed for an empty segment list; otherwise exactly one, whose token is not stored |
| `VideoPage.WatchVideoView.OnPeriodicTick` | Veila/Views/VideoPage.swift:102-115 | at most one seek, the one `FirstCovering` chooses; the tick traps on a segment with fewer than two bounds |
| `VideoPage.WatchVideoView.ResilientPlay` | Veila/Views/VideoPage.swift:153-260 | one start per attempt; unconfirmed attempts are counted; the first confirmed one returns with observers registered and the skip monitor started; otherwise `attempt == maxRetries` (for `maxRetries >= 0`) and both lists are empty |
| `VideoPage.WatchVideoView.OnDisappear` | Veila/Views/VideoPage.swift:77-93 | the page state becomes `TornDown` of the old state; with no stored `timeObserver` the player's periodic observers stay installed, so the skip monitor's observer from `play` is never removed |
| `VideoPage.WatchVideoView.Play` | Veila/Views/VideoPage.swift:119-151 | a failed fetch shows the error and stops loading; a failed segment fetch leaves the segments as they were; otherwise up to 100 attempts run, and `timeObserver` is never set |
| `SwiftNumbers.Trunc` | Veila/Views/Components/VideoRow.swift:79 | `Int(x)` is the integer nearest to `x` on the side of zero, within less than 1 |
| `SwiftNumbers.Quot` | Veila/Views/Components/VideoRow.swift:79-80 | integer `/` rounds toward zero: the remainder is below the divisor and takes the sign of the dividend |
| `SwiftNumbers.Rem` | Veila/Views/Components/VideoRow.swift:80-81 | integer `%` lies in `[0, b)` for a non-negative dividend and in `(-b, 0]` for a negative one |
| `SwiftNumbers.FMod` | Veila/Views/SearchPage.swift:92-93 | `truncatingRemainder` of a non-negative value lies in `[0, m)` |
| `VideoRow.FormatViews` | Veila/Views/Components/VideoRow.swift:60-76 | plain digits exactly below 1000, a `k` suffix exactly in `[1000, 10^6)`, an `M` suffix exactly from `10^6`; a decimal point exactly when the count is not a whole multiple of the band's divisor |
| `VideoRow.FormatViewsReadsBack` | Veila/Views/Components/VideoRow.swift:61-75 | a label reads back as the count itself below 1000 or for exact multiples, otherwise as the count rounded to a tenth of the divisor |
| `VideoRow.Decomposition` | Veila/Views/Components/VideoRow.swift:79-81 | for `k >= 0`, `hrs*3600 + mins*60 + secs == k` with `mins` and `secs` in `[0, 60)` |
| `VideoRow.FormatDuration` | Veila/Views/Components/VideoRow.swift:78-87 | a label is made of digits, colons and minus signs only |
| `VideoRow.ClockLabelReadsBack` | Veila/Views/Components/VideoRow.swift:82-86 | `H:MM:SS` exactly when `hrs > 0`, else `M:SS`; either reads back as the number of seconds |
| `VideoRow.FormatDurationReadsBack` | Veila/Views/Components/VideoRow.swift:78-87 | for a non-negative duration the label reads back as its whole seconds, with three fields exactly from one hour on |
| `VideoRow.CaptionWith` | Veila/Views/Components/VideoRow.swift:51 | the caption starts with `"<views> views"` and is just that without a duration |
| `VideoRow.CaptionShowsMojibake` | Veila/Views/Components/VideoRow.swift:51 | as written, a caption with a duration shows `â€¢` and never a bullet |
| `VideoRow.IntendedCaptionShowsBullet` | Veila/Views/ChannelPage.swift:198 | the intended caption shows a bullet exactly when there is a duration, and no mojibake |
| `VideoRow.WatchTapped` | Veila/Views/Components/VideoRow.swift:11-28 | both row buttons select `.watchVideo` and set `currentVideoID` to the video's id, changing nothing else |
| `ChannelPage.FormatSubCount` | Veila/Views/ChannelPage.swift:16-32 | below 1000 the label is exactly the decimal digits |
| `ChannelPage.FormatSubCountIsFormatViews` | Veila/Views/ChannelPage.swift:16-32 | `formatSubCount` gives the same label as `formatViews` for every count |
| `ChannelPage.Toggled` | Veila/Views/ChannelPage.swift:34-46 | an existing subscription is deleted; otherwise a loaded channel is subscribed with its title and feed URL; otherwise nothing changes; no other id is touched and ids stay unique |
| `ChannelPage.ToggleFlipsLabel` | Veila/Views/ChannelPage.swift:48-51 | once the channel is loaded, pressing the button flips its label |
| `ChannelPage.ToggleTwiceRestores` | Veila/Views/ChannelPage.swift:34-46 | subscribing then unsubscribing restores the store |
| `ChannelPage.UntoggleTwiceRestores` | Veila/Views/ChannelPage.swift:34-46 | unsubscribing then subscribing restores a subscription that carried the channel's title and feed URL |
| `ChannelPage.ChannelView.ToggleSubscription` | Veila/Views/ChannelPage.swift:34-46 | the store becomes `Toggled` of the old store, the current channel id and the loaded channel's title |
| `SearchPage.FormatDurationAgreesWithRow` | Veila/Views/SearchPage.swift:90-100 | for a non-negative duration the real-valued split prints the same label as the row's integer split, so it reads back as the whole seconds and has an hours field exactly from one hour on |
| `SearchPage.DurationLabel` | Veila/Views/SearchPage.swift:75-83 | a live row shows `"Live"` and never reads the duration; a non-live row traps exactly when the duration is `nil` |
| `SearchPage.MissingDurationTraps` | YoutubeService/main.py:174 | a non-live result whose duration the backend sends as `None` decodes, and its row then traps |
| `SearchPage.NewSubscription` | Veila/Views/SearchPage.swift:50-54 | the new subscription has the video's channel id and uploader |
| `SearchPage.AppendIfAbsent` | Veila/Views/SearchPage.swift:57-58 | the subscription ends up in the list; old elements keep their places; at most one is added; the list is unchanged exactly when an equal one was there; no duplicates appear |
| `SearchPage.SubscribeTwiceIsOnce` | Veila/Views/SearchPage.swift:49-59 | pressing Subscribe twice gives the list pressing it once gives |
| `SearchPage.SubscribeTapped` | Veila/Views/SearchPage.swift:49-59 | the list becomes `AppendIfAbsent` of the old list and the new subscription |
| `SearchPage.UploaderTapped` | Veila/Views/SearchPage.swift:39-42 | selects `.channel` and sets `currentChannelID` to the uploader's channel |
| `SearchPage.RowTapped` | Veila/Views/SearchPage.swift:135-138 | selects `.watchVideo` and sets `currentVideoID` to the video's id |
| `Navigation.Bindings.constructor` | Veila/Views/ContentView.swift:5-11 | the shared bindings start on the given page with the given subscriptions and no current ids |

## Left out

- I/O. These are inputs to the model rather than behaviour it has:
  - `yt_dlp.extract_info`, whose result is the input dict;
  - `URLSession`, whose exchanges are inputs;
  - `Process.run`, as a flag in `LaunchEnvironment`;
  - the bundle lookups;
  - `print` and logging.
- Concurrency and timing. `Task.sleep` durations are recorded in traces but not measured. The `Task` that `startPythonServer` spawns for the readiness wait after a launch is not modelled. The SwiftUI main-actor scheduling is also left out: each closure is treated as running to completion, one event after another.
- AVKit. `AVPlayer` is reduced to its current item, play state, stall setting, periodic-observer tokens and the seek targets it received. The positions it reports are inputs. Notifications and KVO changes are the `PlayerEvent`s delivered in each window.
- `VideoRow.FormatViews`: `%.1f` rounds the binary `Double` `n / unit` to the nearest tenth, with ties to even. The model rounds the exact quotient half up. Labels at or within a rounding error of a `.x5` tie may differ in the last digit (1250 prints `1.2k`, the model `1.3k`). Counts of more than about 2^52 whose quotient rounds to a whole `Double` print without a decimal point in Swift.
- `SwiftNumbers.Trunc`: `Int(_)` traps on NaN, infinities and values outside 64 bits. The model converts every real.
- `SearchPage.FormatDuration`: the real-valued split is related to the row's split only for non-negative durations. Binary floating-point error in `seconds / 3600` is not modelled.
- The other copy of the row in `Veila/Views/ChannelPage.swift:148-233` is textually the row of `Veila/Views/Components/VideoRow.swift`. Only its caption separator differs. Its `formatViews`, `formatDuration` and buttons (`:155-158`, `:173-176`, `:205-232`) are modelled by `VideoRow.FormatViews`, `VideoRow.FormatDuration` and `VideoRow.WatchTapped`.
- `video.views.formatted()` in `Veila/Views/SearchPage.swift:71` uses locale-dependent grouping and is not modelled.
- Python's dynamic typing:
  - Where the handlers would apply `in` to a string or list, the model raises a `TypeError`.
  - `YoutubeService.BestFormat` compares only numeric or bool height keys; any other key among two or more formats raises `TypeError`, even all-string keys, which Python's `max` would compare.
  - Python would sometimes succeed in these cases (for example, a list url, or string widths multiplied).
  - The kinds of exceptions are kept apart only as far as the answer depends on them: every exception becomes an HTTP 500.
- Unicode: case tests and mappings cover ASCII letters only.
- URLs are strings. The only parsing rule modelled is that `URL(string: "")` is `nil`. Percent-encoding of query items and path components is not modelled.
- Response bodies that are not JSON are not modelled. A JSON value is a tree of `Json`, and numbers are reals.
- `VideoDTO` and `Video(dto:)`, which `Channel.init(dto:)` relies on, are not part of this model. Nested channel videos stay raw JSON objects, and the conversion is a parameter.
- `YoutubeService/main.py:43-54` is unreachable code after a `return` and is not modelled. So is the `headers` argument of `resilientPlay`, which is never read, and the `health` handler's body beyond answering.
- SwiftData persistence (`modelContext.insert`/`delete`/`save`, `@Query` sorting) is modelled as a map keyed by the unique id.
- The view bodies, the other pages (`ContentView`, both sidebars, playlists, history, search bar, app entry) and the channel page's `fetchChannel` are layout and routing with nothing further to state.
- `ContentService.ContentService.GetChannel`: `Veila/ContentService.swift:89` decodes `Channel.self`, but `Channel` (`Veila/Models/ChannelModel.swift:4-27`) is a SwiftData `@Model` class and no file declares its decoding rules. The model takes `ChannelDTO`'s key table and `init(dto:)` as that decoding, which the source does not show.
- `ContentService.ContentService.GetChannel` and `ChannelModel.Channel.FromDto` construct objects. Their contracts use `fresh` and field state.

## Findings

| source | as written | input that shows it | evidently intended | confidence | as-written member | corrected member |
|---|---|---|---|---|---|---|
| Veila/Views/Components/VideoRow.swift:51 | the separator literal is `" â€¢ "`, the UTF-8 bytes of a bullet read back as Windows-1252 text | any video with a non-`nil` duration, e.g. 5 views and 65 s, captions as `5 views â€¢ 1:05` | `" • "`, as the copy of the row in `Veila/Views/ChannelPage.swift:198` writes it | not executed | `VideoRow.CaptionShowsMojibake` | `VideoRow.IntendedCaptionShowsBullet` |
