/** `ContentService`, the client's gateway to the backend and to the skip-segment
    service. Network exchanges are inputs: a health probe either gets an answer or
    not, and a request either fails in transport or yields a response. What the
    service does is recorded as a trace of I/O steps. */
module ContentService {
  import opened Wrappers
  import opened JsonValues
  import opened Http
  import opened Text
  import YoutubeService
  import VideoModel
  import ChannelDto
  import ChannelModel
  import VideoPage

  /** `baseURL`. */
  const BaseUrl: Url := Url("http://127.0.0.1:8777", "", [])

  const ProbeLimit: nat := 50
  const ProbeSleepNanoseconds: nat := 100_000_000_000

  /** One observable step: a health probe and whether anything answered it, a sleep,
      the "did not respond in time" warning, or a request sent. */
  datatype IoStep = Probe(req: Request, answered: bool) | Sleep(nanoseconds: nat) | Warning | Send(req: Request)

  /** The client's base URL is where the backend listens. */
  lemma BaseUrlIsServedOrigin()
    ensures BaseUrl.origin == YoutubeService.ServedOrigin()
  {
    assert NatToString(8) == "8";
    assert NatToString(87) == "87";
    assert NatToString(877) == "877";
    assert NatToString(8777) == "8777";
  }

  // ------------------------------------------------------ readiness poll

  /** `baseURL.appendingPathComponent("health")`, fetched with a GET. */
  function HealthRequest(): Request {
    Request(GET, AppendingPathComponent(BaseUrl, "health"))
  }

  /** `n` probes that got no answer, each followed by the fixed sleep. */
  function FailedProbes(n: nat): (s: seq<IoStep>)
    ensures |s| == 2 * n
    ensures forall i :: 0 <= i < n ==> s[2 * i] == Probe(HealthRequest(), false) && s[2 * i + 1] == Sleep(ProbeSleepNanoseconds)
  {
    seq(2 * n, j requires 0 <= j < 2 * n =>
      if j % 2 == 0 then Probe(HealthRequest(), false) else Sleep(ProbeSleepNanoseconds))
  }

  /** One more failed probe appends its pair of steps. */
  lemma FailedProbesAppend(n: nat)
    ensures FailedProbes(n + 1) == FailedProbes(n) + [Probe(HealthRequest(), false), Sleep(ProbeSleepNanoseconds)]
  {
    var a := FailedProbes(n + 1);
    var b := FailedProbes(n) + [Probe(HealthRequest(), false), Sleep(ProbeSleepNanoseconds)];
    assert |a| == |b|;
    forall j | 0 <= j < |a|
      ensures a[j] == b[j]
    {
      if j < 2 * n {
        assert b[j] == FailedProbes(n)[j];
      }
    }
  }

  /** The first of the probes `from`, ..., 49 that gets an answer. */
  function FirstAnswered(probe: nat -> bool, from: nat): (k: Option<nat>)
    requires from <= ProbeLimit
    ensures k.Some? ==> from <= k.value < ProbeLimit && probe(k.value)
    ensures k.Some? ==> forall j :: from <= j < k.value ==> !probe(j)
    ensures k.None? ==> forall j :: from <= j < ProbeLimit ==> !probe(j)
    decreases ProbeLimit - from
  {
    if from == ProbeLimit then None
    else if probe(from) then Some(from)
    else FirstAnswered(probe, from + 1)
  }

  /** What the poll does from iteration `i` on. */
  function ReadinessFrom(probe: nat -> bool, i: nat): seq<IoStep>
    requires i <= ProbeLimit
    decreases ProbeLimit - i
  {
    if i == ProbeLimit then [Warning]
    else if probe(i) then [Probe(HealthRequest(), true)]
    else [Probe(HealthRequest(), false), Sleep(ProbeSleepNanoseconds)] + ReadinessFrom(probe, i + 1)
  }

  function ReadinessTrace(probe: nat -> bool): seq<IoStep> {
    ReadinessFrom(probe, 0)
  }

  lemma {:induction false} ReadinessFromShape(probe: nat -> bool, i: nat)
    requires i <= ProbeLimit
    ensures FirstAnswered(probe, i).Some? ==>
      ReadinessFrom(probe, i) == FailedProbes(FirstAnswered(probe, i).value - i) + [Probe(HealthRequest(), true)]
    ensures FirstAnswered(probe, i).None? ==>
      ReadinessFrom(probe, i) == FailedProbes(ProbeLimit - i) + [Warning]
    decreases ProbeLimit - i
  {
    if i < ProbeLimit && !probe(i) {
      ReadinessFromShape(probe, i + 1);
      var step := [Probe(HealthRequest(), false), Sleep(ProbeSleepNanoseconds)];
      var first := FirstAnswered(probe, i + 1);
      assert FirstAnswered(probe, i) == first;
      assert ReadinessFrom(probe, i) == step + ReadinessFrom(probe, i + 1);
      var tail := if first.Some? then [Probe(HealthRequest(), true)] else [Warning];
      var n := if first.Some? then first.value - (i + 1) else ProbeLimit - (i + 1);
      assert ReadinessFrom(probe, i + 1) == FailedProbes(n) + tail;
      FailedProbesPrepend(n);
      assert step + (FailedProbes(n) + tail) == (step + FailedProbes(n)) + tail;
    }
  }

  lemma FailedProbesPrepend(n: nat)
    ensures [Probe(HealthRequest(), false), Sleep(ProbeSleepNanoseconds)] + FailedProbes(n) == FailedProbes(n + 1)
  {
    var a := [Probe(HealthRequest(), false), Sleep(ProbeSleepNanoseconds)] + FailedProbes(n);
    var b := FailedProbes(n + 1);
    assert |a| == |b|;
    forall j | 0 <= j < |a|
      ensures a[j] == b[j]
    {
      if j >= 2 {
        assert a[j] == FailedProbes(n)[j - 2];
        assert (j - 2) % 2 == j % 2;
      }
    }
  }

  /** The readiness poll: with `k` the first probe that is answered, `k` unanswered
      probes each followed by a 100_000_000_000 ns sleep, then the answered probe and
      nothing more; when none of the 50 is answered, 50 such pairs and the warning,
      and no error. */
  lemma ReadinessTraceShape(probe: nat -> bool)
    ensures FirstAnswered(probe, 0).Some? ==>
      ReadinessTrace(probe) == FailedProbes(FirstAnswered(probe, 0).value) + [Probe(HealthRequest(), true)]
    ensures FirstAnswered(probe, 0).None? ==>
      ReadinessTrace(probe) == FailedProbes(ProbeLimit) + [Warning]
  {
    ReadinessFromShape(probe, 0);
  }

  /** How many health probes a trace holds. */
  function ProbeCount(s: seq<IoStep>): nat {
    if s == [] then 0 else ProbeCount(s[..|s| - 1]) + (if s[|s| - 1].Probe? then 1 else 0)
  }

  lemma {:induction false} ProbeCountAppend(a: seq<IoStep>, b: seq<IoStep>)
    ensures ProbeCount(a + b) == ProbeCount(a) + ProbeCount(b)
    decreases |b|
  {
    if b == [] {
      assert a + b == a;
    } else {
      ProbeCountAppend(a, b[..|b| - 1]);
      assert (a + b)[..|a + b| - 1] == a + b[..|b| - 1];
      assert (a + b)[|a + b| - 1] == b[|b| - 1];
    }
  }

  lemma {:induction false} FailedProbesCount(n: nat)
    ensures ProbeCount(FailedProbes(n)) == n
  {
    if n > 0 {
      FailedProbesCount(n - 1);
      FailedProbesAppend(n - 1);
      ProbeCountAppend(FailedProbes(n - 1), [Probe(HealthRequest(), false), Sleep(ProbeSleepNanoseconds)]);
      assert ProbeCount([Probe(HealthRequest(), false), Sleep(ProbeSleepNanoseconds)]) == 1 by {
        assert [Probe(HealthRequest(), false), Sleep(ProbeSleepNanoseconds)][..1] == [Probe(HealthRequest(), false)];
        assert [Probe(HealthRequest(), false)][..0] == [];
      }
    }
  }

  /** The poll makes at most 50 probes. */
  lemma AtMostFiftyProbes(probe: nat -> bool)
    ensures ProbeCount(ReadinessTrace(probe)) <= ProbeLimit
  {
    ReadinessTraceShape(probe);
    match FirstAnswered(probe, 0)
    case Some(k) =>
      FailedProbesCount(k);
      ProbeCountAppend(FailedProbes(k), [Probe(HealthRequest(), true)]);
      assert [Probe(HealthRequest(), true)][..0] == [];
    case None =>
      FailedProbesCount(ProbeLimit);
      ProbeCountAppend(FailedProbes(ProbeLimit), [Warning]);
      assert [Warning][..0] == [];
  }

  // ------------------------------------------------------ requests

  /** `POST /search?q=<query>`. */
  function SearchRequest(query: string): Request {
    var url := AppendingPathComponent(BaseUrl, "search");
    Request(POST, url.(query := [QueryItem("q", query)]))
  }

  /** `GET video/<id>` under the base URL. */
  function VideoRequest(id: string): Request {
    Request(GET, AppendingPathComponent(BaseUrl, "video/" + id))
  }

  /** `GET channel/<id>` under the base URL. */
  function ChannelRequest(id: string): Request {
    Request(GET, AppendingPathComponent(BaseUrl, "channel/" + id))
  }

  /** `GET https://sponsor.ajay.app/api/skipSegments?videoID=<id>`. */
  function SkipSegmentsRequest(id: string): Request {
    Request(GET, Url("https://sponsor.ajay.app", "/api/skipSegments", [QueryItem("videoID", id)]))
  }

  /** The health probe, the search request, and (for an id that is a single path
      segment) the video and channel requests reach the intended backend routes. */
  lemma RequestsReachBackendRoutes(query: string, id: string)
    ensures YoutubeService.Route(HealthRequest()) == Some(YoutubeService.Health)
    ensures YoutubeService.Route(SearchRequest(query)) == Some(YoutubeService.SearchEndpoint(query))
    ensures YoutubeService.IsPathParameter(id) ==>
      YoutubeService.Route(VideoRequest(id)) == Some(YoutubeService.VideoEndpoint(id))
    ensures YoutubeService.IsPathParameter(id) ==>
      YoutubeService.Route(ChannelRequest(id)) == Some(YoutubeService.ChannelEndpoint(id))
  {
    BaseUrlIsServedOrigin();
    var v := VideoRequest(id).url.path;
    assert v == "/video/" + id && v[..7] == "/video/" && v[7..] == id;
    var c := ChannelRequest(id).url.path;
    assert c == "/channel/" + id && c[..9] == "/channel/" && c[9..] == id;
    assert c[1] != "/video/"[1];
  }

  /** Reading a response body with `JSONDecoder`: the status code is not looked at. */
  function Decoded<T>(exchange: Option<Response>, decode: Json -> Option<T>): (r: Result<T, ClientError>)
    ensures r == Err(TransportError) <==> exchange.None?
    ensures r.Ok? ==> decode(exchange.value.body) == Some(r.value)
    ensures r == Err(DecodeError) <==> exchange.Some? && decode(exchange.value.body).None?
  {
    match exchange
    case None => Err(TransportError)
    case Some(response) =>
      match decode(response.body)
      case Some(v) => Ok(v)
      case None => Err(DecodeError)
  }

  /** `getSkipSegments`' status switch: status 200 gives the decoded list, any other
      status and any non-HTTP response give `nil`; transport and decode failures are
      thrown. */
  function SkipSegmentsAnswer(exchange: Option<Response>): (r: Result<Option<seq<VideoPage.SkipSegment>>, ClientError>)
    ensures r == Err(TransportError) <==> exchange.None?
    ensures r == Ok(None) <==> exchange.Some? && !(exchange.value.HttpResponse? && exchange.value.status == 200)
    ensures r.Ok? && r.value.Some? <==>
      exchange.Some? && exchange.value.HttpResponse? && exchange.value.status == 200 &&
      DecodeEach(exchange.value.body, VideoPage.DecodeSkipSegment).Some?
    ensures r.Ok? && r.value.Some? ==> DecodeEach(exchange.value.body, VideoPage.DecodeSkipSegment) == r.value
    ensures r == Err(DecodeError) <==>
      exchange.Some? && exchange.value.HttpResponse? && exchange.value.status == 200 &&
      DecodeEach(exchange.value.body, VideoPage.DecodeSkipSegment).None?
  {
    match exchange
    case None => Err(TransportError)
    case Some(OtherResponse(_)) => Ok(None)
    case Some(HttpResponse(status, body)) =>
      if status == 200 then
        match DecodeEach(body, VideoPage.DecodeSkipSegment)
        case Some(segments) => Ok(Some(segments))
        case None => Err(DecodeError)
      else Ok(None)
  }

  /** `pythonProcess` as it stands, plus the facts a launch depends on. */
  datatype LaunchEnvironment = LaunchEnvironment(interpreterFound: bool, runSucceeds: bool, process: nat)

  /** What `startPythonServer` concluded: it was already running; the interpreter is
      missing (the app stops with `fatalError`); `run()` succeeded; or `run()` threw
      and the failure was only logged. */
  datatype LaunchOutcome = AlreadyRunning | InterpreterMissing | Launched | LaunchFailed

  /** One call of `startPythonServer`, on the process it finds. */
  function LaunchStep(current: Option<nat>, env: LaunchEnvironment): (r: (LaunchOutcome, Option<nat>))
    ensures current.Some? ==> r == (AlreadyRunning, current)
    ensures r.1.Some? <==> current.Some? || (env.interpreterFound && env.runSucceeds)
    ensures r.0 == Launched <==> current.None? && env.interpreterFound && env.runSucceeds
    ensures r.0 == Launched ==> r.1 == Some(env.process)
  {
    if current.Some? then (AlreadyRunning, current)
    else if !env.interpreterFound then (InterpreterMissing, current)
    else if env.runSucceeds then (Launched, Some(env.process))
    else (LaunchFailed, current)
  }

  /** Successive calls, each seeing the process the previous ones left. */
  function LaunchAll(current: Option<nat>, envs: seq<LaunchEnvironment>): (seq<LaunchOutcome>, Option<nat>)
    decreases |envs|
  {
    if envs == [] then ([], current)
    else
      var (o, next) := LaunchStep(current, envs[0]);
      var (os, last) := LaunchAll(next, envs[1..]);
      ([o] + os, last)
  }

  function LaunchedCount(os: seq<LaunchOutcome>): nat {
    if os == [] then 0 else (if os[0] == Launched then 1 else 0) + LaunchedCount(os[1..])
  }

  /** The guard makes the launch happen at most once: across any number of calls at
      most one `run()` succeeds, none once a process is set, and a set process is
      never replaced. */
  lemma {:induction false} LaunchesAtMostOnce(current: Option<nat>, envs: seq<LaunchEnvironment>)
    ensures LaunchedCount(LaunchAll(current, envs).0) <= 1
    ensures current.Some? ==> LaunchedCount(LaunchAll(current, envs).0) == 0 && LaunchAll(current, envs).1 == current
    decreases |envs|
  {
    if envs != [] {
      var (o, next) := LaunchStep(current, envs[0]);
      LaunchesAtMostOnce(next, envs[1..]);
    }
  }

  class ContentService {
    var pythonProcess: Option<nat>
    /** Shutdown hooks registered with the notification center. */
    var terminationHooks: nat

    constructor ()
      ensures pythonProcess == None && terminationHooks == 0
    {
      pythonProcess := None;
      terminationHooks := 0;
    }

    /** `startPythonServer`: a no-op once a process is set; the process is recorded
        only after `run()` succeeds; the shutdown hook is registered whenever the
        interpreter was found, whether or not `run()` succeeded. */
    method StartPythonServer(env: LaunchEnvironment) returns (outcome: LaunchOutcome)
      modifies this
      ensures (outcome, pythonProcess) == LaunchStep(old(pythonProcess), env)
      ensures terminationHooks == old(terminationHooks) + (if outcome == Launched || outcome == LaunchFailed then 1 else 0)
    {
      if pythonProcess.Some? {
        return AlreadyRunning;
      }
      if !env.interpreterFound {
        return InterpreterMissing;
      }
      if env.runSucceeds {
        pythonProcess := Some(env.process);
        outcome := Launched;
      } else {
        outcome := LaunchFailed;
      }
      terminationHooks := terminationHooks + 1;
    }

    /** `waitUntilServerIsReady`: `probe(i)` says whether the i-th probe got any answer. */
    method WaitUntilServerIsReady(probe: nat -> bool) returns (trace: seq<IoStep>)
      ensures trace == ReadinessTrace(probe)
    {
      trace := [];
      for i := 0 to ProbeLimit
        invariant trace + ReadinessFrom(probe, i) == ReadinessTrace(probe)
      {
        if probe(i) {
          trace := trace + [Probe(HealthRequest(), true)];
          return;
        }
        var step := [Probe(HealthRequest(), false), Sleep(ProbeSleepNanoseconds)];
        assert trace + ReadinessFrom(probe, i) == (trace + step) + ReadinessFrom(probe, i + 1);
        trace := trace + step;
      }
      trace := trace + [Warning];
    }

    /** `search`: the readiness wait first, then the request, whose body must decode
        as a list of videos. */
    method Search(query: string, probe: nat -> bool, exchange: Option<Response>)
      returns (trace: seq<IoStep>, r: Result<seq<VideoModel.Video>, ClientError>)
      ensures trace == ReadinessTrace(probe) + [Send(SearchRequest(query))]
      ensures r == Decoded(exchange, (j: Json) => DecodeEach(j, VideoModel.DecodeVideo))
    {
      trace := WaitUntilServerIsReady(probe);
      trace := trace + [Send(SearchRequest(query))];
      r := Decoded(exchange, (j: Json) => DecodeEach(j, VideoModel.DecodeVideo));
    }

    /** `getVideo`: one GET, no readiness wait. */
    method GetVideo(id: string, exchange: Option<Response>)
      returns (trace: seq<IoStep>, r: Result<VideoPage.Test, ClientError>)
      ensures trace == [Send(VideoRequest(id))]
      ensures r == Decoded(exchange, VideoPage.DecodeTest)
    {
      trace := [Send(VideoRequest(id))];
      r := Decoded(exchange, VideoPage.DecodeTest);
    }

    /** `getChannel`: one GET, no readiness wait; the body is read with the key table
        of `ChannelDTO` and converted as `Channel.init(dto:)` does. */
    method GetChannel(id: string, exchange: Option<Response>, convert: ChannelDto.VideoDto -> VideoModel.Video)
      returns (trace: seq<IoStep>, r: Result<ChannelModel.Channel, ClientError>)
      ensures trace == [Send(ChannelRequest(id))]
      ensures r.Err? <==> Decoded(exchange, ChannelDto.DecodeChannelDto).Err?
      ensures r.Err? ==> r.error == Decoded(exchange, ChannelDto.DecodeChannelDto).error
      ensures r.Ok? ==>
        var dto := Decoded(exchange, ChannelDto.DecodeChannelDto).value;
        && r.value.id == dto.id && r.value.title == dto.title && r.value.desc == dto.desc
        && r.value.subscribers == dto.subscribers
        && r.value.avatarURL == dto.avatarURL && r.value.bannerURL == dto.bannerURL
        && |r.value.videos| == |dto.videos|
        && forall i :: 0 <= i < |dto.videos| ==> r.value.videos[i] == convert(dto.videos[i])
    {
      trace := [Send(ChannelRequest(id))];
      var dto := Decoded(exchange, ChannelDto.DecodeChannelDto);
      if dto.Err? {
        return trace, Err(dto.error);
      }
      var channel := new ChannelModel.Channel.FromDto(dto.value, convert);
      r := Ok(channel);
    }

    /** `getSkipSegments`: one GET to the skip-segment service, answered by the status
        switch. */
    method GetSkipSegments(id: string, exchange: Option<Response>)
      returns (trace: seq<IoStep>, r: Result<Option<seq<VideoPage.SkipSegment>>, ClientError>)
      ensures trace == [Send(SkipSegmentsRequest(id))]
      ensures r == SkipSegmentsAnswer(exchange)
    {
      trace := [Send(SkipSegmentsRequest(id))];
      r := SkipSegmentsAnswer(exchange);
    }
  }
}
