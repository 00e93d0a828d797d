/**
 * Finding a working base URL for the Dash API (`working_api_base_url` and the
 * helpers it calls). Every question the code puts to the operating system,
 * the status file or the network is answered by a field of `World`, fixed for
 * one call; the methods record, in order, the actions they take.
 */
module Bootstrap {
  import opened Wrappers
  import opened Text

  /** Outcome of one `subprocess.run(...)`: the exit status, or an exception (timeout, program missing). */
  datatype RunResult = Exited(code: int) | Raised

  /** A query parameter of an HTTP GET. */
  datatype Param = PStr(s: string) | PBool(b: bool) | PInt(i: int)

  /** What the server does to the outside world, in the order it does it. */
  datatype Action =
    | ProbeDash                                          // `pgrep -f Dash`, 5 s timeout
    | LaunchDash                                         // `open -g -j -b com.kapeli.dashdoc`, 10 s timeout
    | EnableApiServer                                    // `defaults write com.kapeli.dashdoc DHAPIServerEnabled YES`, 10 s timeout
    | Wait(seconds: nat)                                 // time.sleep
    | ReadStatusFile                                     // open and json.load status.json
    | HealthCheck(baseUrl: string)                       // GET {baseUrl}/health, 5 s timeout
    | HttpGet(url: string, params: seq<(string, Param)>) // the data request of one of the tools

  /** The answers the outside world gives during one bootstrap. */
  datatype World = World(
    dashApiUrl: Option<string>,          // os.getenv("DASH_API_URL")
    pgrepAtStart: RunResult,             // the first `pgrep -f Dash`
    launch: RunResult,                   // `open -g -j -b com.kapeli.dashdoc`
    pgrepAfterLaunch: RunResult,         // `pgrep -f Dash` after the launch
    statusPort: Option<int>,             // the `port` of status.json on the first read
    defaultsWrite: RunResult,            // `defaults write com.kapeli.dashdoc DHAPIServerEnabled YES`
    statusPortAfterWrite: Option<int>,   // the `port` of status.json on the read after the write
    answering: set<string>,              // the base URLs whose /health answers with a 2xx status, up to the write
    answeringAfterWrite: set<string>)    // the same, once the preference has been written and 2 seconds have passed

  /** `subprocess.run(..., check=True)` returns normally only on exit status 0. */
  predicate Succeeded(r: RunResult) {
    r == Exited(0)
  }

  /** `f"http://127.0.0.1:{port}"`. */
  function LocalUrl(port: int): (url: string)
    ensures |url| > |"http://127.0.0.1:"| && url[..|"http://127.0.0.1:"|] == "http://127.0.0.1:"
  {
    "http://127.0.0.1:" + IntToString(port)
  }

  /** The URL names its port: two ports never share a URL. */
  lemma LocalUrlInjective(p: int, q: int)
    requires LocalUrl(p) == LocalUrl(q)
    ensures p == q
  {
    var n := |"http://127.0.0.1:"|;
    assert LocalUrl(p)[n..] == IntToString(p);
    assert LocalUrl(q)[n..] == IntToString(q);
    IntToStringInjective(p, q);
  }

  /** The environment override, when set to a non-empty value (an empty value is falsy). */
  function Override(w: World): Option<string> {
    if w.dashApiUrl.Some? && w.dashApiUrl.value != "" then w.dashApiUrl else None
  }

  /** Dash is running, or is launched and then found running. */
  predicate DashRunning(w: World) {
    Succeeded(w.pgrepAtStart) || (Succeeded(w.launch) && Succeeded(w.pgrepAfterLaunch))
  }

  /** A port read from the status file is used only if the API answers on it at the time of the check. */
  predicate PortVerified(answering: set<string>, port: Option<int>) {
    port.Some? && LocalUrl(port.value) in answering
  }

  /**
   * The base URL one bootstrap yields, stated by cases: the override when it is
   * set (if it answers); otherwise, when Dash is running, the first port that
   * answers, reading the status file once more only after a successful
   * preference write.
   */
  function BaseUrlOf(w: World): Option<string> {
    match Override(w)
    case Some(custom) => if custom in w.answering then Some(custom) else None
    case None =>
      if !DashRunning(w) then None
      else if PortVerified(w.answering, w.statusPort) then Some(LocalUrl(w.statusPort.value))
      else if Succeeded(w.defaultsWrite) && PortVerified(w.answeringAfterWrite, w.statusPortAfterWrite)
      then Some(LocalUrl(w.statusPortAfterWrite.value))
      else None
  }

  /** The actions `ensure_dash_running` takes. */
  function LaunchTrace(w: World): seq<Action> {
    if Succeeded(w.pgrepAtStart) then [ProbeDash]
    else if !Succeeded(w.launch) then [ProbeDash, LaunchDash]
    else [ProbeDash, LaunchDash, Wait(4), ProbeDash]
  }

  /** The actions of one port read: read the file, then check the port it names, if any. */
  function ReadTrace(status: Option<int>): seq<Action> {
    [ReadStatusFile] + if status.Some? then [HealthCheck(LocalUrl(status.value))] else []
  }

  /** The actions of port resolution, with the preference write when no port answers. */
  function PortTrace(w: World): seq<Action> {
    ReadTrace(w.statusPort)
    + if PortVerified(w.answering, w.statusPort) then []
      else if !Succeeded(w.defaultsWrite) then [EnableApiServer]
      else [EnableApiServer, Wait(2)] + ReadTrace(w.statusPortAfterWrite)
  }

  /** The actions of one whole bootstrap. */
  function BootstrapTrace(w: World): seq<Action> {
    match Override(w)
    case Some(custom) => [HealthCheck(custom)]
    case None => LaunchTrace(w) + if DashRunning(w) then PortTrace(w) else []
  }

  /** `check_api_health`: true exactly when GET {baseUrl}/health answers with a 2xx status. */
  method CheckApiHealth(answering: set<string>, baseUrl: string) returns (healthy: bool, trace: seq<Action>)
    ensures healthy <==> baseUrl in answering
    ensures trace == [HealthCheck(baseUrl)]
  {
    healthy := baseUrl in answering;
    trace := [HealthCheck(baseUrl)];
  }

  /** `check_dash_running`: `pgrep` exits with 0; any other status or an exception means not running. */
  method CheckDashRunning(probe: RunResult) returns (running: bool, trace: seq<Action>)
    ensures running <==> Succeeded(probe)
    ensures trace == [ProbeDash]
  {
    match probe {
      case Exited(code) => running := code == 0;
      case Raised => running := false;
    }
    trace := [ProbeDash];
  }

  /**
   * `ensure_dash_running`: probe; when Dash is not running, launch it once,
   * wait 4 seconds and probe once more. A failed launch ends the attempt.
   */
  method EnsureDashRunning(w: World) returns (running: bool, trace: seq<Action>)
    ensures running <==> DashRunning(w)
    ensures trace == LaunchTrace(w)
  {
    running, trace := CheckDashRunning(w.pgrepAtStart);
    if !running {
      trace := trace + [LaunchDash];
      if !Succeeded(w.launch) {
        // CalledProcessError for a non-zero exit, any other exception otherwise
        return false, trace;
      }
      trace := trace + [Wait(4)];
      var again, probe := CheckDashRunning(w.pgrepAfterLaunch);
      running := again;
      trace := trace + probe;
    }
  }

  /**
   * `get_dash_api_port`: read the port from the status file and return it only
   * if the API answers on it. `status` is what the read yields: `None` for a
   * missing or undecodable file or a missing or null `port`; `answering` is
   * which base URLs answer at the time.
   */
  method GetDashApiPort(answering: set<string>, status: Option<int>) returns (port: Option<int>, trace: seq<Action>)
    ensures port.Some? <==> PortVerified(answering, status)
    ensures port.Some? ==> port == status
    ensures trace == ReadTrace(status)
  {
    trace := [ReadStatusFile];
    if status.None? {
      return None, trace;
    }
    var healthy, check := CheckApiHealth(answering, LocalUrl(status.value));
    trace := trace + check;
    port := if healthy then status else None;
  }

  /**
   * The port half of `working_api_base_url`: resolve the port; when none
   * answers, write the preference straight away, wait 2 seconds and resolve
   * once more. A failed write or a second miss gives up.
   */
  method ResolvePortEnablingApi(w: World) returns (port: Option<int>, trace: seq<Action>)
    ensures port.Some? <==> PortVerified(w.answering, w.statusPort)
                            || (Succeeded(w.defaultsWrite) && PortVerified(w.answeringAfterWrite, w.statusPortAfterWrite))
    ensures port.Some? ==> port == if PortVerified(w.answering, w.statusPort) then w.statusPort else w.statusPortAfterWrite
    ensures trace == PortTrace(w)
  {
    port, trace := GetDashApiPort(w.answering, w.statusPort);
    if port.None? {
      trace := trace + [EnableApiServer];
      if !Succeeded(w.defaultsWrite) {
        return None, trace;
      }
      var reread;
      port, reread := GetDashApiPort(w.answeringAfterWrite, w.statusPortAfterWrite);
      trace := trace + [Wait(2)] + reread;
    }
  }

  /** `working_api_base_url`: the outcome and the actions of one bootstrap. */
  method WorkingApiBaseUrl(w: World) returns (url: Option<string>, trace: seq<Action>)
    ensures url == BaseUrlOf(w)
    ensures trace == BootstrapTrace(w)
  {
    if w.dashApiUrl.Some? && w.dashApiUrl.value != "" {
      var custom := w.dashApiUrl.value;
      var healthy;
      healthy, trace := CheckApiHealth(w.answering, custom);
      if healthy {
        return Some(custom), trace;
      }
      return None, trace;
    }

    var running;
    running, trace := EnsureDashRunning(w);
    if !running {
      return None, trace;
    }

    var port, resolve := ResolvePortEnablingApi(w);
    trace := trace + resolve;
    if port.None? {
      return None, trace;
    }
    return Some(LocalUrl(port.value)), trace;
  }

  /** The override skips every process and port step: one health check decides. */
  lemma OverrideDecides(w: World)
    requires Override(w).Some?
    ensures BootstrapTrace(w) == [HealthCheck(Override(w).value)]
    ensures BaseUrlOf(w) == if Override(w).value in w.answering then Override(w) else None
  {
  }

  /** Port resolution neither probes nor launches, and makes no data request. */
  lemma PortTraceActions(w: World)
    ensures forall a :: a in PortTrace(w) ==> a == ReadStatusFile || a == EnableApiServer || a.HealthCheck? || a.Wait?
  {
    forall a | a in PortTrace(w)
      ensures a == ReadStatusFile || a == EnableApiServer || a.HealthCheck? || a.Wait?
    {
      var first, second := ReadTrace(w.statusPort), ReadTrace(w.statusPortAfterWrite);
      assert a in first || a in [EnableApiServer, Wait(2)] || a in second;
    }
  }

  /** `ensure_dash_running` reads no file and writes no preference. */
  lemma LaunchTraceActions(w: World)
    ensures forall a :: a in LaunchTrace(w) ==> a == ProbeDash || a == LaunchDash || a.Wait?
    ensures multiset(LaunchTrace(w))[LaunchDash] == if Succeeded(w.pgrepAtStart) then 0 else 1
  {
  }

  /** Dash is launched at most once, and only when the first probe finds it not running. */
  lemma LaunchAtMostOnce(w: World)
    ensures multiset(BootstrapTrace(w))[LaunchDash] <= 1
    ensures LaunchDash in BootstrapTrace(w) <==> Override(w).None? && !Succeeded(w.pgrepAtStart)
  {
    if Override(w).None? {
      LaunchTraceActions(w);
      if DashRunning(w) {
        PortTraceCounts(w);
        assert BootstrapTrace(w) == LaunchTrace(w) + PortTrace(w);
      } else {
        assert BootstrapTrace(w) == LaunchTrace(w) + [];
      }
    }
  }

  /** When Dash is still not running after the launch attempt, no port step happens and there is no URL. */
  lemma NotRunningStops(w: World)
    requires Override(w).None? && !DashRunning(w)
    ensures BaseUrlOf(w).None?
    ensures BootstrapTrace(w) == LaunchTrace(w)
    ensures ReadStatusFile !in BootstrapTrace(w) && EnableApiServer !in BootstrapTrace(w)
  {
    LaunchTraceActions(w);
    assert BootstrapTrace(w) == LaunchTrace(w) + [];
  }

  /** How often port resolution writes the preference and reads the status file. */
  lemma PortTraceCounts(w: World)
    ensures multiset(PortTrace(w))[LaunchDash] == 0
    ensures multiset(PortTrace(w))[EnableApiServer] == if PortVerified(w.answering, w.statusPort) then 0 else 1
    ensures multiset(PortTrace(w))[ReadStatusFile]
            == if !PortVerified(w.answering, w.statusPort) && Succeeded(w.defaultsWrite) then 2 else 1
  {
    var first, second := ReadTrace(w.statusPort), ReadTrace(w.statusPortAfterWrite);
    assert multiset(first)[ReadStatusFile] == 1 && multiset(first)[EnableApiServer] == 0 && multiset(first)[LaunchDash] == 0;
    assert multiset(second)[ReadStatusFile] == 1 && multiset(second)[EnableApiServer] == 0 && multiset(second)[LaunchDash] == 0;
    if !PortVerified(w.answering, w.statusPort) && Succeeded(w.defaultsWrite) {
      assert PortTrace(w) == first + [EnableApiServer, Wait(2)] + second;
    }
  }

  /**
   * The preference is written, without asking anyone, exactly when Dash runs
   * and no answering port was found, and at most once; the status file is
   * read at most twice, the second time only after a successful write.
   */
  lemma PreferenceWrittenOnlyWithoutPort(w: World)
    ensures multiset(BootstrapTrace(w))[EnableApiServer] <= 1
    ensures EnableApiServer in BootstrapTrace(w)
            <==> Override(w).None? && DashRunning(w) && !PortVerified(w.answering, w.statusPort)
    ensures multiset(BootstrapTrace(w))[ReadStatusFile]
            == if Override(w).None? && DashRunning(w) then
                 (if !PortVerified(w.answering, w.statusPort) && Succeeded(w.defaultsWrite) then 2 else 1)
               else 0
    ensures EnableApiServer in BootstrapTrace(w) && !Succeeded(w.defaultsWrite) ==> BaseUrlOf(w).None?
  {
    if Override(w).None? {
      LaunchTraceActions(w);
      assert multiset(LaunchTrace(w))[EnableApiServer] == 0 && multiset(LaunchTrace(w))[ReadStatusFile] == 0;
      if DashRunning(w) {
        PortTraceCounts(w);
        assert BootstrapTrace(w) == LaunchTrace(w) + PortTrace(w);
      } else {
        assert BootstrapTrace(w) == LaunchTrace(w) + [];
      }
    }
  }

  /** Whatever URL comes back answered its health check during this very bootstrap. */
  lemma ReturnedUrlWasChecked(w: World)
    requires BaseUrlOf(w).Some?
    ensures BaseUrlOf(w).value in w.answering
            || (Override(w).None? && Succeeded(w.defaultsWrite) && BaseUrlOf(w).value in w.answeringAfterWrite)
    ensures HealthCheck(BaseUrlOf(w).value) in BootstrapTrace(w)
  {
  }

  /**
   * Without the override, the URL is `http://127.0.0.1:{port}` for a port read
   * from the status file: the first read, or the read after a successful write.
   */
  lemma UrlNamesStatusPort(w: World)
    requires Override(w).None? && BaseUrlOf(w).Some?
    ensures exists p :: BaseUrlOf(w) == Some(LocalUrl(p))
                        && (w.statusPort == Some(p) || (Succeeded(w.defaultsWrite) && w.statusPortAfterWrite == Some(p)))
  {
  }

  /**
   * A status file that names the same port before and after the preference
   * write still gets its second chance: when the API comes up on that port
   * during the wait, the re-read finds it, after checking it twice.
   */
  lemma ApiComingUpIsFound(w: World, p: int)
    requires Override(w).None? && DashRunning(w) && Succeeded(w.defaultsWrite)
    requires w.statusPort == Some(p) && w.statusPortAfterWrite == Some(p)
    requires LocalUrl(p) !in w.answering && LocalUrl(p) in w.answeringAfterWrite
    ensures BaseUrlOf(w) == Some(LocalUrl(p))
    ensures multiset(BootstrapTrace(w))[HealthCheck(LocalUrl(p))] == 2
  {
    var check := HealthCheck(LocalUrl(p));
    LaunchTraceActions(w);
    assert check !in LaunchTrace(w);
    ComingUpPortTrace(w, p);
    assert multiset(PortTrace(w))[check] == 2;
    assert BootstrapTrace(w) == LaunchTrace(w) + PortTrace(w);
  }

  /** The port actions when the API comes up on the same port during the wait. */
  lemma ComingUpPortTrace(w: World, p: int)
    requires Succeeded(w.defaultsWrite)
    requires w.statusPort == Some(p) && w.statusPortAfterWrite == Some(p) && LocalUrl(p) !in w.answering
    ensures PortTrace(w) == [ReadStatusFile, HealthCheck(LocalUrl(p)), EnableApiServer, Wait(2),
                             ReadStatusFile, HealthCheck(LocalUrl(p))]
  {
  }
}
