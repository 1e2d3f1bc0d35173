/**
 * The chart-release worker of the helm tracker (`cmd/helm-tracker/worker.go`):
 * the register and unregister job handlers as step functions from a job and
 * the collaborators' answers to a trace of effects, and the worker's loop as
 * a fold over the events it receives.
 */
module Worker {
  import opened Wrappers
  import opened Hub
  import opened Tracker

  /** `s` starts with `prefix`. */
  predicate StartsWith(s: string, prefix: string) {
    |prefix| <= |s| && s[..|prefix|] == prefix
  }

  /**
   * The URL of a chart archive: an index URL that is already a valid
   * request URI is used as is; otherwise it is joined onto the path of the
   * repository URL, which fails when the repository URL cannot be parsed.
   */
  function ResolveChartURL(env: Env, repo: Repository, u: string): (r: Result<string, Cause>)
    ensures env.isRequestURI(u) ==> r == Success(u)
    ensures !env.isRequestURI(u) && env.parseURL(repo.url).Failure? ==> r == Failure(env.parseURL(repo.url).error)
    ensures !env.isRequestURI(u) && env.parseURL(repo.url).Success? ==>
              var base := env.parseURL(repo.url).value;
              r == Success(env.render(base.(path := env.joinPath(base.path, u))))
  {
    if env.isRequestURI(u) then Success(u)
    else
      match env.parseURL(repo.url)
      case Failure(cause) => Failure(cause)
      case Success(base) => Success(env.render(base.(path := env.joinPath(base.path, u))))
  }

  /** The body of a GET of `u`, or why there is none: a transport error or a status other than 200. */
  function Fetch(env: Env, u: string): (r: Step<Bytes>)
    ensures r.effects == [HttpGet(u)]
    ensures r.result.Success? <==> env.httpGet(u).Response? && env.httpGet(u).status == StatusOK
    ensures r.result.Success? ==> r.result.value == env.httpGet(u).body
  {
    match env.httpGet(u)
    case TransportError(cause) => Step([HttpGet(u)], Failure(Collaborator(cause)))
    case Response(status, body) =>
      if status == StatusOK then Step([HttpGet(u)], Success(body))
      else Step([HttpGet(u)], Failure(UnexpectedStatus(status)))
  }

  /** `loadChart`: fetch the archive, then parse it. */
  function LoadChart(env: Env, u: string): (r: Step<Chart>)
    ensures r.effects == [HttpGet(u)]
    ensures r.result.Success? <==>
              && env.httpGet(u).Response? && env.httpGet(u).status == StatusOK
              && env.loadArchive(env.httpGet(u).body).Success?
    ensures r.result.Success? ==> r.result.value == env.loadArchive(env.httpGet(u).body).value
  {
    var fetched := Fetch(env, u);
    match fetched.result
    case Failure(e) => Step(fetched.effects, Failure(e))
    case Success(body) =>
      match env.loadArchive(body)
      case Failure(cause) => Step(fetched.effects, Failure(Collaborator(cause)))
      case Success(chart) => Step(fetched.effects, Success(chart))
  }

  /** `getImage`: a `data:` URL is decoded in place; any other URL is downloaded. */
  function GetImage(env: Env, u: string): (r: Step<Bytes>)
    ensures StartsWith(u, "data:") ==> r.effects == []
    ensures StartsWith(u, "data:") ==> (r.result.Success? <==> env.decodeDataURL(u).Success?)
    ensures StartsWith(u, "data:") && env.decodeDataURL(u).Success? ==> r.result == Success(env.decodeDataURL(u).value)
    ensures StartsWith(u, "data:") && env.decodeDataURL(u).Failure? ==>
              r.result == Failure(Collaborator(env.decodeDataURL(u).error))
    ensures !StartsWith(u, "data:") ==> r == Fetch(env, u)
  {
    if StartsWith(u, "data:") then
      match env.decodeDataURL(u)
      case Failure(cause) => Step([], Failure(Collaborator(cause)))
      case Success(data) => Step([], Success(data))
    else Fetch(env, u)
  }

  /** `chartVersionHasProvenanceFile`: whether `<u>.prov` answers 200. */
  function HasProvenanceFile(env: Env, u: string): (r: Step<bool>)
    ensures r.effects == [HttpGet(u + ".prov")]
    ensures r.result.Failure? <==> env.httpGet(u + ".prov").TransportError?
    ensures r.result.Success? ==> (r.result.value <==> env.httpGet(u + ".prov").status == StatusOK)
  {
    match env.httpGet(u + ".prov")
    case TransportError(cause) => Step([HttpGet(u + ".prov")], Failure(Collaborator(cause)))
    case Response(status, _) => Step([HttpGet(u + ".prov")], Success(status == StatusOK))
  }

  /** `getFile`: the first file of the chart whose name is exactly `name`. */
  function GetFile(files: seq<ChartFile>, name: string): (r: Option<ChartFile>)
    ensures r.Some? ==> r.value in files && r.value.name == name
    ensures r.None? <==> forall f :: f in files ==> f.name != name
    ensures r.Some? ==> exists i :: 0 <= i < |files| && files[i] == r.value
                                    && forall k :: 0 <= k < i ==> files[k].name != name
  {
    if |files| == 0 then None
    else if files[0].name == name then Some(files[0])
    else
      var rest := GetFile(files[1..], name);
      assert forall f :: f in files ==> f == files[0] || f in files[1..];
      assert rest.Some? ==> exists i :: 0 <= i < |files| && files[i] == rest.value
                                        && forall k :: 0 <= k < i ==> files[k].name != name by {
        if rest.Some? {
          var i :| 0 <= i < |files[1..]| && files[1..][i] == rest.value
                   && forall k :: 0 <= k < i ==> files[1..][k].name != name;
          assert files[i + 1] == rest.value;
          assert forall k :: 1 <= k < i + 1 ==> files[k] == files[1..][k - 1];
        }
      }
      rest
  }

  /** The maintainers worth registering: those with an e-mail, in their original order. */
  function KeepWithEmail(ms: seq<ChartMaintainer>): (r: seq<Maintainer>)
    ensures forall m :: m in r ==> m.email != ""
    ensures forall m :: m in r <==> exists c :: c in ms && c.email != "" && m == Maintainer(c.name, c.email)
    ensures |r| <= |ms|
  {
    if |ms| == 0 then []
    else
      var rest := KeepWithEmail(ms[1..]);
      assert forall c :: c in ms <==> c == ms[0] || c in ms[1..];
      if ms[0].email != "" then [Maintainer(ms[0].name, ms[0].email)] + rest else rest
  }

  /**
   * Filtering maintainers distributes over concatenation, so the kept
   * maintainers appear in the order the chart lists them.
   */
  lemma {:induction false} KeepWithEmailConcat(a: seq<ChartMaintainer>, b: seq<ChartMaintainer>)
    ensures KeepWithEmail(a + b) == KeepWithEmail(a) + KeepWithEmail(b)
  {
    if |a| == 0 {
      assert a + b == b;
    } else {
      assert (a + b)[0] == a[0];
      assert (a + b)[1..] == a[1..] + b;
      KeepWithEmailConcat(a[1..], b);
    }
  }

  /** What the logo step leaves behind: its effects and the package's logo URL and image id. */
  datatype Logo = Logo(effects: seq<Effect>, logoURL: string, logoImageID: string)

  /**
   * The logo step of `handleRegisterJob`: only when the job asks for a logo
   * and the chart has an icon. A failure to get the image is appended and
   * leaves the image id empty; a failure to store it is only logged.
   */
  function FetchLogo(env: Env, j: Job, icon: string): (r: Logo)
    ensures !(j.getLogo && icon != "") ==> r == Logo([], "", "")
    ensures j.getLogo && icon != "" ==> r.logoURL == icon
    ensures j.getLogo && icon != "" && GetImage(env, icon).result.Failure? ==>
              && r.logoImageID == ""
              && r.effects == GetImage(env, icon).effects
                              + [AppendError(j.repo.repositoryID, GettingLogo(icon, GetImage(env, icon).result.error))]
    ensures j.getLogo && icon != "" && GetImage(env, icon).result.Success? ==>
              var data := GetImage(env, icon).result.value;
              && r.logoImageID == env.saveImage(data).imageID
              && r.effects == GetImage(env, icon).effects + [SaveImage(data)]
  {
    if j.getLogo && icon != "" then
      var image := GetImage(env, icon);
      match image.result
      case Failure(e) => Logo(image.effects + [AppendError(j.repo.repositoryID, GettingLogo(icon, e))], icon, "")
      case Success(data) => Logo(image.effects + [SaveImage(data)], icon, env.saveImage(data).imageID)
    else Logo([], "", "")
  }

  /** The package built for a loaded chart, before registration. */
  function BuildPackage(env: Env, j: Job, u: string, chart: Chart, md: Metadata, logo: Logo, signed: bool): (p: Package)
    ensures p.name == md.name && p.version == md.version && p.contentURL == u
    ensures p.repository == Some(j.repo) && p.digest == j.chartVersion.digest
    ensures p.maintainers == KeepWithEmail(md.maintainers)
    ensures p.signed == signed
    ensures p.logoURL == logo.logoURL && p.logoImageID == logo.logoImageID
    ensures p.description == md.description && p.keywords == md.keywords && p.homeURL == md.home
    ensures p.appVersion == md.appVersion && p.deprecated == md.deprecated
    ensures p.createdAt == j.chartVersion.createdUnix
    ensures p.channels == [] && p.capabilities == ""
  {
    var readme := GetFile(chart.files, "README.md");
    var licenseFile := GetFile(chart.files, "LICENSE");
    Package(
      name := md.name,
      logoURL := logo.logoURL,
      logoImageID := logo.logoImageID,
      description := md.description,
      keywords := md.keywords,
      homeURL := md.home,
      version := md.version,
      appVersion := md.appVersion,
      digest := j.chartVersion.digest,
      deprecated := md.deprecated,
      contentURL := u,
      createdAt := j.chartVersion.createdUnix,
      repository := Some(j.repo),
      readme := if readme.Some? then env.text(readme.value.data) else "",
      license := if licenseFile.Some? then env.detectLicense(licenseFile.value.data) else "",
      signed := signed,
      maintainers := KeepWithEmail(md.maintainers)
    )
  }

  /**
   * The package manager's answer to a catalog call, as the handler records
   * and returns it: a failure is appended once, wrapped, for the job's
   * repository and returned unwrapped; a success leaves no trace.
   */
  function Settle(repositoryID: string, p: Package, answer: Option<Cause>, wrap: TrackerError -> TrackerError): (r: HandlerOutcome)
    ensures !r.recovered
    ensures r.err.Some? <==> answer.Some?
    ensures answer.Some? ==> r.err == Some(Collaborator(answer.value))
    ensures |r.effects| == (if r.err.Some? then 1 else 0)
    ensures r.err.Some? ==> r.effects[0] == AppendError(repositoryID, wrap(r.err.value))
  {
    if answer.Some? then
      HandlerOutcome([AppendError(repositoryID, wrap(Collaborator(answer.value)))], Some(Collaborator(answer.value)), false)
    else HandlerOutcome([], None, false)
  }

  /**
   * `handleRegisterJob`. A fault inside the handler is recovered and the
   * handler then returns no error: the two faults reachable here are an
   * index entry without URLs (indexing `URLs[0]`) and a chart archive
   * without metadata (dereferencing it).
   */
  function HandleRegisterJob(env: Env, j: Job): (r: HandlerOutcome)
    ensures r.recovered ==> r.err.None?
    ensures |RegisterCalls(r.effects)| <= 1
  {
    if |j.chartVersion.urls| == 0 then HandlerOutcome([], None, true)
    else
      var u0 := j.chartVersion.urls[0];
      var id := j.repo.repositoryID;
      match ResolveChartURL(env, j.repo, u0)
      case Failure(cause) => HandlerOutcome([AppendError(id, InvalidChartURL(u0))], Some(Collaborator(cause)), false)
      case Success(u) =>
        var loaded := LoadChart(env, u);
        match loaded.result
        case Failure(e) => HandlerOutcome(loaded.effects + [AppendError(id, LoadingChart(u, e))], None, false)
        case Success(chart) =>
          if chart.metadata.None? then HandlerOutcome(loaded.effects, None, true)
          else
            var md := chart.metadata.value;
            var logo := FetchLogo(env, j, md.icon);
            var provenance := HasProvenanceFile(env, u);
            var signed := provenance.result.Success? && provenance.result.value;
            var p := BuildPackage(env, j, u, chart, md, logo, signed);
            var settled := Settle(id, p, env.register(p), e => RegisteringPackage(p.name, p.version, e));
            var effects := loaded.effects + logo.effects + provenance.effects + [CallRegister(p)] + settled.effects;
            assert RegisterCalls(effects) == [CallRegister(p)] by {
              RegisterCallsOfRegistration(loaded.effects, logo.effects, provenance.effects, p, settled.effects);
            }
            HandlerOutcome(effects, settled.err, false)
  }

  /** Only the catalog call among a registration's effects is a `Register` call. */
  lemma RegisterCallsOfRegistration(load: seq<Effect>, logo: seq<Effect>, probe: seq<Effect>, p: Package, settled: seq<Effect>)
    requires forall e :: e in load + logo + probe + settled ==> !e.CallRegister?
    ensures RegisterCalls(load + logo + probe + [CallRegister(p)] + settled) == [CallRegister(p)]
  {
    var before := load + logo + probe;
    FilterConcat(before + [CallRegister(p)], settled, IsRegisterCall);
    FilterConcat(before, [CallRegister(p)], IsRegisterCall);
    FilterNone(before, IsRegisterCall);
    FilterNone(settled, IsRegisterCall);
  }

  /** The package identity `handleUnregisterJob` hands to the package manager. */
  function UnregisterIdentity(j: Job): (p: Package)
    ensures p.name == j.chartVersion.name && p.version == j.chartVersion.version
    ensures p.repository == Some(j.repo)
    ensures p == Package(name := p.name, version := p.version, repository := p.repository)
  {
    Package(name := j.chartVersion.name, version := j.chartVersion.version, repository := Some(j.repo))
  }

  /**
   * `handleUnregisterJob`: one `Unregister` call and nothing else; a failure
   * is appended, wrapped, for the job's repository and returned.
   */
  function HandleUnregisterJob(env: Env, j: Job): (r: HandlerOutcome)
    ensures !r.recovered && |r.effects| >= 1
    ensures r.effects[0] == CallUnregister(UnregisterIdentity(j))
    ensures r.err.None? <==> env.unregister(UnregisterIdentity(j)).None?
    ensures var p := UnregisterIdentity(j);
            var answer := env.unregister(p);
            && r.effects == [CallUnregister(p)]
                            + (if answer.Some?
                               then [AppendError(j.repo.repositoryID, UnregisteringPackage(p.name, p.version, Collaborator(answer.value)))]
                               else [])
            && (answer.Some? ==> r.err == Some(Collaborator(answer.value)))
  {
    var p := UnregisterIdentity(j);
    var settled := Settle(j.repo.repositoryID, p, env.unregister(p), e => UnregisteringPackage(p.name, p.version, e));
    HandlerOutcome([CallUnregister(p)] + settled.effects, settled.err, false)
  }

  /**
   * The handler a job is dispatched to, by its kind: a register job calls
   * `Register` at most once and returns no error after a recovered fault;
   * an unregister job starts with its `Unregister` call and fails exactly
   * when that call does.
   */
  function HandleJob(env: Env, j: Job): (r: HandlerOutcome)
    ensures j.kind == RegisterJob ==> |RegisterCalls(r.effects)| <= 1 && (r.recovered ==> r.err.None?)
    ensures j.kind == UnregisterJob ==>
              && !r.recovered && |r.effects| >= 1
              && r.effects[0] == CallUnregister(UnregisterIdentity(j))
              && (r.err.None? <==> env.unregister(UnregisterIdentity(j)).None?)
  {
    match j.kind
    case RegisterJob => HandleRegisterJob(env, j)
    case UnregisterJob => HandleUnregisterJob(env, j)
  }

  // ---------------------------------------------------------------------------
  // Run

  /** What the worker's `select` observes: a job, a closed queue, or a cancelled context. */
  datatype Event = Received(job: Job) | QueueClosed | ContextDone

  /** A handler error the loop logs before moving on. */
  datatype Logged = Logged(job: Job, err: TrackerError)

  /** What a worker run did: the jobs it handled, their effects in order, and the errors it logged. */
  datatype RunOutcome = RunOutcome(handled: seq<Job>, effects: seq<Effect>, logged: seq<Logged>)

  /** The jobs received before the first stop signal. */
  function Delivered(events: seq<Event>): (jobs: seq<Job>)
    ensures |jobs| <= |events|
  {
    if |events| == 0 || !events[0].Received? then []
    else [events[0].job] + Delivered(events[1..])
  }

  /** A handler's error as the loop logs it. */
  function LogOf(j: Job, h: HandlerOutcome): seq<Logged> {
    if h.err.Some? then [Logged(j, h.err.value)] else []
  }

  /**
   * `Run`: handles each received job by its kind, logs a returned error and
   * keeps going, and stops at a closed queue or a cancelled context.
   */
  function Run(env: Env, events: seq<Event>): (r: RunOutcome)
    ensures r.handled == Delivered(events)
    ensures |r.logged| <= |r.handled|
  {
    if |events| == 0 then RunOutcome([], [], [])
    else
      match events[0]
      case QueueClosed => RunOutcome([], [], [])
      case ContextDone => RunOutcome([], [], [])
      case Received(j) =>
        var h := HandleJob(env, j);
        var rest := Run(env, events[1..]);
        RunOutcome([j] + rest.handled, h.effects + rest.effects, LogOf(j, h) + rest.logged)
  }
}
