/**
 * The data the chart-release worker of the helm tracker handles: jobs,
 * the chart archives it loads, the outcomes of the collaborators it calls
 * (supplied as oracles), and the trace of effects a job leaves behind.
 */
module Tracker {
  import opened Wrappers
  import opened Hub

  /** What a job asks the worker to do. */
  datatype JobKind = RegisterJob | UnregisterJob

  /** One entry of a chart repository index: a chart release and its archive URLs. */
  datatype ChartVersion = ChartVersion(
    name: string,
    version: string,
    digest: string,
    urls: seq<string>,
    createdUnix: int
  )

  /** A unit of work produced by the dispatcher; the worker handles it once. */
  datatype Job = Job(kind: JobKind, repo: Repository, chartVersion: ChartVersion, getLogo: bool)

  /** A maintainer as declared in a chart's metadata (the e-mail may be empty). */
  datatype ChartMaintainer = ChartMaintainer(name: string, email: string)

  /** The metadata of a loaded chart archive. */
  datatype Metadata = Metadata(
    name: string,
    version: string,
    description: string,
    keywords: seq<string>,
    home: string,
    appVersion: string,
    icon: string,
    maintainers: seq<ChartMaintainer>,
    deprecated: bool
  )

  /** A non-template file of a chart archive. */
  datatype ChartFile = ChartFile(name: string, data: Bytes)

  /** A loaded chart; `metadata` may be nil in the source. */
  datatype Chart = Chart(metadata: Option<Metadata>, files: seq<ChartFile>)

  /** A parsed URL; only its path is touched by the worker. */
  datatype Url = Url(scheme: string, host: string, path: string, rawQuery: string)

  /** The outcome of an HTTP GET: a transport error, or a response with a status code and its body. */
  datatype HttpResult = TransportError(cause: Cause) | Response(status: int, body: Bytes)

  /** The HTTP status the worker accepts. */
  const StatusOK := 200

  /** Why the image store refused an image: an unknown image format, or another failure. */
  datatype SaveError = UnknownFormat | StoreFailure(cause: Cause)

  /** The image store's (id, error) pair. */
  datatype SaveOutcome = SaveOutcome(imageID: string, err: Option<SaveError>)

  /**
   * The collaborators of the worker, as oracles. The URL functions stand
   * for `url.ParseRequestURI`, `url.Parse`, `path.Join` and `URL.String`;
   * `httpGet` answers each URL; `loadArchive` is helm's archive loader;
   * `decodeDataURL` decodes a `data:` URL; `text` is Go's bytes-to-string
   * conversion; `detectLicense` is the license detector; `register` and
   * `unregister` are the package manager's answers (`None` for success).
   */
  datatype Env = Env(
    isRequestURI: string -> bool,
    parseURL: string -> Result<Url, Cause>,
    joinPath: (string, string) -> string,
    render: Url -> string,
    httpGet: string -> HttpResult,
    loadArchive: Bytes -> Result<Chart, Cause>,
    decodeDataURL: string -> Result<Bytes, Cause>,
    saveImage: Bytes -> SaveOutcome,
    text: Bytes -> string,
    detectLicense: Bytes -> string,
    register: Package -> Option<Cause>,
    unregister: Package -> Option<Cause>
  )

  /** The errors the worker returns or records; each wrapping mirrors one `fmt.Errorf("...: %w")`. */
  datatype TrackerError =
    | Collaborator(cause: Cause)
    | UnexpectedStatus(code: int)
    | InvalidChartURL(url: string)
    | LoadingChart(url: string, inner: TrackerError)
    | GettingLogo(icon: string, inner: TrackerError)
    | RegisteringPackage(name: string, version: string, inner: TrackerError)
    | UnregisteringPackage(name: string, version: string, inner: TrackerError)

  /** An observable step of a job, in the order the worker takes it. */
  datatype Effect =
    | HttpGet(url: string)
    | SaveImage(data: Bytes)
    | AppendError(repositoryID: string, err: TrackerError)
    | CallRegister(pkg: Package)
    | CallUnregister(pkg: Package)

  /**
   * The result of handling one job: its effects, the error the handler
   * returns, and whether a fault inside the handler was recovered.
   */
  datatype HandlerOutcome = HandlerOutcome(effects: seq<Effect>, err: Option<TrackerError>, recovered: bool)

  /** What a helper that may fail leaves behind: its effects and its (value, error) result. */
  datatype Step<+T> = Step(effects: seq<Effect>, result: Result<T, TrackerError>)

  predicate IsAppend(e: Effect) { e.AppendError? }
  predicate IsRegisterCall(e: Effect) { e.CallRegister? }
  predicate IsUnregisterCall(e: Effect) { e.CallUnregister? }
  predicate IsHttpGet(e: Effect) { e.HttpGet? }
  predicate IsSaveImage(e: Effect) { e.SaveImage? }

  /** The effects of `es` that `keep` selects, in order. */
  function Filter(es: seq<Effect>, keep: Effect -> bool): (r: seq<Effect>)
    ensures |r| <= |es|
    ensures forall e :: e in r <==> e in es && keep(e)
  {
    if |es| == 0 then []
    else (if keep(es[0]) then [es[0]] else []) + Filter(es[1..], keep)
  }

  /** Selecting from a concatenation selects from each half. */
  lemma {:induction false} FilterConcat(a: seq<Effect>, b: seq<Effect>, keep: Effect -> bool)
    ensures Filter(a + b, keep) == Filter(a, keep) + Filter(b, keep)
  {
    if |a| == 0 {
      assert a + b == b;
    } else {
      assert (a + b)[0] == a[0];
      assert (a + b)[1..] == a[1..] + b;
      FilterConcat(a[1..], b, keep);
    }
  }

  /** Nothing is selected from effects `keep` rejects. */
  lemma FilterNone(es: seq<Effect>, keep: Effect -> bool)
    requires forall e :: e in es ==> !keep(e)
    ensures Filter(es, keep) == []
  {
    if Filter(es, keep) != [] {
      assert Filter(es, keep)[0] in Filter(es, keep);
    }
  }

  /** The errors appended to the errors collector. */
  function Appended(es: seq<Effect>): seq<Effect> { Filter(es, IsAppend) }

  /** The packages handed to the package manager's `Register`. */
  function RegisterCalls(es: seq<Effect>): seq<Effect> { Filter(es, IsRegisterCall) }

  /** The packages handed to the package manager's `Unregister`. */
  function UnregisterCalls(es: seq<Effect>): seq<Effect> { Filter(es, IsUnregisterCall) }

  /** The URLs fetched over HTTP. */
  function HttpGets(es: seq<Effect>): seq<Effect> { Filter(es, IsHttpGet) }
}
