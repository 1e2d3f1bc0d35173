/**
 * What handling one chart-release job guarantees: which failures are fatal
 * to the job and which are only recorded, and what the registered package
 * is made of.
 */
module WorkerProperties {
  import opened Wrappers
  import opened Hub
  import opened Tracker
  import opened Worker
  import Checks
  import Manager

  /** The archive of the job resolves to `u` and loads into a chart with metadata `md`. */
  predicate Loads(env: Env, j: Job, u: string, chart: Chart, md: Metadata) {
    && |j.chartVersion.urls| > 0
    && ResolveChartURL(env, j.repo, j.chartVersion.urls[0]) == Success(u)
    && LoadChart(env, u).result == Success(chart)
    && chart.metadata == Some(md)
  }

  /** Every effect of a registration, given the chart it loaded, listed by step. */
  lemma RegistrationEffects(env: Env, j: Job, u: string, chart: Chart, md: Metadata)
    requires Loads(env, j, u, chart, md)
    ensures var logo := FetchLogo(env, j, md.icon);
            var provenance := HasProvenanceFile(env, u);
            var signed := provenance.result.Success? && provenance.result.value;
            var p := BuildPackage(env, j, u, chart, md, logo, signed);
            var r := HandleRegisterJob(env, j);
            && r.effects[..|r.effects| - (if env.register(p).Some? then 1 else 0)]
               == [HttpGet(u)] + logo.effects + [HttpGet(u + ".prov"), CallRegister(p)]
            && (env.register(p).Some? ==>
                  r.effects == [HttpGet(u)] + logo.effects + [HttpGet(u + ".prov"), CallRegister(p),
                               AppendError(j.repo.repositoryID, RegisteringPackage(p.name, p.version, Collaborator(env.register(p).value)))]
                  && r.err == Some(Collaborator(env.register(p).value)))
            && (env.register(p).None? ==>
                  r.effects == [HttpGet(u)] + logo.effects + [HttpGet(u + ".prov"), CallRegister(p)] && r.err.None?)
            && !r.recovered
  {
  }

  /** What a registration appends after its `Register` call: the call's failure, if any. */
  function RegisterTail(id: string, p: Package, answer: Option<Cause>): seq<Effect> {
    if answer.Some? then [AppendError(id, RegisteringPackage(p.name, p.version, Collaborator(answer.value)))] else []
  }

  /** A registration's trace in one piece: archive, logo, provenance probe, `Register`, its failure. */
  lemma RegistrationTrace(env: Env, j: Job, u: string, chart: Chart, md: Metadata)
    requires Loads(env, j, u, chart, md)
    ensures var logo := FetchLogo(env, j, md.icon);
            var provenance := HasProvenanceFile(env, u);
            var p := BuildPackage(env, j, u, chart, md, logo, provenance.result.Success? && provenance.result.value);
            HandleRegisterJob(env, j).effects
            == [HttpGet(u)] + logo.effects + [HttpGet(u + ".prov"), CallRegister(p)] + RegisterTail(j.repo.repositoryID, p, env.register(p))
  {
    RegistrationEffects(env, j, u, chart, md);
  }

  /** In such a trace, with no other `Register` call in the logo step, `p` is the only package registered. */
  lemma RegisterCallIn(u: string, logo: seq<Effect>, p: Package, tail: seq<Effect>, q: Package)
    requires forall e :: e in logo ==> !e.CallRegister?
    requires forall e :: e in tail ==> !e.CallRegister?
    requires CallRegister(q) in [HttpGet(u)] + logo + [HttpGet(u + ".prov"), CallRegister(p)] + tail
    ensures q == p
  {
    var es := [HttpGet(u)] + logo + [HttpGet(u + ".prov"), CallRegister(p)] + tail;
    assert forall i :: 0 <= i < |es| && i != |logo| + 2 ==> !es[i].CallRegister? by {
      forall i | 0 <= i < |es| && i != |logo| + 2
        ensures !es[i].CallRegister?
      {
        if 0 < i <= |logo| {
          assert es[i] == logo[i - 1];
        } else if i > |logo| + 2 {
          assert es[i] == tail[i - |logo| - 3];
        }
      }
    }
  }

  /** The registration's `Register` call is the only one among its effects. */
  lemma OnlyRegisterCall(env: Env, j: Job, u: string, chart: Chart, md: Metadata, q: Package)
    requires Loads(env, j, u, chart, md)
    requires CallRegister(q) in HandleRegisterJob(env, j).effects
    ensures var logo := FetchLogo(env, j, md.icon);
            var provenance := HasProvenanceFile(env, u);
            q == BuildPackage(env, j, u, chart, md, logo, provenance.result.Success? && provenance.result.value)
  {
    RegistrationTrace(env, j, u, chart, md);
    var logo := FetchLogo(env, j, md.icon);
    var provenance := HasProvenanceFile(env, u);
    var p := BuildPackage(env, j, u, chart, md, logo, provenance.result.Success? && provenance.result.value);
    assert forall e :: e in logo.effects ==> !e.CallRegister?;
    RegisterCallIn(u, logo.effects, p, RegisterTail(j.repo.repositoryID, p, env.register(p)), q);
  }

  /** A package is registered exactly when the job's archive loads into a chart with metadata. */
  lemma RegisterCalledIffLoaded(env: Env, j: Job)
    ensures (exists p :: CallRegister(p) in HandleRegisterJob(env, j).effects) <==>
            (exists u, chart, md :: Loads(env, j, u, chart, md))
  {
    var r := HandleRegisterJob(env, j);
    if exists u, chart, md :: Loads(env, j, u, chart, md) {
      var u, chart, md :| Loads(env, j, u, chart, md);
      RegistrationEffects(env, j, u, chart, md);
      var logo := FetchLogo(env, j, md.icon);
      var provenance := HasProvenanceFile(env, u);
      var p := BuildPackage(env, j, u, chart, md, logo, provenance.result.Success? && provenance.result.value);
      assert r.effects[|[HttpGet(u)] + logo.effects| + 1] == CallRegister(p);
    } else if |j.chartVersion.urls| > 0 {
      match ResolveChartURL(env, j.repo, j.chartVersion.urls[0])
      case Failure(_) =>
      case Success(u) =>
        match LoadChart(env, u).result
        case Failure(_) =>
        case Success(chart) =>
          if chart.metadata.Some? {
            assert Loads(env, j, u, chart, chart.metadata.value);
          }
    }
  }

  /** An index URL that is not a request URI, under an unparsable repository URL: one error, returned, no registration. */
  lemma UnparsableRepositoryURL(env: Env, j: Job)
    requires |j.chartVersion.urls| > 0
    requires !env.isRequestURI(j.chartVersion.urls[0]) && env.parseURL(j.repo.url).Failure?
    ensures var r := HandleRegisterJob(env, j);
            && r.effects == [AppendError(j.repo.repositoryID, InvalidChartURL(j.chartVersion.urls[0]))]
            && r.err == Some(Collaborator(env.parseURL(j.repo.url).error))
            && RegisterCalls(r.effects) == []
  {
    var r := HandleRegisterJob(env, j);
    FilterNone(r.effects, IsRegisterCall);
  }

  /**
   * A chart that cannot be loaded (transport error, a status other than 200,
   * or an archive that does not parse) is recorded once for the job's
   * repository; nothing is registered and the handler returns no error.
   */
  lemma LoadFailureRecordedOnce(env: Env, j: Job, u: string)
    requires |j.chartVersion.urls| > 0
    requires ResolveChartURL(env, j.repo, j.chartVersion.urls[0]) == Success(u)
    requires !(env.httpGet(u).Response? && env.httpGet(u).status == StatusOK
               && env.loadArchive(env.httpGet(u).body).Success?)
    ensures HandleRegisterJob(env, j).effects
            == [HttpGet(u), AppendError(j.repo.repositoryID, LoadingChart(u, LoadChart(env, u).result.error))]
    ensures var r := HandleRegisterJob(env, j);
            && Appended(r.effects) == [AppendError(j.repo.repositoryID, LoadingChart(u, LoadChart(env, u).result.error))]
            && RegisterCalls(r.effects) == []
            && r.err.None?
            && !r.recovered
  {
    var r := HandleRegisterJob(env, j);
    var e := LoadChart(env, u).result.error;
    assert r.effects == [HttpGet(u)] + [AppendError(j.repo.repositoryID, LoadingChart(u, e))];
    FilterConcat([HttpGet(u)], [AppendError(j.repo.repositoryID, LoadingChart(u, e))], IsAppend);
    FilterNone(r.effects, IsRegisterCall);
  }

  /** The content URL of the registered package is the resolved archive URL. */
  lemma RegisteredContentURL(env: Env, j: Job, p: Package)
    requires CallRegister(p) in HandleRegisterJob(env, j).effects
    ensures |j.chartVersion.urls| > 0
    ensures ResolveChartURL(env, j.repo, j.chartVersion.urls[0]) == Success(p.contentURL)
    ensures env.isRequestURI(j.chartVersion.urls[0]) ==> p.contentURL == j.chartVersion.urls[0]
  {
    RegisterCalledIffLoaded(env, j);
    var u, chart, md :| Loads(env, j, u, chart, md);
    OnlyRegisterCall(env, j, u, chart, md, p);
  }

  /** The registered package is signed exactly when the GET of `<archive URL>.prov` answers 200. */
  lemma SignedIffProvenance(env: Env, j: Job, p: Package)
    requires CallRegister(p) in HandleRegisterJob(env, j).effects
    ensures p.signed <==> env.httpGet(p.contentURL + ".prov").Response? && env.httpGet(p.contentURL + ".prov").status == StatusOK
  {
    RegisterCalledIffLoaded(env, j);
    var u, chart, md :| Loads(env, j, u, chart, md);
    OnlyRegisterCall(env, j, u, chart, md, p);
  }

  /**
   * A provenance probe that fails in transport leaves the package unsigned,
   * appends nothing of its own and does not stop the registration: the
   * probe's only trace is its GET, and the package registered is the one
   * built with `signed` false.
   */
  lemma ProbeErrorIsUnsigned(env: Env, j: Job, u: string, chart: Chart, md: Metadata)
    requires Loads(env, j, u, chart, md)
    requires env.httpGet(u + ".prov").TransportError?
    ensures exists p :: CallRegister(p) in HandleRegisterJob(env, j).effects && !p.signed
    ensures var logo := FetchLogo(env, j, md.icon);
            var p := BuildPackage(env, j, u, chart, md, logo, false);
            HandleRegisterJob(env, j).effects
            == [HttpGet(u)] + logo.effects + [HttpGet(u + ".prov"), CallRegister(p)] + RegisterTail(j.repo.repositoryID, p, env.register(p))
  {
    RegistrationTrace(env, j, u, chart, md);
    RegisterCalledIffLoaded(env, j);
    var p :| CallRegister(p) in HandleRegisterJob(env, j).effects;
    SignedIffProvenance(env, j, p);
    RegisteredContentURL(env, j, p);
  }

  /** The readme and license come from the first chart files named exactly `README.md` and `LICENSE`. */
  lemma ReadmeAndLicense(env: Env, j: Job, u: string, chart: Chart, md: Metadata, p: Package)
    requires Loads(env, j, u, chart, md)
    requires CallRegister(p) in HandleRegisterJob(env, j).effects
    ensures GetFile(chart.files, "README.md").None? ==> p.readme == ""
    ensures GetFile(chart.files, "README.md").Some? ==> p.readme == env.text(GetFile(chart.files, "README.md").value.data)
    ensures GetFile(chart.files, "LICENSE").None? ==> p.license == ""
    ensures GetFile(chart.files, "LICENSE").Some? ==> p.license == env.detectLicense(GetFile(chart.files, "LICENSE").value.data)
  {
    OnlyRegisterCall(env, j, u, chart, md, p);
  }

  /**
   * The registered maintainers are those of the chart that have an e-mail,
   * in order; hence a worker-built package is never rejected by the
   * package manager for a missing maintainer e-mail, nor for a missing
   * repository.
   */
  lemma RegisteredMaintainersValidate(env: Env, j: Job, u: string, chart: Chart, md: Metadata, p: Package, syn: Manager.Syntax)
    requires Loads(env, j, u, chart, md)
    requires CallRegister(p) in HandleRegisterJob(env, j).effects
    ensures p.maintainers == KeepWithEmail(md.maintainers)
    ensures Manager.ValidateRegister(syn, p) != Checks.Invalid(Manager.MaintainerEmailNotProvided)
    ensures Manager.ValidateRegister(syn, p) != Checks.Invalid(Manager.RepositoryNotProvided)
  {
    OnlyRegisterCall(env, j, u, chart, md, p);
    Manager.MaintainerEmailsNeverRejected(syn, p);
    Manager.RepositoryPresentNeverRejected(syn, p);
  }

  /** The HTTP calls of a registration trace whose tail holds only appended errors. */
  lemma HttpGetsOfTrace(u: string, logo: seq<Effect>, p: Package, tail: seq<Effect>)
    requires forall e :: e in tail ==> e.AppendError?
    ensures HttpGets([HttpGet(u)] + logo + [HttpGet(u + ".prov"), CallRegister(p)] + tail)
            == [HttpGet(u)] + HttpGets(logo) + [HttpGet(u + ".prov")]
  {
    var a := [HttpGet(u)] + logo;
    assert [HttpGet(u)] + logo + [HttpGet(u + ".prov"), CallRegister(p)] + tail
           == a + ([HttpGet(u + ".prov")] + ([CallRegister(p)] + tail));
    FilterConcat(a, [HttpGet(u + ".prov")] + ([CallRegister(p)] + tail), IsHttpGet);
    FilterConcat([HttpGet(u + ".prov")], [CallRegister(p)] + tail, IsHttpGet);
    FilterNone([CallRegister(p)] + tail, IsHttpGet);
    FilterConcat([HttpGet(u)], logo, IsHttpGet);
  }

  /** The HTTP calls of a registration: the archive, the logo's when it is downloaded, the provenance probe. */
  lemma RegistrationHttpGets(env: Env, j: Job, u: string, chart: Chart, md: Metadata)
    requires Loads(env, j, u, chart, md)
    ensures HttpGets(HandleRegisterJob(env, j).effects)
            == [HttpGet(u)] + HttpGets(FetchLogo(env, j, md.icon).effects) + [HttpGet(u + ".prov")]
  {
    RegistrationTrace(env, j, u, chart, md);
    var logo := FetchLogo(env, j, md.icon);
    var provenance := HasProvenanceFile(env, u);
    var p := BuildPackage(env, j, u, chart, md, logo, provenance.result.Success? && provenance.result.value);
    HttpGetsOfTrace(u, logo.effects, p, RegisterTail(j.repo.repositoryID, p, env.register(p)));
  }

  /**
   * The logo is fetched only when the job asks for it and the chart has an
   * icon, and a `data:` icon costs no HTTP call: the only HTTP calls are
   * then the archive and the provenance probe.
   */
  lemma LogoFetchedOnlyWhenAsked(env: Env, j: Job, u: string, chart: Chart, md: Metadata)
    requires Loads(env, j, u, chart, md)
    requires !(j.getLogo && md.icon != "") || StartsWith(md.icon, "data:")
    ensures HttpGets(HandleRegisterJob(env, j).effects) == [HttpGet(u), HttpGet(u + ".prov")]
    ensures forall e :: e in HandleRegisterJob(env, j).effects && e.SaveImage? ==> j.getLogo && md.icon != ""
  {
    RegistrationHttpGets(env, j, u, chart, md);
    RegistrationEffects(env, j, u, chart, md);
    FilterNone(FetchLogo(env, j, md.icon).effects, IsHttpGet);
  }

  /**
   * A failure to get the logo image is appended for the job's repository,
   * and the package is still registered, with the icon as logo URL and an
   * empty image id.
   */
  lemma LogoFailureStillRegisters(env: Env, j: Job, u: string, chart: Chart, md: Metadata)
    requires Loads(env, j, u, chart, md)
    requires j.getLogo && md.icon != "" && GetImage(env, md.icon).result.Failure?
    ensures AppendError(j.repo.repositoryID, GettingLogo(md.icon, GetImage(env, md.icon).result.error))
            in HandleRegisterJob(env, j).effects
    ensures exists p :: CallRegister(p) in HandleRegisterJob(env, j).effects && p.logoImageID == "" && p.logoURL == md.icon
  {
    RegistrationEffects(env, j, u, chart, md);
    var r := HandleRegisterJob(env, j);
    var logo := FetchLogo(env, j, md.icon);
    var provenance := HasProvenanceFile(env, u);
    var p := BuildPackage(env, j, u, chart, md, logo, provenance.result.Success? && provenance.result.value);
    assert r.effects[|[HttpGet(u)] + logo.effects| + 1] == CallRegister(p);
    assert r.effects[|logo.effects|] == logo.effects[|logo.effects| - 1];
  }

  /**
   * A logo that is got is stored and registered: the package carries the
   * icon as logo URL and the id the image store answered, whether or not
   * the store reported an error.
   */
  lemma LogoStoredRegisters(env: Env, j: Job, u: string, chart: Chart, md: Metadata)
    requires Loads(env, j, u, chart, md)
    requires j.getLogo && md.icon != "" && GetImage(env, md.icon).result.Success?
    ensures var data := GetImage(env, md.icon).result.value;
            && SaveImage(data) in HandleRegisterJob(env, j).effects
            && exists p :: && CallRegister(p) in HandleRegisterJob(env, j).effects
                           && p.logoURL == md.icon && p.logoImageID == env.saveImage(data).imageID
  {
    RegistrationEffects(env, j, u, chart, md);
    var r := HandleRegisterJob(env, j);
    var logo := FetchLogo(env, j, md.icon);
    var provenance := HasProvenanceFile(env, u);
    var p := BuildPackage(env, j, u, chart, md, logo, provenance.result.Success? && provenance.result.value);
    assert r.effects[|[HttpGet(u)] + logo.effects| + 1] == CallRegister(p);
    assert r.effects[|logo.effects|] == logo.effects[|logo.effects| - 1];
  }

  /**
   * An effect a register job may leave: anything but an `Unregister` call,
   * and an appended error only of the four kinds it records, for repository `id`.
   */
  predicate RecordedKind(id: string, e: Effect) {
    && !e.CallUnregister?
    && (e.AppendError? ==>
          && e.repositoryID == id
          && (e.err.InvalidChartURL? || e.err.LoadingChart? || e.err.GettingLogo? || e.err.RegisteringPackage?))
  }

  /**
   * Only four kinds of errors are ever appended for a register job, all
   * for the job's repository: an unparsable repository URL, a chart that
   * does not load, a logo that cannot be got, a failed registration. In
   * particular an image-store failure or a failed provenance probe is never
   * appended.
   */
  lemma RecordedErrorKinds(env: Env, j: Job)
    ensures forall e :: e in Appended(HandleRegisterJob(env, j).effects) ==>
              && e.repositoryID == j.repo.repositoryID
              && (e.err.InvalidChartURL? || e.err.LoadingChart? || e.err.GettingLogo? || e.err.RegisteringPackage?)
    ensures UnregisterCalls(HandleRegisterJob(env, j).effects) == []
  {
    var es := HandleRegisterJob(env, j).effects;
    var id := j.repo.repositoryID;
    if |j.chartVersion.urls| > 0 && ResolveChartURL(env, j.repo, j.chartVersion.urls[0]).Success? {
      var u := ResolveChartURL(env, j.repo, j.chartVersion.urls[0]).value;
      if LoadChart(env, u).result.Success? && LoadChart(env, u).result.value.metadata.Some? {
        var chart := LoadChart(env, u).result.value;
        LoadedRecordedKinds(env, j, u, chart, chart.metadata.value);
      }
    }
    assert forall e :: e in es ==> RecordedKind(id, e);
    FilterNone(es, IsUnregisterCall);
  }

  /** The logo step appends only a failure to get the image, for the job's repository. */
  lemma LogoRecordedKinds(env: Env, j: Job, icon: string)
    ensures forall e :: e in FetchLogo(env, j, icon).effects ==> RecordedKind(j.repo.repositoryID, e)
  {
    assert forall e :: e in GetImage(env, icon).effects ==> e.HttpGet?;
  }

  /** A registration that loaded its chart appends only errors of the recorded kinds. */
  lemma LoadedRecordedKinds(env: Env, j: Job, u: string, chart: Chart, md: Metadata)
    requires Loads(env, j, u, chart, md)
    ensures forall e :: e in HandleRegisterJob(env, j).effects ==> RecordedKind(j.repo.repositoryID, e)
  {
    var id := j.repo.repositoryID;
    RegistrationTrace(env, j, u, chart, md);
    LogoRecordedKinds(env, j, md.icon);
    var logo := FetchLogo(env, j, md.icon);
    var provenance := HasProvenanceFile(env, u);
    var p := BuildPackage(env, j, u, chart, md, logo, provenance.result.Success? && provenance.result.value);
    RecordedTrace(id, u, logo.effects, p, RegisterTail(id, p, env.register(p)));
  }

  /** A registration trace whose logo step and tail keep to the recorded kinds keeps to them throughout. */
  lemma RecordedTrace(id: string, u: string, logo: seq<Effect>, p: Package, tail: seq<Effect>)
    requires forall e :: e in logo ==> RecordedKind(id, e)
    requires tail == [] || (|tail| == 1 && tail[0].AppendError? && tail[0].repositoryID == id && tail[0].err.RegisteringPackage?)
    ensures forall e :: e in [HttpGet(u)] + logo + [HttpGet(u + ".prov"), CallRegister(p)] + tail ==> RecordedKind(id, e)
  {
  }

  /**
   * A failed `Register` call is appended once for the job's repository and
   * its error is returned; a successful one appends nothing at that step.
   */
  lemma RegisterFailureRecorded(env: Env, j: Job, u: string, chart: Chart, md: Metadata, p: Package)
    requires Loads(env, j, u, chart, md)
    requires CallRegister(p) in HandleRegisterJob(env, j).effects
    ensures env.register(p).Some? ==>
              && HandleRegisterJob(env, j).err == Some(Collaborator(env.register(p).value))
              && Last(HandleRegisterJob(env, j).effects)
                 == AppendError(j.repo.repositoryID, RegisteringPackage(p.name, p.version, Collaborator(env.register(p).value)))
    ensures env.register(p).None? ==>
              HandleRegisterJob(env, j).err.None? && Last(HandleRegisterJob(env, j).effects) == CallRegister(p)
  {
    OnlyRegisterCall(env, j, u, chart, md, p);
    RegistrationEffects(env, j, u, chart, md);
  }

  /** The last element of a non-empty trace. */
  function Last(es: seq<Effect>): Effect
    requires |es| > 0
  {
    es[|es| - 1]
  }

  /**
   * An unregister job calls `Unregister` once with the name, version and
   * repository of its index entry; a failure is appended once and returned.
   */
  lemma UnregisterRecorded(env: Env, j: Job)
    ensures var r := HandleUnregisterJob(env, j);
            var p := UnregisterIdentity(j);
            && r.effects == [CallUnregister(p)] + Appended(r.effects)
            && UnregisterCalls(r.effects) == [CallUnregister(p)]
            && RegisterCalls(r.effects) == []
            && (env.unregister(p).Some? ==>
                  && Appended(r.effects) == [AppendError(j.repo.repositoryID,
                                                         UnregisteringPackage(p.name, p.version, Collaborator(env.unregister(p).value)))]
                  && r.err == Some(Collaborator(env.unregister(p).value)))
            && (env.unregister(p).None? ==> Appended(r.effects) == [] && r.err.None?)
  {
    var r := HandleUnregisterJob(env, j);
    var p := UnregisterIdentity(j);
    var tail := r.effects[1..];
    assert r.effects == [CallUnregister(p)] + tail;
    FilterConcat([CallUnregister(p)], tail, IsUnregisterCall);
    FilterConcat([CallUnregister(p)], tail, IsRegisterCall);
    FilterConcat([CallUnregister(p)], tail, IsAppend);
    FilterNone(tail, IsUnregisterCall);
    FilterNone(tail, IsRegisterCall);
  }

  /** The faults the register handler recovers from end the job with no effect after them and no error. */
  lemma FaultsRecovered(env: Env, j: Job)
    ensures |j.chartVersion.urls| == 0 ==> HandleRegisterJob(env, j) == HandlerOutcome([], None, true)
    ensures forall u, chart ::
              && |j.chartVersion.urls| > 0
              && ResolveChartURL(env, j.repo, j.chartVersion.urls[0]) == Success(u)
              && LoadChart(env, u).result == Success(chart)
              && chart.metadata.None?
              ==> HandleRegisterJob(env, j) == HandlerOutcome([HttpGet(u)], None, true)
  {
  }
}
