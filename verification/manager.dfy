/**
 * Input validation and error propagation of the package manager
 * (`internal/pkg`), as pinned down by its table-driven tests: every
 * operation first checks its input in a fixed order and reports the first
 * failing check as an invalid-input error without touching the database;
 * a valid input costs exactly one database call whose error is returned
 * unchanged.
 */
module Manager {
  import opened Wrappers
  import opened Hub
  import opened Checks

  /**
   * Syntax checks the manager delegates to libraries: lenient and strict
   * semantic versions, UUIDs, absolute content URLs and the known operator
   * capability levels. They stay abstract.
   */
  datatype Syntax = Syntax(
    isSemver: string -> bool,
    isStrictSemver: string -> bool,
    isUUID: string -> bool,
    isContentURL: string -> bool,
    isCapability: string -> bool
  )

  /** Why an input was rejected; `Message` gives the text the error carries. */
  datatype Reason =
    | NameNotProvided
    | VersionNotProvided
    | InvalidVersion
    | InvalidContentURL
    | RepositoryNotProvided
    | RepositoryIDNotProvided
    | InvalidRepositoryID
    | MaintainerEmailNotProvided
    | ChannelNameNotProvided
    | ChannelVersionNotProvided
    | InvalidChannelVersion
    | InvalidCapabilities
    | InvalidStrictVersion
    | InvalidLimit
    | InvalidOffset
    | InvalidUserAlias
    | InvalidOrganizationName
    | InvalidRepositoryName
    | PackageIDNotProvided
    | InvalidPackageID
    | PackageNameNotProvided

  function Message(r: Reason): string {
    match r
    case NameNotProvided => "name not provided"
    case VersionNotProvided => "version not provided"
    case InvalidVersion => "invalid version (semver expected)"
    case InvalidContentURL => "invalid content url"
    case RepositoryNotProvided => "repository not provided"
    case RepositoryIDNotProvided => "repository id not provided"
    case InvalidRepositoryID => "invalid repository id"
    case MaintainerEmailNotProvided => "maintainer email not provided"
    case ChannelNameNotProvided => "channel name not provided"
    case ChannelVersionNotProvided => "channel version not provided"
    case InvalidChannelVersion => "invalid channel version (semver expected)"
    case InvalidCapabilities => "invalid capabilities"
    case InvalidStrictVersion => "invalid version (semantic version expected)"
    case InvalidLimit => "invalid limit (0 < l <= 50)"
    case InvalidOffset => "invalid offset (o >= 0)"
    case InvalidUserAlias => "invalid user alias"
    case InvalidOrganizationName => "invalid organization name"
    case InvalidRepositoryName => "invalid repository name"
    case PackageIDNotProvided => "package id not provided"
    case InvalidPackageID => "invalid package id"
    case PackageNameNotProvided => "package name not provided"
  }

  /** The manager's errors: a wrapped invalid-input error, or the database's own error. */
  datatype ManagerError = InvalidInput(reason: Reason) | Database(cause: Cause) | Decoding(cause: Cause)

  /** What an operation that ends in one database `Exec` did. */
  datatype ExecOutcome = ExecOutcome(dbCalls: nat, err: Option<ManagerError>)

  /** What an operation that ends in one database `QueryRow` did. */
  datatype QueryOutcome<T> = QueryOutcome(dbCalls: nat, data: Option<T>, err: Option<ManagerError>)

  /** An operation that may panic before validating its input. */
  datatype Call<T> = Returned(value: T) | Panicked

  /** The database error a successful validation hands back, unchanged. */
  function ExecError(exec: Option<Cause>): Option<ManagerError> {
    if exec.Some? then Some(Database(exec.value)) else None
  }

  /** Runs the database `Exec` only when the checks pass. */
  function Guarded(v: Verdict<Reason>, exec: Option<Cause>): (r: ExecOutcome)
    ensures v.Invalid? ==> r == ExecOutcome(0, Some(InvalidInput(v.reason)))
    ensures v.Valid? ==> r == ExecOutcome(1, ExecError(exec))
  {
    match v
    case Invalid(reason) => ExecOutcome(0, Some(InvalidInput(reason)))
    case Valid => ExecOutcome(1, ExecError(exec))
  }

  /** Runs the database `QueryRow` only when the checks pass; no data comes with an error. */
  function GuardedQuery<T>(v: Verdict<Reason>, query: Result<T, Cause>): (r: QueryOutcome<T>)
    ensures v.Invalid? ==> r == QueryOutcome(0, None, Some(InvalidInput(v.reason)))
    ensures v.Valid? && query.Success? ==> r == QueryOutcome(1, Some(query.value), None)
    ensures v.Valid? && query.Failure? ==> r == QueryOutcome(1, None, Some(Database(query.error)))
  {
    match v
    case Invalid(reason) => QueryOutcome(0, None, Some(InvalidInput(reason)))
    case Valid =>
      match query
      case Success(data) => QueryOutcome(1, Some(data), None)
      case Failure(cause) => QueryOutcome(1, None, Some(Database(cause)))
  }

  /** One check per list entry, each failing on the empty string. */
  function NonEmptyChecks(xs: seq<string>, reason: Reason): (cs: seq<Check<Reason>>)
    ensures |cs| == |xs|
    ensures forall i :: 0 <= i < |xs| ==> cs[i] == Check(xs[i] != "", reason)
  {
    seq(|xs|, i requires 0 <= i < |xs| => Check(xs[i] != "", reason))
  }

  lemma NonEmptyChecksPass(xs: seq<string>, reason: Reason)
    ensures AllPass(NonEmptyChecks(xs, reason)) <==> "" !in xs
  {
    var cs := NonEmptyChecks(xs, reason);
    if "" in xs {
      var i :| 0 <= i < |xs| && xs[i] == "";
      assert !cs[i].passes;
    }
  }

  // ---------------------------------------------------------------------------
  // Register

  /** Each maintainer must carry an e-mail address. */
  function MaintainerChecks(ms: seq<Maintainer>): (cs: seq<Check<Reason>>)
    ensures |cs| == |ms|
    ensures forall i :: 0 <= i < |ms| ==> cs[i] == Check(ms[i].email != "", MaintainerEmailNotProvided)
  {
    seq(|ms|, i requires 0 <= i < |ms| => Check(ms[i].email != "", MaintainerEmailNotProvided))
  }

  /** The three checks of one channel, in order. */
  function ChannelCheck(syn: Syntax, c: Channel): seq<Check<Reason>> {
    [ Check(c.name != "", ChannelNameNotProvided),
      Check(c.version != "", ChannelVersionNotProvided),
      Check(syn.isSemver(c.version), InvalidChannelVersion) ]
  }

  /** The checks of every channel, channel by channel. */
  function ChannelChecks(syn: Syntax, cs: seq<Channel>): seq<Check<Reason>> {
    if |cs| == 0 then [] else ChannelCheck(syn, cs[0]) + ChannelChecks(syn, cs[1..])
  }

  /** The checks `Register` makes of the package's own fields and its repository, in order. */
  function FieldChecks(syn: Syntax, p: Package): (cs: seq<Check<Reason>>)
    ensures |cs| == 7
  {
    var repositoryID := if p.repository.Some? then p.repository.value.repositoryID else "";
    [ Check(p.name != "", NameNotProvided),
      Check(p.version != "", VersionNotProvided),
      Check(syn.isSemver(p.version), InvalidVersion),
      Check(p.contentURL == "" || syn.isContentURL(p.contentURL), InvalidContentURL),
      Check(p.repository.Some?, RepositoryNotProvided),
      Check(repositoryID != "", RepositoryIDNotProvided),
      Check(syn.isUUID(repositoryID), InvalidRepositoryID) ]
  }

  /** The check `Register` makes of the capabilities, last. */
  function CapabilitiesCheck(syn: Syntax, p: Package): seq<Check<Reason>> {
    [Check(p.capabilities == "" || syn.isCapability(p.capabilities), InvalidCapabilities)]
  }

  /** The checks `Register` makes, in the order it makes them. */
  function RegisterChecks(syn: Syntax, p: Package): seq<Check<Reason>> {
    FieldChecks(syn, p) + MaintainerChecks(p.maintainers) + ChannelChecks(syn, p.channels) + CapabilitiesCheck(syn, p)
  }

  /** The verdict of `Register`'s validation: the first failing check, in order. */
  function ValidateRegister(syn: Syntax, p: Package): (v: Verdict<Reason>)
    ensures v.Invalid? ==> exists i :: FirstFailingAt(RegisterChecks(syn, p), i)
                                       && RegisterChecks(syn, p)[i].reason == v.reason
  {
    FirstFailure(RegisterChecks(syn, p))
  }

  /** What a package must satisfy to be registered, stated check by check without order. */
  predicate ValidForRegistration(syn: Syntax, p: Package) {
    && p.name != ""
    && p.version != ""
    && syn.isSemver(p.version)
    && (p.contentURL == "" || syn.isContentURL(p.contentURL))
    && p.repository.Some?
    && p.repository.value.repositoryID != ""
    && syn.isUUID(p.repository.value.repositoryID)
    && (forall m :: m in p.maintainers ==> m.email != "")
    && (forall c :: c in p.channels ==> c.name != "" && c.version != "" && syn.isSemver(c.version))
    && (p.capabilities == "" || syn.isCapability(p.capabilities))
  }

  lemma {:induction false} ChannelChecksPass(syn: Syntax, cs: seq<Channel>)
    ensures AllPass(ChannelChecks(syn, cs)) <==>
            forall c :: c in cs ==> c.name != "" && c.version != "" && syn.isSemver(c.version)
  {
    if |cs| > 0 {
      ChannelChecksPass(syn, cs[1..]);
      var first := ChannelCheck(syn, cs[0]);
      AllPassConcat(first, ChannelChecks(syn, cs[1..]));
      assert AllPass(first) <==> first[0].passes && first[1].passes && first[2].passes;
      assert cs == [cs[0]] + cs[1..];
      assert forall c :: c in cs <==> c == cs[0] || c in cs[1..];
    }
  }

  lemma {:induction false} ChannelCheckReasons(syn: Syntax, cs: seq<Channel>)
    ensures forall c :: c in ChannelChecks(syn, cs) ==>
              c.reason in {ChannelNameNotProvided, ChannelVersionNotProvided, InvalidChannelVersion}
  {
    if |cs| > 0 {
      ChannelCheckReasons(syn, cs[1..]);
    }
  }

  lemma MaintainerChecksPass(ms: seq<Maintainer>)
    ensures AllPass(MaintainerChecks(ms)) <==> forall m :: m in ms ==> m.email != ""
  {
    var cs := MaintainerChecks(ms);
    if !forall m :: m in ms ==> m.email != "" {
      var m :| m in ms && m.email == "";
      var i :| 0 <= i < |ms| && ms[i] == m;
      assert !cs[i].passes;
    }
  }

  /** The field checks all pass exactly when the fields and the repository are well-formed. */
  lemma FieldChecksPass(syn: Syntax, p: Package)
    ensures AllPass(FieldChecks(syn, p)) <==>
      && p.name != "" && p.version != "" && syn.isSemver(p.version)
      && (p.contentURL == "" || syn.isContentURL(p.contentURL))
      && p.repository.Some? && p.repository.value.repositoryID != ""
      && syn.isUUID(p.repository.value.repositoryID)
  {
    var head := FieldChecks(syn, p);
    assert AllPass(head) <==> head[0].passes && head[1].passes && head[2].passes && head[3].passes
                              && head[4].passes && head[5].passes && head[6].passes;
  }

  /** Validation accepts a package exactly when every check holds of it. */
  lemma RegisterAcceptsExactlyValid(syn: Syntax, p: Package)
    ensures ValidateRegister(syn, p).Valid? <==> ValidForRegistration(syn, p)
  {
    var head, ms, chs, tail := FieldChecks(syn, p), MaintainerChecks(p.maintainers), ChannelChecks(syn, p.channels), CapabilitiesCheck(syn, p);
    AllPassConcat(head + ms + chs, tail);
    AllPassConcat(head + ms, chs);
    AllPassConcat(head, ms);
    FieldChecksPass(syn, p);
    MaintainerChecksPass(p.maintainers);
    ChannelChecksPass(syn, p.channels);
    assert AllPass(tail) <==> tail[0].passes;
  }


  /**
   * `Register`: a rejected package reaches no database call; an accepted
   * one costs exactly one `Exec`, whose error is returned unchanged.
   */
  function Register(syn: Syntax, p: Package, exec: Option<Cause>): (r: ExecOutcome)
    ensures r.dbCalls == 1 <==> ValidForRegistration(syn, p)
    ensures !ValidForRegistration(syn, p) ==> r.dbCalls == 0 && r.err.Some? && r.err.value.InvalidInput?
    ensures ValidForRegistration(syn, p) ==> r.err == ExecError(exec)
  {
    RegisterAcceptsExactlyValid(syn, p);
    Guarded(ValidateRegister(syn, p), exec)
  }

  /**
   * No package whose maintainers all have an e-mail address is rejected
   * for a missing maintainer e-mail.
   */
  lemma MaintainerEmailsNeverRejected(syn: Syntax, p: Package)
    requires forall m :: m in p.maintainers ==> m.email != ""
    ensures ValidateRegister(syn, p) != Invalid(MaintainerEmailNotProvided)
  {
    var cs := RegisterChecks(syn, p);
    ChannelCheckReasons(syn, p.channels);
    forall c | c in cs && c.reason == MaintainerEmailNotProvided
      ensures c.passes
    {
      if c in MaintainerChecks(p.maintainers) {
        var i :| 0 <= i < |p.maintainers| && MaintainerChecks(p.maintainers)[i] == c;
        assert p.maintainers[i] in p.maintainers;
      }
    }
    NeverReported(cs, MaintainerEmailNotProvided);
  }

  /** Past the seven checks of the package's own fields, only maintainer, channel and capability checks follow. */
  lemma RegisterChecksAfterFields(syn: Syntax, p: Package)
    ensures |RegisterChecks(syn, p)| >= 8
    ensures forall i :: 7 <= i < |RegisterChecks(syn, p)| ==>
              RegisterChecks(syn, p)[i].reason in {MaintainerEmailNotProvided, ChannelNameNotProvided,
                                                   ChannelVersionNotProvided, InvalidChannelVersion, InvalidCapabilities}
  {
    var cs := RegisterChecks(syn, p);
    var ms := MaintainerChecks(p.maintainers);
    var chs := ChannelChecks(syn, p.channels);
    ChannelCheckReasons(syn, p.channels);
    assert cs == FieldChecks(syn, p) + ms + chs + CapabilitiesCheck(syn, p);
    forall i | 7 <= i < |cs|
      ensures cs[i].reason in {MaintainerEmailNotProvided, ChannelNameNotProvided,
                               ChannelVersionNotProvided, InvalidChannelVersion, InvalidCapabilities}
    {
      if i < 7 + |ms| {
        assert cs[i] == ms[i - 7];
      } else if i < 7 + |ms| + |chs| {
        assert cs[i] == chs[i - 7 - |ms|];
      }
    }
  }

  /** No package that names a repository is rejected for a missing repository. */
  lemma RepositoryPresentNeverRejected(syn: Syntax, p: Package)
    requires p.repository.Some?
    ensures ValidateRegister(syn, p) != Invalid(RepositoryNotProvided)
  {
    var cs := RegisterChecks(syn, p);
    RegisterChecksAfterFields(syn, p);
    assert forall i :: 0 <= i < |cs| && cs[i].reason == RepositoryNotProvided ==> cs[i].passes;
    NeverReported(cs, RepositoryNotProvided);
  }

  // ---------------------------------------------------------------------------
  // Unregister

  function UnregisterChecks(syn: Syntax, p: Package): seq<Check<Reason>> {
    [ Check(p.name != "", NameNotProvided),
      Check(p.version != "", VersionNotProvided),
      Check(syn.isStrictSemver(p.version), InvalidStrictVersion) ]
  }

  predicate ValidForUnregistration(syn: Syntax, p: Package) {
    p.name != "" && p.version != "" && syn.isStrictSemver(p.version)
  }

  /** `Unregister`: name, then version, then a strict semantic version; then one `Exec`. */
  function Unregister(syn: Syntax, p: Package, exec: Option<Cause>): (r: ExecOutcome)
    ensures r.dbCalls == 1 <==> ValidForUnregistration(syn, p)
    ensures p.name == "" ==> r.err == Some(InvalidInput(NameNotProvided))
    ensures p.name != "" && p.version == "" ==> r.err == Some(InvalidInput(VersionNotProvided))
    ensures p.name != "" && p.version != "" && !syn.isStrictSemver(p.version) ==>
              r.err == Some(InvalidInput(InvalidStrictVersion))
    ensures ValidForUnregistration(syn, p) ==> r.err == ExecError(exec)
  {
    var cs := UnregisterChecks(syn, p);
    assert p.name == "" ==> FirstFailure(cs) == Invalid(NameNotProvided) by {
      if p.name == "" { FirstFailureIsFirstFailing(cs, 0); }
    }
    assert p.name != "" && p.version == "" ==> FirstFailure(cs) == Invalid(VersionNotProvided) by {
      if p.name != "" && p.version == "" { FirstFailureIsFirstFailing(cs, 1); }
    }
    assert p.name != "" && p.version != "" && !syn.isStrictSemver(p.version) ==>
           FirstFailure(cs) == Invalid(InvalidStrictVersion) by {
      if p.name != "" && p.version != "" && !syn.isStrictSemver(p.version) { FirstFailureIsFirstFailing(cs, 2); }
    }
    Guarded(FirstFailure(cs), exec)
  }

  // ---------------------------------------------------------------------------
  // SearchJSON

  /** The filters of a package search that the manager validates. */
  datatype SearchInput = SearchInput(
    limit: int := 0,
    offset: int := 0,
    tsQueryWeb: string := "",
    users: seq<string> := [],
    orgs: seq<string> := [],
    repositories: seq<string> := []
  )

  function SearchChecks(input: SearchInput): seq<Check<Reason>> {
    [ Check(0 < input.limit <= 50, InvalidLimit),
      Check(input.offset >= 0, InvalidOffset) ]
    + NonEmptyChecks(input.users, InvalidUserAlias)
    + NonEmptyChecks(input.orgs, InvalidOrganizationName)
    + NonEmptyChecks(input.repositories, InvalidRepositoryName)
  }

  predicate ValidSearch(input: SearchInput) {
    && 0 < input.limit <= 50
    && input.offset >= 0
    && "" !in input.users
    && "" !in input.orgs
    && "" !in input.repositories
  }

  lemma SearchAcceptsExactlyValid(input: SearchInput)
    ensures FirstFailure(SearchChecks(input)).Valid? <==> ValidSearch(input)
  {
    var head := [ Check(0 < input.limit <= 50, InvalidLimit), Check(input.offset >= 0, InvalidOffset) ];
    var us := NonEmptyChecks(input.users, InvalidUserAlias);
    var os := NonEmptyChecks(input.orgs, InvalidOrganizationName);
    var rs := NonEmptyChecks(input.repositories, InvalidRepositoryName);
    assert SearchChecks(input) == head + us + os + rs;
    AllPassConcat(head + us + os, rs);
    AllPassConcat(head + us, os);
    AllPassConcat(head, us);
    NonEmptyChecksPass(input.users, InvalidUserAlias);
    NonEmptyChecksPass(input.orgs, InvalidOrganizationName);
    NonEmptyChecksPass(input.repositories, InvalidRepositoryName);
    assert AllPass(head) <==> head[0].passes && head[1].passes;
  }

  /**
   * `SearchJSON`: an invalid search is rejected with no data and no query;
   * a valid one is one `QueryRow` whose data or error is returned as is.
   */
  function SearchJSON(input: SearchInput, query: Result<Bytes, Cause>): (r: QueryOutcome<Bytes>)
    ensures r.dbCalls == 1 <==> ValidSearch(input)
    ensures !ValidSearch(input) ==> r.data.None? && r.err.Some? && r.err.value.InvalidInput?
    ensures !(0 < input.limit <= 50) ==> r.err == Some(InvalidInput(InvalidLimit))
    ensures 0 < input.limit <= 50 && input.offset < 0 ==> r.err == Some(InvalidInput(InvalidOffset))
    ensures ValidSearch(input) && query.Success? ==> r.data == Some(query.value) && r.err.None?
    ensures ValidSearch(input) && query.Failure? ==> r.data.None? && r.err == Some(Database(query.error))
  {
    var cs := SearchChecks(input);
    SearchAcceptsExactlyValid(input);
    assert !(0 < input.limit <= 50) ==> FirstFailure(cs) == Invalid(InvalidLimit) by {
      if !(0 < input.limit <= 50) { FirstFailureIsFirstFailing(cs, 0); }
    }
    assert 0 < input.limit <= 50 && input.offset < 0 ==> FirstFailure(cs) == Invalid(InvalidOffset) by {
      if 0 < input.limit <= 50 && input.offset < 0 { FirstFailureIsFirstFailing(cs, 1); }
    }
    GuardedQuery(FirstFailure(cs), query)
  }

  // ---------------------------------------------------------------------------
  // GetStarsJSON and ToggleStar

  function PackageIDChecks(syn: Syntax, packageID: string): seq<Check<Reason>> {
    [ Check(packageID != "", PackageIDNotProvided), Check(syn.isUUID(packageID), InvalidPackageID) ]
  }

  /** A package id must be present and then be a UUID. */
  function ValidatePackageID(syn: Syntax, packageID: string): (v: Verdict<Reason>)
    ensures packageID == "" ==> v == Invalid(PackageIDNotProvided)
    ensures packageID != "" && !syn.isUUID(packageID) ==> v == Invalid(InvalidPackageID)
    ensures v.Valid? <==> packageID != "" && syn.isUUID(packageID)
  {
    var cs := PackageIDChecks(syn, packageID);
    assert packageID == "" ==> FirstFailure(cs) == Invalid(PackageIDNotProvided) by {
      if packageID == "" { FirstFailureIsFirstFailing(cs, 0); }
    }
    assert packageID != "" && !syn.isUUID(packageID) ==> FirstFailure(cs) == Invalid(InvalidPackageID) by {
      if packageID != "" && !syn.isUUID(packageID) { FirstFailureIsFirstFailing(cs, 1); }
    }
    FirstFailure(cs)
  }

  /** `GetStarsJSON`: package id checks, then one `QueryRow`. */
  function GetStarsJSON(syn: Syntax, packageID: string, query: Result<Bytes, Cause>): (r: QueryOutcome<Bytes>)
    ensures packageID == "" ==> r == QueryOutcome(0, None, Some(InvalidInput(PackageIDNotProvided)))
    ensures packageID != "" && !syn.isUUID(packageID) ==> r == QueryOutcome(0, None, Some(InvalidInput(InvalidPackageID)))
    ensures packageID != "" && syn.isUUID(packageID) && query.Success? ==> r == QueryOutcome(1, Some(query.value), None)
    ensures packageID != "" && syn.isUUID(packageID) && query.Failure? ==> r == QueryOutcome(1, None, Some(Database(query.error)))
  {
    GuardedQuery(ValidatePackageID(syn, packageID), query)
  }

  /**
   * `ToggleStar`: the caller's user id is taken from the request context
   * before anything else (a missing one panics, whatever the package id);
   * then the package id checks; then one `Exec`.
   */
  function ToggleStar(syn: Syntax, userID: Option<string>, packageID: string, exec: Option<Cause>): (r: Call<ExecOutcome>)
    ensures userID.None? <==> r.Panicked?
    ensures userID.Some? && packageID == "" ==> r == Returned(ExecOutcome(0, Some(InvalidInput(PackageIDNotProvided))))
    ensures userID.Some? && packageID != "" && !syn.isUUID(packageID) ==>
              r == Returned(ExecOutcome(0, Some(InvalidInput(InvalidPackageID))))
    ensures userID.Some? && packageID != "" && syn.isUUID(packageID) ==> r == Returned(ExecOutcome(1, ExecError(exec)))
  {
    if userID.None? then Panicked
    else Returned(Guarded(ValidatePackageID(syn, packageID), exec))
  }

  // ---------------------------------------------------------------------------
  // Get and GetJSON

  /** The lookup key of a package page. */
  datatype GetPackageInput = GetPackageInput(packageName: string := "", version: string := "")

  function GetChecks(input: GetPackageInput): seq<Check<Reason>> {
    [Check(input.packageName != "", PackageNameNotProvided)]
  }

  /** `GetJSON`: an input without a package name is rejected before any query. */
  function GetJSON(input: GetPackageInput, query: Result<Bytes, Cause>): (r: QueryOutcome<Bytes>)
    ensures input.packageName == "" ==> r.dbCalls == 0 && r.data.None? && r.err == Some(InvalidInput(PackageNameNotProvided))
    ensures input.packageName != "" ==> r.dbCalls == 1
    ensures input.packageName != "" && query.Success? ==> r.data == Some(query.value) && r.err.None?
    ensures input.packageName != "" && query.Failure? ==> r.data.None? && r.err == Some(Database(query.error))
  {
    assert input.packageName == "" ==> FirstFailure(GetChecks(input)) == Invalid(PackageNameNotProvided) by {
      if input.packageName == "" { FirstFailureIsFirstFailing(GetChecks(input), 0); }
    }
    GuardedQuery(FirstFailure(GetChecks(input)), query)
  }

  /**
   * `Get`: `GetJSON` followed by decoding the returned document; `decode`
   * stands for the JSON decoder.
   */
  function Get(input: GetPackageInput, query: Result<Bytes, Cause>, decode: Bytes -> Result<Package, Cause>): (r: QueryOutcome<Package>)
    ensures input.packageName == "" ==> r.dbCalls == 0 && r.data.None? && r.err == Some(InvalidInput(PackageNameNotProvided))
    ensures input.packageName != "" ==> r.dbCalls == 1
    ensures query.Failure? ==> r.data.None? && r.err.Some?
    ensures input.packageName != "" && query.Failure? ==> r.err == Some(Database(query.error))
    ensures r.data.Some? ==> query.Success? && decode(query.value) == Success(r.data.value)
    ensures input.packageName != "" && query.Success? && decode(query.value).Success? ==>
              r == QueryOutcome(1, Some(decode(query.value).value), None)
    ensures input.packageName != "" && query.Success? && decode(query.value).Failure? ==>
              r == QueryOutcome(1, None, Some(Decoding(decode(query.value).error)))
  {
    var json := GetJSON(input, query);
    if json.err.Some? then QueryOutcome(json.dbCalls, None, json.err)
    else
      match decode(json.data.value)
      case Success(p) => QueryOutcome(json.dbCalls, Some(p), None)
      case Failure(cause) => QueryOutcome(json.dbCalls, None, Some(Decoding(cause)))
  }
}
