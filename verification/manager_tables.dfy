/**
 * The package manager's test tables (`internal/pkg/manager_test.go`) as
 * lemmas: each invalid input is rejected for the reason the table names,
 * and each valid input reaches the database exactly once.
 */
module ManagerTables {
  import opened Wrappers
  import opened Hub
  import opened Checks
  import opened Manager

  const RepoID := "00000000-0000-0000-0000-000000000001"

  /** What the tests take for granted about the abstract syntax checks. */
  predicate AgreesWithTests(syn: Syntax) {
    && !syn.isSemver("invalid") && syn.isSemver("1.0.0")
    && !syn.isContentURL("invalid")
    && !syn.isUUID("invalid") && !syn.isUUID("pkgID") && syn.isUUID(RepoID)
    && !syn.isStrictSemver("1.0") && syn.isStrictSemver("1.0.0")
    && !syn.isCapability("invalid")
  }

  const Repo := Some(Repository(RepoID, "", ""))

  /** The package of the successful registration test. */
  const ValidPackage := Package(
    name := "package1",
    description := "description",
    homeURL := "home_url",
    logoImageID := "image_id",
    keywords := ["kw1", "kw2"],
    readme := "readme-version-1.0.0",
    version := "1.0.0",
    appVersion := "12.1.0",
    digest := "digest-package1-1.0.0",
    maintainers := [Maintainer("name1", "email1"), Maintainer("name2", "email2")],
    repository := Repo
  )

  /** Proves that `Register` rejects `p` for the reason of check number `i`. */
  lemma RejectedAt(syn: Syntax, p: Package, i: nat)
    requires FirstFailingAt(RegisterChecks(syn, p), i)
    ensures Register(syn, p, None) == ExecOutcome(0, Some(InvalidInput(RegisterChecks(syn, p)[i].reason)))
  {
    FirstFailureIsFirstFailing(RegisterChecks(syn, p), i);
  }

  /** The checks of a package with one channel and no maintainers end with that channel's three checks. */
  lemma OneChannelChecks(syn: Syntax, p: Package)
    requires p.maintainers == [] && |p.channels| == 1
    ensures |RegisterChecks(syn, p)| == 11
    ensures RegisterChecks(syn, p)[7..10] == ChannelCheck(syn, p.channels[0])
  {
    assert p.channels[1..] == [];
    assert ChannelChecks(syn, p.channels) == ChannelCheck(syn, p.channels[0]);
  }

  /** A package with no name: the first check fails. */
  lemma RowNoName(syn: Syntax)
    ensures Register(syn, Package(), None).err == Some(InvalidInput(NameNotProvided))
  {
    RejectedAt(syn, Package(), 0);
  }

  /** A package with a name and no version. */
  lemma RowNoVersion(syn: Syntax)
    ensures Register(syn, Package(name := "package1"), None).err == Some(InvalidInput(VersionNotProvided))
  {
    RejectedAt(syn, Package(name := "package1"), 1);
  }

  /** A package whose version is not semantic. */
  lemma RowInvalidVersion(syn: Syntax)
    requires AgreesWithTests(syn)
    ensures Register(syn, Package(name := "package1", version := "invalid"), None).err
            == Some(InvalidInput(InvalidVersion))
  {
    RejectedAt(syn, Package(name := "package1", version := "invalid"), 2);
  }

  /** A package whose content URL is malformed. */
  lemma RowInvalidContentURL(syn: Syntax)
    requires AgreesWithTests(syn)
    ensures Register(syn, Package(name := "package1", version := "1.0.0", contentURL := "invalid"), None).err
            == Some(InvalidInput(InvalidContentURL))
  {
    RejectedAt(syn, Package(name := "package1", version := "1.0.0", contentURL := "invalid"), 3);
  }

  /** Rows one to four of the invalid-input table of `TestRegister`: the package's own fields. */
  lemma RegisterTableFields(syn: Syntax)
    requires AgreesWithTests(syn)
    ensures Register(syn, Package(), None).err == Some(InvalidInput(NameNotProvided))
    ensures Register(syn, Package(name := "package1"), None).err == Some(InvalidInput(VersionNotProvided))
    ensures Register(syn, Package(name := "package1", version := "invalid"), None).err
            == Some(InvalidInput(InvalidVersion))
    ensures Register(syn, Package(name := "package1", version := "1.0.0", contentURL := "invalid"), None).err
            == Some(InvalidInput(InvalidContentURL))
  {
    RowNoName(syn);
    RowNoVersion(syn);
    RowInvalidVersion(syn);
    RowInvalidContentURL(syn);
  }

  /** A package without a repository. */
  lemma RowNoRepository(syn: Syntax)
    requires AgreesWithTests(syn)
    ensures Register(syn, Package(name := "package1", version := "1.0.0"), None).err
            == Some(InvalidInput(RepositoryNotProvided))
  {
    RejectedAt(syn, Package(name := "package1", version := "1.0.0"), 4);
  }

  /** A package whose repository has no identifier. */
  lemma RowNoRepositoryID(syn: Syntax)
    requires AgreesWithTests(syn)
    ensures Register(syn, Package(name := "package1", version := "1.0.0", repository := Some(Repository("", "", ""))), None).err
            == Some(InvalidInput(RepositoryIDNotProvided))
  {
    RejectedAt(syn, Package(name := "package1", version := "1.0.0", repository := Some(Repository("", "", ""))), 5);
  }

  /** A package whose repository identifier is not a UUID. */
  lemma RowInvalidRepositoryID(syn: Syntax)
    requires AgreesWithTests(syn)
    ensures Register(syn, Package(name := "package1", version := "1.0.0", repository := Some(Repository("invalid", "", ""))), None).err
            == Some(InvalidInput(InvalidRepositoryID))
  {
    RejectedAt(syn, Package(name := "package1", version := "1.0.0", repository := Some(Repository("invalid", "", ""))), 6);
  }

  /** A package with a maintainer without an email address. */
  lemma RowNoMaintainerEmail(syn: Syntax)
    requires AgreesWithTests(syn)
    ensures Register(syn, Package(name := "package1", version := "1.0.0", repository := Repo,
                                  maintainers := [Maintainer("name", "")]), None).err
            == Some(InvalidInput(MaintainerEmailNotProvided))
  {
    RejectedAt(syn, Package(name := "package1", version := "1.0.0", repository := Repo,
                            maintainers := [Maintainer("name", "")]), 7);
  }

  /** Rows five to eight of the table: the repository, then the maintainers. */
  lemma RegisterTableRepository(syn: Syntax)
    requires AgreesWithTests(syn)
    ensures Register(syn, Package(name := "package1", version := "1.0.0"), None).err
            == Some(InvalidInput(RepositoryNotProvided))
    ensures Register(syn, Package(name := "package1", version := "1.0.0", repository := Some(Repository("", "", ""))), None).err
            == Some(InvalidInput(RepositoryIDNotProvided))
    ensures Register(syn, Package(name := "package1", version := "1.0.0", repository := Some(Repository("invalid", "", ""))), None).err
            == Some(InvalidInput(InvalidRepositoryID))
    ensures Register(syn, Package(name := "package1", version := "1.0.0", repository := Repo,
                                  maintainers := [Maintainer("name", "")]), None).err
            == Some(InvalidInput(MaintainerEmailNotProvided))
  {
    RowNoRepository(syn);
    RowNoRepositoryID(syn);
    RowInvalidRepositoryID(syn);
    RowNoMaintainerEmail(syn);
  }

  /** A channel without a name. */
  lemma RowNoChannelName(syn: Syntax)
    requires AgreesWithTests(syn)
    ensures Register(syn, Package(name := "package1", version := "1.0.0", repository := Repo,
                                  channels := [Channel("", "1.0.0")]), None).err
            == Some(InvalidInput(ChannelNameNotProvided))
  {
    OneChannelChecks(syn, Package(name := "package1", version := "1.0.0", repository := Repo,
                            channels := [Channel("", "1.0.0")]));
    RejectedAt(syn, Package(name := "package1", version := "1.0.0", repository := Repo,
                            channels := [Channel("", "1.0.0")]), 7);
  }

  /** A channel without a version. */
  lemma RowNoChannelVersion(syn: Syntax)
    requires AgreesWithTests(syn)
    ensures Register(syn, Package(name := "package1", version := "1.0.0", repository := Repo,
                                  channels := [Channel("stable", "")]), None).err
            == Some(InvalidInput(ChannelVersionNotProvided))
  {
    OneChannelChecks(syn, Package(name := "package1", version := "1.0.0", repository := Repo,
                            channels := [Channel("stable", "")]));
    RejectedAt(syn, Package(name := "package1", version := "1.0.0", repository := Repo,
                            channels := [Channel("stable", "")]), 8);
  }

  /** A channel whose version is not semantic. */
  lemma RowInvalidChannelVersion(syn: Syntax)
    requires AgreesWithTests(syn)
    ensures Register(syn, Package(name := "package1", version := "1.0.0", repository := Repo,
                                  channels := [Channel("stable", "invalid")]), None).err
            == Some(InvalidInput(InvalidChannelVersion))
  {
    OneChannelChecks(syn, Package(name := "package1", version := "1.0.0", repository := Repo,
                            channels := [Channel("stable", "invalid")]));
    RejectedAt(syn, Package(name := "package1", version := "1.0.0", repository := Repo,
                            channels := [Channel("stable", "invalid")]), 9);
  }

  /** Well-formed channels and unknown capabilities. */
  lemma RowInvalidCapabilities(syn: Syntax)
    requires AgreesWithTests(syn)
    ensures Register(syn, Package(name := "package1", version := "1.0.0", repository := Repo,
                                  channels := [Channel("stable", "1.0.0")], capabilities := "invalid"), None).err
            == Some(InvalidInput(InvalidCapabilities))
  {
    OneChannelChecks(syn, Package(name := "package1", version := "1.0.0", repository := Repo,
                            channels := [Channel("stable", "1.0.0")], capabilities := "invalid"));
    RejectedAt(syn, Package(name := "package1", version := "1.0.0", repository := Repo,
                            channels := [Channel("stable", "1.0.0")], capabilities := "invalid"), 10);
  }

  /** Rows nine to twelve of the table: the channels, then the capabilities. */
  lemma RegisterTableChannels(syn: Syntax)
    requires AgreesWithTests(syn)
    ensures Register(syn, Package(name := "package1", version := "1.0.0", repository := Repo,
                                  channels := [Channel("", "1.0.0")]), None).err
            == Some(InvalidInput(ChannelNameNotProvided))
    ensures Register(syn, Package(name := "package1", version := "1.0.0", repository := Repo,
                                  channels := [Channel("stable", "")]), None).err
            == Some(InvalidInput(ChannelVersionNotProvided))
    ensures Register(syn, Package(name := "package1", version := "1.0.0", repository := Repo,
                                  channels := [Channel("stable", "invalid")]), None).err
            == Some(InvalidInput(InvalidChannelVersion))
    ensures Register(syn, Package(name := "package1", version := "1.0.0", repository := Repo,
                                  channels := [Channel("stable", "1.0.0")], capabilities := "invalid"), None).err
            == Some(InvalidInput(InvalidCapabilities))
  {
    RowNoChannelName(syn);
    RowNoChannelVersion(syn);
    RowInvalidChannelVersion(syn);
    RowInvalidCapabilities(syn);
  }

  /** The successful registration and database error cases of `TestRegister`. */
  lemma RegisterValidPackage(syn: Syntax, fake: Cause)
    requires AgreesWithTests(syn)
    ensures Register(syn, ValidPackage, None) == ExecOutcome(1, None)
    ensures Register(syn, ValidPackage, Some(fake)) == ExecOutcome(1, Some(Database(fake)))
  {
    assert forall m :: m in ValidPackage.maintainers ==> m.email != "";
    assert ValidForRegistration(syn, ValidPackage);
  }

  /** `TestUnregister`: the three rejected inputs and the accepted one. */
  lemma UnregisterTable(syn: Syntax, fake: Cause)
    requires AgreesWithTests(syn)
    ensures Unregister(syn, Package(), None).err == Some(InvalidInput(NameNotProvided))
    ensures Unregister(syn, Package(name := "package1"), None).err == Some(InvalidInput(VersionNotProvided))
    ensures Unregister(syn, Package(name := "package1", version := "1.0"), None).err
            == Some(InvalidInput(InvalidStrictVersion))
    ensures Unregister(syn, Package(name := "package1", version := "1.0.0", repository := Repo), None)
            == ExecOutcome(1, None)
    ensures Unregister(syn, Package(name := "package1", version := "1.0.0", repository := Repo), Some(fake))
            == ExecOutcome(1, Some(Database(fake)))
  {
  }

  /** A search for an empty user alias. */
  lemma RowEmptyUser(query: Result<Bytes, Cause>)
    ensures SearchJSON(SearchInput(limit := 10, users := [""]), query)
            == QueryOutcome(0, None, Some(InvalidInput(InvalidUserAlias)))
  {
    var cs := SearchChecks(SearchInput(limit := 10, users := [""]));
    assert cs[2] == Check(false, InvalidUserAlias);
    FirstFailureIsFirstFailing(cs, 2);
  }

  /** A search for an empty organization name. */
  lemma RowEmptyOrg(query: Result<Bytes, Cause>)
    ensures SearchJSON(SearchInput(limit := 10, orgs := [""]), query)
            == QueryOutcome(0, None, Some(InvalidInput(InvalidOrganizationName)))
  {
    var cs := SearchChecks(SearchInput(limit := 10, orgs := [""]));
    assert cs[2] == Check(false, InvalidOrganizationName);
    FirstFailureIsFirstFailing(cs, 2);
  }

  /** A search for an empty repository name. */
  lemma RowEmptyRepository(query: Result<Bytes, Cause>)
    ensures SearchJSON(SearchInput(limit := 10, repositories := [""]), query)
            == QueryOutcome(0, None, Some(InvalidInput(InvalidRepositoryName)))
  {
    var cs := SearchChecks(SearchInput(limit := 10, repositories := [""]));
    assert cs[2] == Check(false, InvalidRepositoryName);
    FirstFailureIsFirstFailing(cs, 2);
  }

  /** `TestSearchJSON`: the seven rejected searches and the accepted one. */
  lemma SearchTable(query: Result<Bytes, Cause>)
    ensures SearchJSON(SearchInput(limit := -1), query).err == Some(InvalidInput(InvalidLimit))
    ensures SearchJSON(SearchInput(limit := 0), query).err == Some(InvalidInput(InvalidLimit))
    ensures SearchJSON(SearchInput(limit := 100), query).err == Some(InvalidInput(InvalidLimit))
    ensures SearchJSON(SearchInput(limit := 10, offset := -1), query).err == Some(InvalidInput(InvalidOffset))
    ensures SearchJSON(SearchInput(limit := 10, users := [""]), query)
            == QueryOutcome(0, None, Some(InvalidInput(InvalidUserAlias)))
    ensures SearchJSON(SearchInput(limit := 10, orgs := [""]), query)
            == QueryOutcome(0, None, Some(InvalidInput(InvalidOrganizationName)))
    ensures SearchJSON(SearchInput(limit := 10, repositories := [""]), query)
            == QueryOutcome(0, None, Some(InvalidInput(InvalidRepositoryName)))
    ensures SearchJSON(SearchInput(limit := 10, tsQueryWeb := "kw1"), query).dbCalls == 1
  {
    RowEmptyUser(query);
    RowEmptyOrg(query);
    RowEmptyRepository(query);
  }

  /**
   * `TestGet`: no package name is rejected, a database error comes back
   * unchanged with no package, and a document that decodes to a package
   * comes back as that package with no error.
   */
  lemma GetTable(query: Result<Bytes, Cause>, decode: Bytes -> Result<Package, Cause>, fake: Cause, doc: Bytes, expected: Package)
    requires decode(doc) == Success(expected)
    ensures Get(GetPackageInput(), query, decode).err == Some(InvalidInput(PackageNameNotProvided))
    ensures Get(GetPackageInput(packageName := "pkg1"), Failure(fake), decode) == QueryOutcome(1, None, Some(Database(fake)))
    ensures Get(GetPackageInput(packageName := "package-1"), Success(doc), decode) == QueryOutcome(1, Some(expected), None)
  {
  }

  /** `TestGetStarsJSON`: the two rejected ids and the accepted one. */
  lemma StarsTable(syn: Syntax, query: Result<Bytes, Cause>, fake: Cause, data: Bytes)
    requires AgreesWithTests(syn)
    ensures GetStarsJSON(syn, "", query).err == Some(InvalidInput(PackageIDNotProvided))
    ensures GetStarsJSON(syn, "pkgID", query).err == Some(InvalidInput(InvalidPackageID))
    ensures GetStarsJSON(syn, RepoID, Failure(fake)) == QueryOutcome(1, None, Some(Database(fake)))
    ensures GetStarsJSON(syn, RepoID, Success(data)) == QueryOutcome(1, Some(data), None)
  {
  }

  /** `TestToggleStar`: the panic without a user, the two rejected ids, and the accepted one. */
  lemma ToggleStarTable(syn: Syntax, exec: Option<Cause>)
    requires AgreesWithTests(syn)
    ensures ToggleStar(syn, None, "pkgID", exec) == Panicked
    ensures ToggleStar(syn, Some("userID"), "", exec) == Returned(ExecOutcome(0, Some(InvalidInput(PackageIDNotProvided))))
    ensures ToggleStar(syn, Some("userID"), "pkgID", exec) == Returned(ExecOutcome(0, Some(InvalidInput(InvalidPackageID))))
    ensures ToggleStar(syn, Some("userID"), RepoID, exec) == Returned(ExecOutcome(1, ExecError(exec)))
  {
  }
}
