# Artifact Hub: chart tracker worker, package validators, web slugs and paths

A Dafny model of four small parts of Artifact Hub (`artifacthub/hub`), with
proofs of what each part promises.

- **The helm tracker's worker** (`cmd/helm-tracker/worker.go`): the register
  and unregister job handlers are modelled as pure step functions. Each takes
  a job and the answers of its collaborators, supplied as oracle fields of an
  `Env`:
  - URL parsing and joining;
  - HTTP GETs;
  - helm's archive loader;
  - `data:` URL decoding;
  - the image store;
  - the license detector;
  - the package manager.

  A handler returns a `HandlerOutcome`: the trace of effects the job leaves,
  the error it returns, and whether a fault was recovered. Effects are
  HTTP GETs, stored images, errors appended to the errors collector, and
  `Register`/`Unregister` calls. The worker loop `Run` is a fold over a
  finite sequence of events (a received job, a closed queue, a cancelled
  context).
- **The package manager's input validation** (`internal/pkg`, as pinned down
  by `internal/pkg/manager_test.go`). Each operation runs an ordered list of
  checks (module `Checks`) and reports the first one that fails as an
  invalid-input error, without touching the database. A valid input costs
  exactly one database call, whose error is returned unchanged. This covers
  `Register`, `Unregister`, `SearchJSON`, `GetStarsJSON`, `ToggleStar`,
  `GetJSON` and `Get`. Semantic-version, UUID, content-URL and capability
  syntax are abstract predicates (`Manager.Syntax`).
  `ManagerTables.AgreesWithTests` states what the tests take for granted
  about them.
- **`getAnchorValue`** (`web/src/utils/getAnchorValue.ts`): the heading-to-anchor
  pipeline. It trims, lower-cases, drops the first `#`, blanks out
  punctuation, masks a leading digit or dash, turns whitespace runs into
  dashes and strips trailing dashes. `removeEmojis` is a function parameter.
- **`buildPackageURL`** (`web/src/utils/buildPackageURL.ts`): the path of a
  package page. The `REPOSITORY_KINDS` table is a parameter.

The worker and the validator meet in `WorkerProperties.RegisteredMaintainersValidate`.
A package built by the worker keeps only maintainers with an e-mail and
always names its repository. So the manager never rejects it for either
reason.

Files: `wrappers.dfy` (Option, Result), `hub.dfy` (catalog entities),
`checks.dfy` (first failing check), `manager.dfy` and `manager_tables.dfy`
(validators and the test tables), `tracker.dfy` (worker data, oracles and
effects), `worker.dfy` (handlers and `Run`), `worker_props.dfy` and
`worker_run.dfy` (properties of one job and of a run), `strings.dfy`
(index, split and join), `anchor.dfy` and `package_url.dfy` (the two web utilities).

## Model

| member | source | states |
|---|---|---|
| `Checks.FirstFailure` | internal/pkg/manager_test.go:652-660 | The verdict is valid exactly when every check passes; otherwise it carries the reason of a check that fails while every earlier one passes |
| `Checks.FirstFailureIsFirstFailing` | internal/pkg/manager_test.go:516-661 | Whichever check fails first determines the reported reason, which is why each table row names one reason |
| `Checks.FailurePrefixDecides` | internal/pkg/manager_test.go:516-661 | Checks after a failing prefix cannot change the verdict |
| `Checks.PassingPrefixIsTransparent` | internal/pkg/manager_test.go:516-661 | A prefix of passing checks leaves the verdict to the remaining checks |
| `Checks.NeverReported` | internal/pkg/manager_test.go:516-661 | A reason whose checks all pass is never the one reported |
| `Manager.ValidateRegister` | internal/pkg/manager_test.go:516-661 | An invalid verdict names the reason of the first failing check of `Register`'s ordered check list (name, version, semver, content URL, repository, repository id, UUID, maintainer e-mails, channels, capabilities) |
| `Manager.FieldChecksPass` | internal/pkg/manager_test.go:521-572 | The seven field checks pass exactly when name and version are present, the version is semver, the content URL is empty or valid, and a repository with a UUID id is given |
| `Manager.MaintainerChecksPass` | internal/pkg/manager_test.go:573-587 | The maintainer checks pass exactly when every maintainer has an e-mail |
| `Manager.ChannelChecksPass` | internal/pkg/manager_test.go:588-633 | The channel checks pass exactly when every channel has a name and a semver version |
| `Manager.RegisterAcceptsExactlyValid` | internal/pkg/manager_test.go:516-681 | `Register`'s validation accepts a package if and only if every rule holds of it, taken without order |
| `Manager.Register` | internal/pkg/manager_test.go:516-681 | One `Exec` happens if and only if the package is valid, and its error is returned unchanged; an invalid package costs no database call and yields an invalid-input error |
| `Manager.MaintainerEmailsNeverRejected` | internal/pkg/manager_test.go:573-587 | A package whose maintainers all have an e-mail is never rejected for a missing maintainer e-mail |
| `Manager.RegisterChecksAfterFields` | internal/pkg/manager_test.go:573-650 | Every check after the seven field checks is about maintainers, channels or capabilities |
| `Manager.RepositoryPresentNeverRejected` | internal/pkg/manager_test.go:546-552 | A package that names a repository is never rejected for a missing repository |
| `Manager.Unregister` | internal/pkg/manager_test.go:909-961 | Name is checked first, then version presence, then strict semantic version; one `Exec` happens exactly for valid input, and its error is returned unchanged |
| `Manager.NonEmptyChecksPass` | internal/pkg/manager_test.go:721-741 | A list of names passes its checks exactly when it holds no empty string |
| `Manager.SearchAcceptsExactlyValid` | internal/pkg/manager_test.go:691-742 | The search checks accept exactly a limit in 1..50, a non-negative offset and no empty user, organization or repository name |
| `Manager.SearchJSON` | internal/pkg/manager_test.go:684-776 | One `QueryRow` happens exactly for a valid search; invalid ones yield no data and an invalid-input error, the limit checked before the offset; the query's data or error is returned as is |
| `Manager.ValidatePackageID` | internal/pkg/manager_test.go:389-396 | An empty id is "not provided", a non-UUID id is invalid, and the id is accepted exactly when present and a UUID |
| `Manager.GetStarsJSON` | internal/pkg/manager_test.go:385-428 | Rejected ids cost no query; an accepted id costs one `QueryRow`, whose data is returned with no error, or whose error is returned unchanged with no data |
| `Manager.ToggleStar` | internal/pkg/manager_test.go:806-855 | Without a user id in the context the call panics before any check; otherwise the id checks apply and a valid id costs one `Exec`, whose error is returned |
| `Manager.GetJSON` | internal/pkg/manager_test.go:224-254 | A missing package name is rejected before any query; otherwise one `QueryRow`, its data or error returned as is |
| `Manager.Get` | internal/pkg/manager_test.go:16-221 | A missing package name is rejected before any query; a database error is returned unchanged with no package; a document that decodes is returned as that package with no error, and one that does not is a decoding error with no package |
| `ManagerTables.RegisterTableFields` | internal/pkg/manager_test.go:521-545 | The first four invalid-input rows of `TestRegister` are rejected for name, version, semver and content URL |
| `ManagerTables.RegisterTableRepository` | internal/pkg/manager_test.go:546-587 | The next four rows are rejected for repository, repository id, UUID and maintainer e-mail |
| `ManagerTables.RegisterTableChannels` | internal/pkg/manager_test.go:588-650 | The last four rows are rejected for channel name, channel version, channel semver and capabilities |
| `ManagerTables.RegisterValidPackage` | internal/pkg/manager_test.go:663-681 | The test's valid package makes one `Exec`; a database error comes back unchanged |
| `ManagerTables.UnregisterTable` | internal/pkg/manager_test.go:909-961 | The three rejected inputs of `TestUnregister`, "1.0" among them, and the accepted package with and without a database error |
| `ManagerTables.SearchTable` | internal/pkg/manager_test.go:691-753 | The seven rejected searches of `TestSearchJSON` report the expected reasons with no data, and a limit of 10 is accepted with one query |
| `ManagerTables.StarsTable` | internal/pkg/manager_test.go:389-428 | An empty id and "pkgID" are rejected with their reasons; a UUID costs one query, whose error comes back unchanged and whose data comes back as is |
| `ManagerTables.GetTable` | internal/pkg/manager_test.go:16-221 | `TestGet`: the empty input is rejected, a database error comes back unchanged with no package, and a decodable document comes back as the decoded package with no error |
| `ManagerTables.ToggleStarTable` | internal/pkg/manager_test.go:810-855 | A missing user panics; an empty id and "pkgID" are rejected; a UUID costs one `Exec` |
| `Worker.ResolveChartURL` | cmd/helm-tracker/worker.go:143-154 | A request URI is used unchanged; otherwise it is path-joined onto the repository URL, and an unparsable repository URL is a failure carrying the parse error |
| `Worker.Fetch` | cmd/helm-tracker/worker.go:115-124 | One GET; it succeeds exactly on a 200 response, with that response's body |
| `Worker.LoadChart` | cmd/helm-tracker/worker.go:261-275 | One GET of the archive; a chart results exactly when the response is 200 and the archive parses, and it is the parsed archive |
| `Worker.GetImage` | cmd/helm-tracker/worker.go:105-125 | A `data:` URL costs no HTTP call and yields exactly the decoded bytes, or the decoder's error; any other URL is fetched |
| `Worker.HasProvenanceFile` | cmd/helm-tracker/worker.go:279-289 | One GET of `<url>.prov`; it fails exactly on a transport error, and otherwise answers whether the status is 200 |
| `Worker.GetFile` | cmd/helm-tracker/worker.go:292-299 | The first file named exactly `name`; none exactly when no file has that name |
| `Worker.KeepWithEmail` | cmd/helm-tracker/worker.go:216-227 | The kept maintainers are exactly the chart's maintainers that have an e-mail, no more of them than the chart lists |
| `Worker.KeepWithEmailConcat` | cmd/helm-tracker/worker.go:216-227 | Filtering distributes over concatenation, so the chart's order is kept |
| `Worker.FetchLogo` | cmd/helm-tracker/worker.go:171-184 | No effect unless the job asks for a logo and there is an icon; a failure to get the image is appended and leaves the image id empty; a fetched image is stored and its id used, with nothing appended whatever the store answers |
| `Worker.BuildPackage` | cmd/helm-tracker/worker.go:186-227 | Every field the worker sets comes from its source: name, version, description, keywords, home URL, app version and deprecation from the metadata; digest and creation time from the index entry; the resolved URL as content URL; the job's repository; the logo step's URL and image id; the e-mail-bearing maintainers; the signed flag. Channels and capabilities stay empty |
| `Worker.HandleRegisterJob` | cmd/helm-tracker/worker.go:130-238 | A recovered fault returns no error, and a registration calls `Register` at most once |
| `Worker.Settle` | cmd/helm-tracker/worker.go:229-257 | A failed catalog call is appended once, wrapped, for the job's repository and returned unwrapped; a successful one leaves no trace and no error |
| `Worker.UnregisterIdentity` | cmd/helm-tracker/worker.go:245-249 | The package handed to `Unregister` holds only the index entry's name and version and the job's repository |
| `Worker.HandleUnregisterJob` | cmd/helm-tracker/worker.go:243-258 | The whole trace is the `Unregister` call, then one appended error exactly when the call fails; that error is returned, nothing is recovered |
| `Worker.HandleJob` | cmd/helm-tracker/worker.go:82-87 | A register job calls `Register` at most once and returns no error after a recovered fault; an unregister job starts with its `Unregister` call and fails exactly when that call does |
| `Worker.Run` | cmd/helm-tracker/worker.go:66-101 | The handled jobs are those received before the first stop signal, and at most one error is logged per handled job |
| `WorkerProperties.RegistrationEffects` | cmd/helm-tracker/worker.go:156-237 | A loaded chart's trace is the archive GET, the logo effects, the provenance GET and the `Register` call, then one appended error exactly when `Register` fails, whose error is returned |
| `WorkerProperties.OnlyRegisterCall` | cmd/helm-tracker/worker.go:186-230 | The one package a registration hands to `Register` is the package built from the loaded chart |
| `WorkerProperties.RegisterCalledIffLoaded` | cmd/helm-tracker/worker.go:143-230 | `Register` is called if and only if the URL resolves and the archive loads into a chart with metadata |
| `WorkerProperties.UnparsableRepositoryURL` | cmd/helm-tracker/worker.go:145-151 | A non-URI index URL under an unparsable repository URL appends exactly one invalid-URL error, returns the parse error, and registers nothing |
| `WorkerProperties.LoadFailureRecordedOnce` | cmd/helm-tracker/worker.go:156-167 | A chart that does not load leaves exactly the archive GET and one loading error for the repository: nothing is registered and no error is returned |
| `WorkerProperties.RegisteredContentURL` | cmd/helm-tracker/worker.go:143-198 | The registered content URL is the resolved archive URL, and the index URL itself when it is a request URI |
| `WorkerProperties.SignedIffProvenance` | cmd/helm-tracker/worker.go:210-215 | The registered package is signed if and only if the GET of `<content URL>.prov` answers 200 |
| `WorkerProperties.ProbeErrorIsUnsigned` | cmd/helm-tracker/worker.go:210-215 | A provenance probe that fails in transport still registers the package, built unsigned, and the probe leaves nothing in the trace but its own GET |
| `WorkerProperties.ReadmeAndLicense` | cmd/helm-tracker/worker.go:202-209 | Readme and license come from the first files named exactly `README.md` and `LICENSE`, and are empty without them |
| `WorkerProperties.RegisteredMaintainersValidate` | cmd/helm-tracker/worker.go:216-227 | The registered maintainers are the chart's e-mail-bearing ones, so the manager rejects the package neither for a missing maintainer e-mail nor for a missing repository |
| `WorkerProperties.RegistrationHttpGets` | cmd/helm-tracker/worker.go:157-210 | A registration's HTTP calls are the archive, the logo's own, and the provenance probe, in that order |
| `WorkerProperties.LogoFetchedOnlyWhenAsked` | cmd/helm-tracker/worker.go:172-174 | Without a requested logo and an icon, or with a `data:` icon, the only HTTP calls are the archive and the probe, and no image is stored unless the job asks for a logo and there is an icon |
| `WorkerProperties.LogoFailureStillRegisters` | cmd/helm-tracker/worker.go:174-178 | A failure to get the logo is appended for the repository, and the package is still registered with the icon as logo URL and an empty image id |
| `WorkerProperties.LogoStoredRegisters` | cmd/helm-tracker/worker.go:171-190 | An image that is got is stored, and the package is registered with the icon as logo URL and the id the store answered, whatever error the store reports |
| `WorkerProperties.RecordedErrorKinds` | cmd/helm-tracker/worker.go:130-238 | A register job appends only invalid-URL, loading, logo and registering errors, all for its repository, and never calls `Unregister` |
| `WorkerProperties.LogoRecordedKinds` | cmd/helm-tracker/worker.go:171-184 | The logo step appends only a logo error for the job's repository |
| `WorkerProperties.LoadedRecordedKinds` | cmd/helm-tracker/worker.go:168-237 | After a chart loads, every effect of the job is of a recorded kind |
| `WorkerProperties.RegisterFailureRecorded` | cmd/helm-tracker/worker.go:229-237 | A failed `Register` is appended last and its error returned; a successful one ends the trace with the call and returns no error |
| `WorkerProperties.UnregisterRecorded` | cmd/helm-tracker/worker.go:243-258 | An unregister job's trace is its one `Unregister` call with the entry's identity followed by its appended errors: one on failure, which is returned, none on success |
| `WorkerProperties.FaultsRecovered` | cmd/helm-tracker/worker.go:131-144 | An entry without URLs, or an archive without metadata after its GET, ends the job recovered with no further effect and no error |
| `RunProperties.RunIsFoldOfHandlers` | cmd/helm-tracker/worker.go:66-101 | A run is the handlers applied in turn to the jobs received before the first stop signal: their traces in order and their errors logged |
| `RunProperties.RunStopsAtSignal` | cmd/helm-tracker/worker.go:68-99 | Nothing after a closed queue or a cancelled context is handled |
| `RunProperties.LogsAreHandlerErrors` | cmd/helm-tracker/worker.go:81-96 | A logged entry is exactly a job together with the error its handler returned |
| `RunProperties.RunLogsExactlyHandlerErrors` | cmd/helm-tracker/worker.go:81-96 | Every error a run logs comes from a handled job's handler, and every such error is logged |
| `RunProperties.CatalogCallsOfJobs` | cmd/helm-tracker/worker.go:82-87 | The handlers call `Unregister` once per unregister job and `Register` at most once per register job |
| `RunProperties.RunCatalogCalls` | cmd/helm-tracker/worker.go:66-101 | Over a whole run, one `Unregister` per handled unregister job and at most one `Register` per handled register job |
| `RunProperties.AppendedForOwnRepository` | cmd/helm-tracker/worker.go:130-258 | Every error appended during a run names the repository of the job that appended it |
| `AnchorValue.Trim` | web/src/utils/getAnchorValue.ts:6 | The result neither starts nor ends with whitespace, and it is the slice of the input between two whitespace-only runs |
| `AnchorValue.TrimUnique` | web/src/utils/getAnchorValue.ts:6 | Trimming whitespace, a middle part that is not whitespace at either end, and whitespace gives back that middle part |
| `AnchorValue.LowerAscii` | web/src/utils/getAnchorValue.ts:7 | Lower-casing keeps the length and maps each character on its own: an ASCII capital to its small letter, anything else unchanged |
| `AnchorValue.LowerKeepsClasses` | web/src/utils/getAnchorValue.ts:7 | Lower-casing neither creates nor removes whitespace, `#`, `-`, punctuation or digits |
| `AnchorValue.TrimThenLower` | web/src/utils/getAnchorValue.ts:6-7 | Lower-casing commutes with trimming |
| `AnchorValue.RemoveFirstHash` | web/src/utils/getAnchorValue.ts:8 | Without a `#` the string is unchanged; otherwise exactly the first `#` is cut out |
| `AnchorValue.RemoveFirstHashCounts` | web/src/utils/getAnchorValue.ts:8 | One `#` fewer when there was one, and every other character as often as before |
| `AnchorValue.RemoveFirstHashKeepsTail` | web/src/utils/getAnchorValue.ts:8 | Everything after the first `#`, later `#` included, survives in order |
| `AnchorValue.BlankPunctuation` | web/src/utils/getAnchorValue.ts:9 | Exactly the characters of the punctuation class become spaces, position by position, and every other character is kept |
| `AnchorValue.BlankedPunctuationIsSpace` | web/src/utils/getAnchorValue.ts:9 | After blanking, the only punctuation left is the space |
| `AnchorValue.MaskLeading` | web/src/utils/getAnchorValue.ts:10 | Only position 0 may change: a leading digit or dash becomes `X`, anything else stays |
| `AnchorValue.MaskedFrom` | web/src/utils/getAnchorValue.ts:10 | Masking brings in no character but `X` |
| `AnchorValue.CollapseSpace` | web/src/utils/getAnchorValue.ts:11 | The result holds no whitespace and only dashes and characters of the input, and whitespace-free input is unchanged |
| `AnchorValue.CollapseRun` | web/src/utils/getAnchorValue.ts:11 | A maximal whitespace run between two parts becomes exactly one dash |
| `AnchorValue.CollapseKeepsCounts` | web/src/utils/getAnchorValue.ts:11 | Collapsing keeps the count of every character that is neither whitespace nor a dash |
| `AnchorValue.StripTrailingDashes` | web/src/utils/getAnchorValue.ts:12 | The result is a prefix of the input that does not end with a dash, and what was removed is all dashes |
| `AnchorValue.CollapsedHasNoPunctuation` | web/src/utils/getAnchorValue.ts:9-11 | Once the space is the only punctuation left, collapsing leaves neither whitespace nor punctuation |
| `AnchorValue.Slug` | web/src/utils/getAnchorValue.ts:5-12 | The string handed to `removeEmojis` holds no whitespace and no punctuation, and does not end with a dash |
| `AnchorValue.AnchorValue` | web/src/utils/getAnchorValue.ts:3-14 | An emoji filter that only deletes characters yields an anchor with no whitespace and no punctuation, and a filter that deletes nothing yields the slug itself |
| `AnchorValue.SlugHashes` | web/src/utils/getAnchorValue.ts:6-12 | The slug holds exactly one `#` fewer than the heading when the heading has one, and as many otherwise |
| `AnchorValue.SlugIgnoresSurroundingSpace` | web/src/utils/getAnchorValue.ts:6 | Whitespace around a heading does not change its slug |
| `AnchorValue.SlugIgnoresAsciiCase` | web/src/utils/getAnchorValue.ts:7 | Headings equal up to the case of ASCII letters have the same slug |
| `PackageURL.FindKind` | web/src/utils/buildPackageURL.ts:6 | The first table entry with the repository's kind, and none exactly when no entry has it |
| `PackageURL.KindLabel` | web/src/utils/buildPackageURL.ts:5-8 | The label of the first table entry whose kind is the repository's |
| `PackageURL.BuildPackageURL` | web/src/utils/buildPackageURL.ts:4-17 | The path is `""`, `packages`, the kind's label, the repository name, the normalized name and, when present and asked for, the version, joined with `/` |
| `PackageURL.PathSplitsBack` | web/src/utils/buildPackageURL.ts:10-16 | When no part holds `/`, cutting the path at `/` gives back exactly its segments |
| `PackageURL.PathIdentifiesPackage` | web/src/utils/buildPackageURL.ts:10-16 | Two slash-free packages share a path only when they share label, repository name, normalized name and whether and which version appears |
| `PackageURL.VersionIgnoredWithoutFlag` | web/src/utils/buildPackageURL.ts:12-14 | Without the version flag the path does not depend on the version |
| `PackageURL.BasePathIsPrefix` | web/src/utils/buildPackageURL.ts:10-16 | The versionless path is a prefix of every path of the package, and the version adds exactly `/` and the version, only when present and asked for |
| `Strings.SplitJoin` | web/src/utils/buildPackageURL.ts:10 | Splitting at a separator undoes joining with it when no piece holds the separator |

## Left out

- I/O and libraries are oracle fields of `Tracker.Env`: the HTTP transport, helm's `loader.LoadArchive`, data-URL decoding, the image store, `license.Detect`, `url.ParseRequestURI`, `url.Parse`, `path.Join` and `URL.String`.
- Logging is left out: zerolog calls and the stack trace of a recovered panic. A failed image store and a failed provenance probe therefore leave no effect. `Run`'s logged errors are kept as `RunOutcome.logged`.
- Concurrency is left out: goroutines, `sync.WaitGroup`, channel and context semantics. `Run` is one worker over a finite sequence of events, and running out of events ends the run where the real loop would block.
- The dispatcher that produces jobs and the errors collector's storage are not part of this model. An append is recorded as an effect.
- Worker.GetImage: a failure while reading a 200 response body (`ioutil.ReadAll`) is not modelled, because the HTTP oracle hands back the whole body. The same holds for the archive body handed to `LoadArchive`.
- Worker.HandleRegisterJob: the error wrappings are constructors of `TrackerError`, not the formatted message texts.
- Manager.Get: the message of the empty-input rejection ("package name not provided") is a modelling choice, because the tests only pin the error kind. The JSON decoder is a function parameter.
- Manager: SQL, stored procedures and the JSON documents are left out. The database is an `Exec` or `QueryRow` outcome passed in.
- The manager's checks on a package with several channels run channel by channel, name, version then semver. The tests use one channel per package, so this order is not pinned by them.
- The manager's operations without input validation in these tests are left out (random, stats, snapshots, values schema, Monocular search): each is one database call with no checks.
- AnchorValue.LowerAscii: only ASCII letters are lower-cased, because Unicode case mapping is outside the model. The properties that depend on it say "ASCII".
- AnchorValue.AnchorValue: `removeEmojis` is a function parameter, because its emoji table is not part of this model. The contract assumes of it only that it deletes characters, or deletes none.
- PackageURL.BuildPackageURL: the `REPOSITORY_KINDS` table is a parameter. The non-null assertion on its lookup becomes the precondition `KnownKind`. An absent version is the empty string, and the optional `withVersion` flag is a boolean.
