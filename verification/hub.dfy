/**
 * The catalog entities of the hub that the chart tracker produces and the
 * package manager validates (the `hub` package of the repository).
 */
module Hub {
  import opened Wrappers

  /** Raw bytes: archive bodies, images, file contents, query results. */
  type Bytes = seq<bv8>

  /** A repository as seen by the catalog; only its id is validated. */
  datatype Repository = Repository(repositoryID: string, name: string, url: string)

  /** A package maintainer: a name and an e-mail address. */
  datatype Maintainer = Maintainer(name: string, email: string)

  /** An operator package channel. */
  datatype Channel = Channel(name: string, version: string)

  /**
   * A catalog package. Every field defaults to Go's zero value, so that
   * `Package(name := "package1")` reads like the literal `&hub.Package{Name: "package1"}`.
   * `repository` may be nil in the source: `None` is nil.
   */
  datatype Package = Package(
    name: string := "",
    version: string := "",
    logoURL: string := "",
    logoImageID: string := "",
    description: string := "",
    keywords: seq<string> := [],
    homeURL: string := "",
    readme: string := "",
    license: string := "",
    appVersion: string := "",
    digest: string := "",
    deprecated: bool := false,
    signed: bool := false,
    contentURL: string := "",
    createdAt: int := 0,
    maintainers: seq<Maintainer> := [],
    channels: seq<Channel> := [],
    capabilities: string := "",
    repository: Option<Repository> := None
  )
}
