/**
 * The web client's package path builder (`buildPackageURL`): the path of
 * a package's page, from the label of its repository kind, the repository
 * name, the package's normalized name and, on request, its version. The
 * table of repository kinds is a parameter.
 */
module PackageURL {
  import opened Wrappers
  import opened Strings

  /** An entry of the repository-kinds table: a kind and the label (`kindLabel`) used in paths. */
  datatype RepoKindDef = RepoKindDef(kind: int, kindLabel: string)

  /** The repository a package listed in the web client belongs to. */
  datatype WebRepository = WebRepository(kind: int, name: string)

  /** The fields of a package the path is built from; an absent version is the empty string. */
  datatype WebPackage = WebPackage(repository: WebRepository, normalizedName: string, version: string)

  /** The first entry of `kinds` for `kind`, as `Array.prototype.find` returns it. */
  function FindKind(kinds: seq<RepoKindDef>, kind: int): (r: Option<RepoKindDef>)
    ensures r.None? <==> forall k :: 0 <= k < |kinds| ==> kinds[k].kind != kind
    ensures r.Some? ==> exists i :: 0 <= i < |kinds| && kinds[i] == r.value
                                    && forall k :: 0 <= k < i ==> kinds[k].kind != kind
    ensures r.Some? ==> r.value.kind == kind
  {
    if |kinds| == 0 then None
    else if kinds[0].kind == kind then Some(kinds[0])
    else
      var rest := FindKind(kinds[1..], kind);
      assert rest.Some? ==> exists i :: 0 <= i < |kinds| && kinds[i] == rest.value
                                        && forall k :: 0 <= k < i ==> kinds[k].kind != kind by {
        if rest.Some? {
          var i :| 0 <= i < |kinds[1..]| && kinds[1..][i] == rest.value
                   && forall k :: 0 <= k < i ==> kinds[1..][k].kind != kind;
          assert kinds[i + 1] == rest.value;
          assert forall k :: 1 <= k < i + 1 ==> kinds[k] == kinds[1..][k - 1];
        }
      }
      rest
  }

  /** The table has an entry for `kind`; the builder asserts so rather than checking. */
  predicate KnownKind(kinds: seq<RepoKindDef>, kind: int) {
    exists i :: 0 <= i < |kinds| && kinds[i].kind == kind
  }

  /** The label of the first table entry for `kind`. */
  function KindLabel(kinds: seq<RepoKindDef>, kind: int): (name: string)
    requires KnownKind(kinds, kind)
    ensures exists i :: 0 <= i < |kinds| && kinds[i] == RepoKindDef(kind, name)
                        && forall k :: 0 <= k < i ==> kinds[k].kind != kind
  {
    FindKind(kinds, kind).value.kindLabel
  }

  /** Whether the version is part of the path: it must be present and asked for. */
  predicate WithVersionSegment(p: WebPackage, withVersion: bool) {
    p.version != "" && withVersion
  }

  /**
   * `buildPackageURL`: the page path is its segments joined with `/` — the
   * empty segment before the leading slash, `packages`, the kind's label,
   * the repository name, the normalized name and, when present and asked
   * for, the version.
   */
  function BuildPackageURL(kinds: seq<RepoKindDef>, p: WebPackage, withVersion: bool): (url: string)
    requires KnownKind(kinds, p.repository.kind)
    ensures url == Join(Segments(kinds, p, withVersion), '/')
  {
    var ver := if WithVersionSegment(p, withVersion) then [p.version] else [];
    JoinedPath(KindLabel(kinds, p.repository.kind), p.repository.name, p.normalizedName, ver);
    var url := "/packages/" + KindLabel(kinds, p.repository.kind) + "/" + p.repository.name + "/" + p.normalizedName;
    if WithVersionSegment(p, withVersion) then url + "/" + p.version else url
  }

  /** The path segments of a package's page, the empty one before the leading slash included. */
  function Segments(kinds: seq<RepoKindDef>, p: WebPackage, withVersion: bool): (parts: seq<string>)
    requires KnownKind(kinds, p.repository.kind)
    ensures |parts| == if WithVersionSegment(p, withVersion) then 6 else 5
  {
    ["", "packages", KindLabel(kinds, p.repository.kind), p.repository.name, p.normalizedName]
    + (if WithVersionSegment(p, withVersion) then [p.version] else [])
  }

  /** `/packages/` and three names, then the optional version, joined with `/`. */
  lemma JoinedPath(kindLabel: string, name: string, normalizedName: string, ver: seq<string>)
    requires |ver| <= 1
    ensures Join(["", "packages", kindLabel, name, normalizedName] + ver, '/')
            == var base := "/packages/" + kindLabel + "/" + name + "/" + normalizedName;
               if |ver| == 1 then base + "/" + ver[0] else base
  {
    var last := [normalizedName] + ver;
    var sfx := if |ver| == 1 then "/" + ver[0] else "";
    SegmentsNest(kindLabel, name, normalizedName, ver);
    NestedJoin(kindLabel, name, last);
    if |ver| == 1 {
      JoinCons(normalizedName, ver, '/');
    }
    assert Join(last, '/') == normalizedName + sfx;
    PackagesPrefix();
    Assoc5(kindLabel, name, normalizedName, sfx);
  }

  /** The segments, as one element in front of the rest at each step. */
  lemma SegmentsNest(kindLabel: string, name: string, normalizedName: string, ver: seq<string>)
    ensures ["", "packages", kindLabel, name, normalizedName] + ver
            == [""] + (["packages"] + ([kindLabel] + ([name] + ([normalizedName] + ver))))
  {
  }

  /** Joining the leading segments, one separator at a time. */
  lemma NestedJoin(kindLabel: string, name: string, last: seq<string>)
    requires |last| >= 1
    ensures Join([""] + (["packages"] + ([kindLabel] + ([name] + last))), '/')
            == "" + "/" + ("packages" + "/" + (kindLabel + "/" + (name + "/" + Join(last, '/'))))
  {
    var t3 := [name] + last;
    JoinCons(name, last, '/');
    var t2 := [kindLabel] + t3;
    JoinCons(kindLabel, t3, '/');
    var t1 := ["packages"] + t2;
    JoinCons("packages", t2, '/');
    JoinCons("", t1, '/');
  }

  /** The literal prefix of every path is `/`, `packages`, `/`. */
  lemma PackagesPrefix()
    ensures "/packages/" == "/" + "packages" + "/"
  {
    var lit, cat := "/packages/", "/" + "packages" + "/";
    assert |lit| == |cat| == 10;
    forall i | 0 <= i < 10
      ensures lit[i] == cat[i]
    {
      if i == 0 {
      } else if i < 9 {
        assert cat[i] == "packages"[i - 1];
      }
    }
  }

  /** Regrouping the concatenations of a path. */
  lemma Assoc5(kindLabel: string, name: string, normalizedName: string, sfx: string)
    ensures "" + "/" + ("packages" + "/" + (kindLabel + "/" + (name + "/" + (normalizedName + sfx))))
            == "/" + "packages" + "/" + kindLabel + "/" + name + "/" + normalizedName + sfx
  {
  }

  /** No `/` in the label, the repository name, the normalized name or the version. */
  predicate SlashFree(kinds: seq<RepoKindDef>, p: WebPackage)
    requires KnownKind(kinds, p.repository.kind)
  {
    && '/' !in KindLabel(kinds, p.repository.kind)
    && '/' !in p.repository.name
    && '/' !in p.normalizedName
    && '/' !in p.version
  }

  /**
   * Cutting the path at each `/` gives back the label, the repository
   * name, the normalized name and, when it was included, the version.
   */
  lemma PathSplitsBack(kinds: seq<RepoKindDef>, p: WebPackage, withVersion: bool)
    requires KnownKind(kinds, p.repository.kind)
    requires SlashFree(kinds, p)
    ensures Split(BuildPackageURL(kinds, p, withVersion), '/') == Segments(kinds, p, withVersion)
  {
    SplitJoin(Segments(kinds, p, withVersion), '/');
  }

  /**
   * Two packages whose names hold no `/` share a path only when they share
   * the kind label, the repository name, the normalized name and whether
   * and which version the path names.
   */
  lemma PathIdentifiesPackage(kinds: seq<RepoKindDef>, p: WebPackage, q: WebPackage, withVersion: bool)
    requires KnownKind(kinds, p.repository.kind) && KnownKind(kinds, q.repository.kind)
    requires SlashFree(kinds, p) && SlashFree(kinds, q)
    requires BuildPackageURL(kinds, p, withVersion) == BuildPackageURL(kinds, q, withVersion)
    ensures KindLabel(kinds, p.repository.kind) == KindLabel(kinds, q.repository.kind)
    ensures p.repository.name == q.repository.name && p.normalizedName == q.normalizedName
    ensures WithVersionSegment(p, withVersion) <==> WithVersionSegment(q, withVersion)
    ensures WithVersionSegment(p, withVersion) ==> p.version == q.version
  {
    PathSplitsBack(kinds, p, withVersion);
    PathSplitsBack(kinds, q, withVersion);
    var sp, sq := Segments(kinds, p, withVersion), Segments(kinds, q, withVersion);
    assert sp == sq;
    assert sp[2] == sq[2] && sp[3] == sq[3] && sp[4] == sq[4];
    assert |sp| == |sq|;
    if WithVersionSegment(p, withVersion) {
      assert sp[5] == sq[5];
    }
  }

  /** Without the version flag the path does not depend on the version. */
  lemma VersionIgnoredWithoutFlag(kinds: seq<RepoKindDef>, p: WebPackage, version: string)
    requires KnownKind(kinds, p.repository.kind)
    ensures BuildPackageURL(kinds, p, false) == BuildPackageURL(kinds, p.(version := version), false)
  {
  }

  /**
   * The path without the version is a prefix of every path of the
   * package, and the version adds exactly `/` and the version.
   */
  lemma BasePathIsPrefix(kinds: seq<RepoKindDef>, p: WebPackage, withVersion: bool)
    requires KnownKind(kinds, p.repository.kind)
    ensures var base := BuildPackageURL(kinds, p, false);
            var url := BuildPackageURL(kinds, p, withVersion);
            && base == url[..|base|]
            && (WithVersionSegment(p, withVersion) ==> url == base + "/" + p.version)
            && (!WithVersionSegment(p, withVersion) ==> url == base)
  {
  }
}
