/**
 * Where a persistent cache lives: the pure part of `DefaultCacheRepository`.
 *
 * From a cache key, the builder's properties, its target object and its
 * version strategy, together with the repository's configuration (global
 * cache directory, project-cache-dir setting, current Gradle version),
 * `ResolveLocation` computes the one directory and the one property map that
 * `PersistentCacheBuilder.open` hands to the cache factory. The lemmas below
 * state the layout rules that follow.
 */
module CacheLocation {
  import opened Paths

  /** How a cache directory is shared between Gradle versions. */
  datatype VersionStrategy =
    | SharedCache                          // one directory for every version
    | CachePerVersion                      // one directory per version
    | SharedCacheInvalidateOnVersionChange // one directory, the version recorded as a property

  /** The object given to `forObject`. */
  datatype Target =
    | NoTarget                    // null: the cache belongs to the user home
    | Build(rootProjectDir: Path) // a Gradle build, through its root project's directory
    | Dir(dir: Path)              // a java.io.File
    | Other                       // any other object

  /** The targets that name a directory under which a project cache may live. */
  predicate IsDirectoryTarget(a: Target) {
    a.Build? || a.Dir?
  }

  /** The directory a build or file target names. */
  function TargetDir(a: Target): Path
    requires IsDirectoryTarget(a)
  {
    if a.Build? then a.rootProjectDir else a.dir
  }

  /** A property value; the repository only ever creates text values itself. */
  datatype PropertyValue = Text(text: string) | Opaque(id: nat)

  type Properties = map<string, PropertyValue>

  datatype CacheError =
    | UnrecognisedDomainObject // `forObject` was given an object of no known kind
    | CacheOpenFailed          // the cache factory could not open the cache

  datatype Result<T> = Success(value: T) | Failure(error: CacheError)

  /** The directory below the user home that holds the global caches. */
  const CachesDirName: string := "caches"

  /** The segment shared by every version under SharedCacheInvalidateOnVersionChange. */
  const NoVersionDirName: string := "noVersion"

  /** The property that records the Gradle version under SharedCacheInvalidateOnVersionChange. */
  const VersionPropertyKey: string := "gradle.version"

  /** The repository's fixed configuration; the project-cache-dir setting is a path string. */
  datatype Config = Config(globalCacheDir: Path, projectCacheDir: string, version: string)

  /** A builder's accumulated state. */
  datatype Request = Request(key: string, properties: Properties, target: Target, versionStrategy: VersionStrategy)

  /** What is handed to the cache factory. */
  datatype Location = Location(directory: Path, properties: Properties)

  /**
   * The directory layout `<base>[/<version>|/noVersion]/<key>`: the names
   * each strategy puts between the base directory and the key's names.
   */
  function VersionLevel(strategy: VersionStrategy, version: string): seq<string> {
    match strategy
    case SharedCache => []
    case CachePerVersion => Segments(version)
    case SharedCacheInvalidateOnVersionChange => [NoVersionDirName]
  }

  /**
   * `maybeProjectCacheDir`: an absolute setting is used as it is, a relative
   * one is resolved below the candidate parent directory.
   */
  function MaybeProjectCacheDir(projectCacheDir: string, potentialParentDir: Path): (r: Path)
    ensures IsAbsolute(projectCacheDir) ==> r == FromString(projectCacheDir)
    ensures !IsAbsolute(projectCacheDir) ==>
      Under(potentialParentDir, r) && r.segments[|potentialParentDir.segments|..] == Segments(projectCacheDir)
  {
    if IsAbsolute(projectCacheDir) then FromString(projectCacheDir) else Child(potentialParentDir, projectCacheDir)
  }

  /**
   * The directory chosen by the target object, before the version strategy
   * is applied; an unrecognised object is an error.
   */
  function BaseDir(cfg: Config, target: Target): (r: Result<Path>)
    ensures r.Failure? <==> target.Other?
    ensures r.Failure? ==> r.error == UnrecognisedDomainObject
    ensures target.NoTarget? ==> r == Success(cfg.globalCacheDir)
    ensures IsDirectoryTarget(target) ==>
      r == Success(MaybeProjectCacheDir(cfg.projectCacheDir, TargetDir(target)))
  {
    match target
    case NoTarget => Success(cfg.globalCacheDir)
    case Build(rootProjectDir) => Success(MaybeProjectCacheDir(cfg.projectCacheDir, rootProjectDir))
    case Dir(dir) => Success(MaybeProjectCacheDir(cfg.projectCacheDir, dir))
    case Other => Failure(UnrecognisedDomainObject)
  }

  /**
   * The switch on the version strategy: the base directory it selects and
   * the property map it hands on.
   */
  function ApplyVersionStrategy(base: Path, properties: Properties, strategy: VersionStrategy, version: string)
    : (r: (Path, Properties))
    ensures Under(base, r.0)
    ensures strategy.SharedCache? ==> r.0 == base
    ensures strategy.CachePerVersion? ==> r.0.segments[|base.segments|..] == Segments(version)
    ensures strategy.SharedCacheInvalidateOnVersionChange? ==>
      r.0.segments[|base.segments|..] == [NoVersionDirName]
    ensures !strategy.SharedCacheInvalidateOnVersionChange? ==> r.1 == properties
    ensures strategy.SharedCacheInvalidateOnVersionChange? ==>
      && r.1.Keys == properties.Keys + {VersionPropertyKey}
      && r.1[VersionPropertyKey] == Text(version)
      && forall k :: k in properties && k != VersionPropertyKey ==> r.1[k] == properties[k]
  {
    match strategy
    case SharedCache => (base, properties)
    case CachePerVersion => (Child(base, version), properties)
    case SharedCacheInvalidateOnVersionChange =>
      PlainNameIsOneSegment(NoVersionDirName);
      (Child(base, NoVersionDirName), properties[VersionPropertyKey := Text(version)])
  }

  /**
   * What `open` passes to the factory: the key's directory below the
   * version-adjusted base, laid out as `VersionLevel` says, and the
   * properties; or the error for an unrecognised target.
   */
  function ResolveLocation(cfg: Config, req: Request): (r: Result<Location>)
    ensures r.Failure? <==> req.target.Other?
    ensures r.Failure? ==> r.error == UnrecognisedDomainObject
    ensures r.Success? ==>
      && BaseDir(cfg, req.target).Success?
      && Under(BaseDir(cfg, req.target).value, r.value.directory)
      && r.value.directory.segments[|BaseDir(cfg, req.target).value.segments|..]
         == VersionLevel(req.versionStrategy, cfg.version) + Segments(req.key)
    ensures r.Success? ==>
      forall k :: k in req.properties && k != VersionPropertyKey ==>
        k in r.value.properties && r.value.properties[k] == req.properties[k]
  {
    match BaseDir(cfg, req.target)
    case Failure(e) => Failure(e)
    case Success(base) =>
      var (dir, properties) := ApplyVersionStrategy(base, req.properties, req.versionStrategy, cfg.version);
      Success(Location(Child(dir, req.key), properties))
  }

  /** With no target, the cache lives below the global cache directory whatever the project-cache-dir setting. */
  lemma NoTargetUsesGlobalCacheDir(cfg: Config, req: Request, projectCacheDir: string)
    requires req.target.NoTarget?
    ensures BaseDir(cfg, req.target) == Success(cfg.globalCacheDir)
    ensures ResolveLocation(cfg, req) == ResolveLocation(cfg.(projectCacheDir := projectCacheDir), req)
  {
  }

  /** An absolute project-cache-dir setting is the base directory for every build or file target. */
  lemma AbsoluteProjectCacheDirIgnoresTarget(cfg: Config, req: Request, other: Target)
    requires IsAbsolute(cfg.projectCacheDir)
    requires IsDirectoryTarget(req.target) && IsDirectoryTarget(other)
    ensures BaseDir(cfg, req.target) == BaseDir(cfg, other) == Success(FromString(cfg.projectCacheDir))
    ensures ResolveLocation(cfg, req) == ResolveLocation(cfg, req.(target := other))
  {
  }

  /**
   * A relative project-cache-dir setting is resolved below the target's
   * directory (for a build, its root project's directory).
   */
  lemma RelativeProjectCacheDirBelowTarget(cfg: Config, target: Target)
    requires !IsAbsolute(cfg.projectCacheDir) && IsDirectoryTarget(target)
    ensures BaseDir(cfg, target) == Success(Child(TargetDir(target), cfg.projectCacheDir))
    ensures target.Build? ==> BaseDir(cfg, target) == BaseDir(cfg, Dir(target.rootProjectDir))
  {
  }

  /**
   * Under a relative project-cache-dir setting, two build or file targets
   * share a cache directory exactly when they name the same directory.
   */
  lemma RelativeProjectCacheDirSeparatesTargets(cfg: Config, req: Request, other: Target)
    requires !IsAbsolute(cfg.projectCacheDir)
    requires IsDirectoryTarget(req.target) && IsDirectoryTarget(other)
    ensures ResolveLocation(cfg, req).value.directory == ResolveLocation(cfg, req.(target := other)).value.directory
            <==> TargetDir(req.target) == TargetDir(other)
  {
  }

  /** `CachePerVersion` puts the cache in `base/version/key` and hands on the properties unchanged. */
  lemma CachePerVersionLayout(cfg: Config, req: Request)
    requires req.versionStrategy.CachePerVersion? && !req.target.Other?
    ensures ResolveLocation(cfg, req)
            == Success(Location(Child(Child(BaseDir(cfg, req.target).value, cfg.version), req.key), req.properties))
  {
  }

  /**
   * Under `CachePerVersion`, two versions share a directory exactly when
   * they name the same path; two plain version names give directories that
   * differ only in the version segment.
   */
  lemma CachePerVersionIsolatesVersions(cfg: Config, req: Request, otherVersion: string)
    requires req.versionStrategy.CachePerVersion? && !req.target.Other?
    ensures
      var d1 := ResolveLocation(cfg, req).value.directory;
      var d2 := ResolveLocation(cfg.(version := otherVersion), req).value.directory;
      d1 == d2 <==> Segments(cfg.version) == Segments(otherVersion)
    ensures PlainName(cfg.version) && PlainName(otherVersion) ==>
      var d1 := ResolveLocation(cfg, req).value.directory;
      var d2 := ResolveLocation(cfg.(version := otherVersion), req).value.directory;
      var n := |BaseDir(cfg, req.target).value.segments|;
      && d1.absolute == d2.absolute
      && |d1.segments| == |d2.segments| > n
      && d1.segments[n] == cfg.version && d2.segments[n] == otherVersion
      && (forall i :: 0 <= i < |d1.segments| && i != n ==> d1.segments[i] == d2.segments[i])
      && (d1 == d2 <==> cfg.version == otherVersion)
  {
    var base := BaseDir(cfg, req.target).value;
    assert BaseDir(cfg.(version := otherVersion), req.target).value == base;
    var d1 := ResolveLocation(cfg, req).value.directory;
    var d2 := ResolveLocation(cfg.(version := otherVersion), req).value.directory;
    assert d1 == Path(base.absolute, base.segments + Segments(cfg.version) + Segments(req.key));
    assert d2 == Path(base.absolute, base.segments + Segments(otherVersion) + Segments(req.key));
    if PlainName(cfg.version) && PlainName(otherVersion) {
      PlainNameIsOneSegment(cfg.version);
      PlainNameIsOneSegment(otherVersion);
    }
  }

  /** `SharedCache` puts the cache in `base/key` for every version and hands on the properties unchanged. */
  lemma SharedCacheIgnoresVersion(cfg: Config, req: Request, otherVersion: string)
    requires req.versionStrategy.SharedCache? && !req.target.Other?
    ensures ResolveLocation(cfg, req)
            == Success(Location(Child(BaseDir(cfg, req.target).value, req.key), req.properties))
    ensures ResolveLocation(cfg, req) == ResolveLocation(cfg.(version := otherVersion), req)
  {
  }

  /**
   * `SharedCacheInvalidateOnVersionChange` puts the cache in
   * `base/noVersion/key` for every version and records the version in the
   * properties, so two versions share the directory but not the properties.
   */
  lemma SoftInvalidation(cfg: Config, req: Request, otherVersion: string)
    requires req.versionStrategy.SharedCacheInvalidateOnVersionChange? && !req.target.Other?
    ensures
      var l1 := ResolveLocation(cfg, req).value;
      var l2 := ResolveLocation(cfg.(version := otherVersion), req).value;
      && l1.directory == l2.directory
      && l1.directory == Child(Child(BaseDir(cfg, req.target).value, NoVersionDirName), req.key)
      && l1.properties == req.properties[VersionPropertyKey := Text(cfg.version)]
      && (l1.properties == l2.properties <==> cfg.version == otherVersion)
  {
  }

  /**
   * Two keys share a directory exactly when they name the same path; for
   * plain names, exactly when they are the same key.
   */
  lemma DistinctKeysDistinctDirectories(cfg: Config, req: Request, otherKey: string)
    requires !req.target.Other?
    ensures ResolveLocation(cfg, req).value.directory == ResolveLocation(cfg, req.(key := otherKey)).value.directory
            <==> Segments(req.key) == Segments(otherKey)
    ensures PlainName(req.key) && PlainName(otherKey) ==>
      (ResolveLocation(cfg, req).value.directory == ResolveLocation(cfg, req.(key := otherKey)).value.directory
       <==> req.key == otherKey)
  {
  }

  /**
   * Keys are not checked: "a", "a/" and "/a" name the same cache directory,
   * and the empty key names the version-adjusted base directory itself.
   */
  lemma UncheckedKeysShareDirectories(cfg: Config, req: Request)
    requires !req.target.Other?
    ensures
      var dirA := ResolveLocation(cfg, req.(key := "a")).value.directory;
      && ResolveLocation(cfg, req.(key := "a/")).value.directory == dirA
      && ResolveLocation(cfg, req.(key := "/a")).value.directory == dirA
    ensures ResolveLocation(cfg, req.(key := "")).value.directory
            == ApplyVersionStrategy(BaseDir(cfg, req.target).value, req.properties, req.versionStrategy, cfg.version).0
  {
    PlainNameIsOneSegment("a");
    assert FirstSeparator("a/") == 1 && "a/"[..1] == "a" && "a/"[2..] == "";
    assert FirstSeparator("/a") == 0 && "/a"[1..] == "a";
  }

  /**
   * For one key and base, SharedCache never shares a directory with
   * SharedCacheInvalidateOnVersionChange, and CachePerVersion shares one with
   * another strategy only for a version that names no directory level or
   * names the legacy `noVersion` level.
   */
  lemma StrategiesSeparateDirectories(cfg: Config, req: Request)
    requires !req.target.Other?
    ensures
      var shared := ResolveLocation(cfg, req.(versionStrategy := SharedCache)).value.directory;
      var perVersion := ResolveLocation(cfg, req.(versionStrategy := CachePerVersion)).value.directory;
      var invalidate := ResolveLocation(cfg, req.(versionStrategy := SharedCacheInvalidateOnVersionChange)).value.directory;
      && shared != invalidate
      && (perVersion == shared <==> Segments(cfg.version) == [])
      && (perVersion == invalidate <==> Segments(cfg.version) == [NoVersionDirName])
  {
  }

  /** An unrecognised target object yields the error and no location. */
  lemma UnrecognisedTargetFails(cfg: Config, req: Request)
    requires req.target.Other?
    ensures ResolveLocation(cfg, req) == Failure(UnrecognisedDomainObject)
  {
  }
}
