/**
 * `DefaultCacheRepository` and its `PersistentCacheBuilder`: the stateful
 * part. The repository holds its configuration; each builder accumulates a
 * key, properties, a target object and a version strategy through fluent
 * setters, and `Open` resolves the location (as `CacheLocation.ResolveLocation`
 * specifies) and hands it to the cache factory.
 */
module CacheRepository {
  import opened Paths
  import opened CacheLocation

  /** The usage mode the repository was created with; only passed on to the factory. */
  datatype CacheUsage = CacheUsage(mode: string)

  /** The handle the factory gives back for one open call. */
  datatype PersistentCache = PersistentCache(id: nat)

  /** The arguments of one call to the factory. */
  datatype OpenCall = OpenCall(cacheDir: Path, usage: CacheUsage, properties: Properties)

  /**
   * The cache factory, an outside collaborator: every call is recorded. Its
   * contract lets a call fail (a lock that cannot be taken, a directory that
   * cannot be used), so callers are proved correct for either outcome; a
   * call that succeeds answers with a handle naming the call.
   */
  class CacheFactory {
    var calls: seq<OpenCall>

    constructor ()
      ensures calls == []
    {
      calls := [];
    }

    method Open(cacheDir: Path, usage: CacheUsage, properties: Properties) returns (result: Result<PersistentCache>)
      modifies this
      ensures calls == old(calls) + [OpenCall(cacheDir, usage, properties)]
      ensures result.Success? ==> result.value == PersistentCache(|old(calls)|)
      ensures result.Failure? ==> result.error == CacheOpenFailed
    {
      result := Success(PersistentCache(|calls|));
      calls := calls + [OpenCall(cacheDir, usage, properties)];
    }
  }

  class DefaultCacheRepository {
    const version: string
    const globalCacheDir: Path
    const cacheUsage: CacheUsage
    const projectCacheDir: string
    const factory: CacheFactory

    /** The version is the running Gradle's, supplied by the caller. */
    constructor (userHomeDir: Path, projectCacheDir: string, cacheUsage: CacheUsage, factory: CacheFactory, version: string)
      ensures this.globalCacheDir == Child(userHomeDir, CachesDirName)
      ensures this.projectCacheDir == projectCacheDir && this.cacheUsage == cacheUsage
      ensures this.factory == factory && this.version == version
    {
      this.version := version;
      this.projectCacheDir := projectCacheDir;
      this.factory := factory;
      this.globalCacheDir := Child(userHomeDir, CachesDirName);
      this.cacheUsage := cacheUsage;
    }

    /** The configuration the resolver reads. */
    function ResolverConfig(): Config {
      Config(globalCacheDir, projectCacheDir, version)
    }

    /** A fresh builder for `key`: no properties, no target, one directory per version. */
    method Cache(key: string) returns (builder: PersistentCacheBuilder)
      ensures fresh(builder) && builder.repository == this
      ensures builder.Request() == Request(key, map[], NoTarget, CachePerVersion)
    {
      builder := new PersistentCacheBuilder(this, key);
    }
  }

  class PersistentCacheBuilder {
    const repository: DefaultCacheRepository
    const key: string
    var properties: Properties
    var target: Target
    var versionStrategy: VersionStrategy

    constructor (repository: DefaultCacheRepository, key: string)
      ensures this.repository == repository && this.key == key
      ensures properties == map[] && target == NoTarget && versionStrategy == CachePerVersion
    {
      this.repository := repository;
      this.key := key;
      properties := map[];
      target := NoTarget;
      versionStrategy := CachePerVersion;
    }

    /** The builder's current state. */
    function Request(): Request
      reads this
    {
      CacheLocation.Request(key, properties, target, versionStrategy)
    }

    /** Replaces the properties; nothing else changes. */
    method WithProperties(properties: Properties) returns (self: PersistentCacheBuilder)
      modifies this
      ensures self == this
      ensures Request() == old(Request()).(properties := properties)
    {
      this.properties := properties;
      self := this;
    }

    /** Replaces the version strategy; nothing else changes. */
    method WithVersionStrategy(strategy: VersionStrategy) returns (self: PersistentCacheBuilder)
      modifies this
      ensures self == this
      ensures Request() == old(Request()).(versionStrategy := strategy)
    {
      this.versionStrategy := strategy;
      self := this;
    }

    /** Replaces the target object; nothing else changes. */
    method ForObject(target: Target) returns (self: PersistentCacheBuilder)
      modifies this
      ensures self == this
      ensures Request() == old(Request()).(target := target)
    {
      this.target := target;
      self := this;
    }

    /**
     * Resolves the cache directory and properties and opens the cache there.
     * An unrecognised target fails before the factory is called; a failure of
     * the factory is passed on. The builder itself is left as it was.
     */
    method Open() returns (result: Result<PersistentCache>)
      modifies repository.factory
      ensures Request() == old(Request())
      ensures ResolveLocation(repository.ResolverConfig(), Request()).Failure? ==>
        && result == Failure(UnrecognisedDomainObject)
        && repository.factory.calls == old(repository.factory.calls)
      ensures ResolveLocation(repository.ResolverConfig(), Request()).Success? ==>
        var location := ResolveLocation(repository.ResolverConfig(), Request()).value;
        && repository.factory.calls
           == old(repository.factory.calls) + [OpenCall(location.directory, repository.cacheUsage, location.properties)]
        && (result.Success? ==> result.value == PersistentCache(|old(repository.factory.calls)|))
        && (result.Failure? ==> result.error == CacheOpenFailed)
    {
      var cacheBaseDir: Path;
      var properties := this.properties;
      match target {
        case NoTarget =>
          cacheBaseDir := repository.globalCacheDir;
        case Build(rootProjectDir) =>
          cacheBaseDir := MaybeProjectCacheDir(repository.projectCacheDir, rootProjectDir);
        case Dir(dir) =>
          cacheBaseDir := MaybeProjectCacheDir(repository.projectCacheDir, dir);
        case Other =>
          return Failure(UnrecognisedDomainObject);
      }
      match versionStrategy {
        case SharedCache =>
        case CachePerVersion =>
          cacheBaseDir := Child(cacheBaseDir, repository.version);
        case SharedCacheInvalidateOnVersionChange =>
          cacheBaseDir := Child(cacheBaseDir, NoVersionDirName);
          properties := properties[VersionPropertyKey := Text(repository.version)];
      }
      result := repository.factory.Open(Child(cacheBaseDir, key), repository.cacheUsage, properties);
    }
  }

  /**
   * Opening the same builder twice: for an unrecognised target both opens
   * fail and the factory is never called; otherwise the factory is called
   * twice, with the same arguments, whatever each call returns.
   */
  method ReopenPassesSameArguments(builder: PersistentCacheBuilder)
    returns (first: Result<PersistentCache>, second: Result<PersistentCache>)
    modifies builder.repository.factory
    ensures builder.Request().target.Other? ==>
      && first == second == Failure(UnrecognisedDomainObject)
      && builder.repository.factory.calls == old(builder.repository.factory.calls)
    ensures !builder.Request().target.Other? ==>
      var n := |old(builder.repository.factory.calls)|;
      && |builder.repository.factory.calls| == n + 2
      && builder.repository.factory.calls[n] == builder.repository.factory.calls[n + 1]
  {
    first := builder.Open();
    second := builder.Open();
  }

  /**
   * A whole builder chain: an absolute project-cache-dir setting, a file
   * target, and a version strategy set twice (the second call wins). The
   * factory receives `<setting>/noVersion/<key>` with the version recorded,
   * whatever the file target is.
   */
  method OpenWithAbsoluteProjectCacheDir(
    userHomeDir: Path, projectCacheDir: string, usage: CacheUsage, version: string, key: string, dir: Path)
    returns (call: OpenCall)
    requires IsAbsolute(projectCacheDir)
    ensures call == OpenCall(Path(true, Segments(projectCacheDir) + [NoVersionDirName] + Segments(key)), usage,
                             map[VersionPropertyKey := Text(version)])
  {
    var factory := new CacheFactory();
    var repository := new DefaultCacheRepository(userHomeDir, projectCacheDir, usage, factory, version);
    var builder := repository.Cache(key);
    builder := builder.WithVersionStrategy(CachePerVersion);
    builder := builder.ForObject(Dir(dir));
    builder := builder.WithVersionStrategy(SharedCacheInvalidateOnVersionChange);
    var result := builder.Open();
    call := factory.calls[0];
  }
}
