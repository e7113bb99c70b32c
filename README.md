# Gradle persistent-cache location resolver, in Dafny

This project models how Gradle's `DefaultCacheRepository` decides where a
persistent cache lives. A caller asks the repository for a cache by key and
gets a `PersistentCacheBuilder`. It then sets properties, a version strategy
and a target object on the builder. `open` turns these, together with the
repository's user-home cache directory, its project-cache-dir setting and the
running Gradle version, into one directory and one property map, and hands
both to the cache factory.

Files:

- `paths.dfy` (module `Paths`): `java.io.File` on a Unix-style file system. A
  path is an absolute flag and a sequence of names. A path string is split at
  `/`, empty names are dropped as `java.io.File` normalises them, and it is
  absolute when it starts with `/` (`IsAbsolute`, for `new File(s).isAbsolute()`).
  `FromString` is `new File(s)`, and `Child` is `new File(parent, child)`, which
  puts the child's names below the parent. Two paths are the same when their
  absoluteness and their normalised names are the same.
- `cache_location.dfy` (module `CacheLocation`): the resolution rules as pure
  functions (`MaybeProjectCacheDir`, `BaseDir`, `ApplyVersionStrategy`,
  `ResolveLocation`), with `VersionLevel` as the reference for the directory
  layout `<base>[/<version>|/noVersion]/<key>`. Lemmas state the layout rules
  that follow.
- `cache_repository.dfy` (module `CacheRepository`): the repository and builder
  as classes. The fluent setters overwrite fields. `Open` is written step by
  step as in the source: it reassigns a local base directory and updates a
  local copy of the properties. It is proved to pass the factory exactly what
  `ResolveLocation` specifies. The factory is a class that records the
  arguments of every call; its contract allows each call to fail.

The version property key is the code's literal `gradle.version`
(`DefaultCacheRepository.java:94`). The key is not validated
(`DefaultCacheRepository.java:41-53`), so there is no empty-key error, and
keys that normalise to the same names share a directory.

## Model

| member | source | states |
|---|---|---|
| `Paths.Segments` | subprojects/core/src/main/groovy/org/gradle/cache/DefaultCacheRepository.java:97 | A path string's names after `java.io.File` normalisation. Every name is non-empty and has no separator. |
| `Paths.SegmentsSplit` | subprojects/core/src/main/groovy/org/gradle/cache/DefaultCacheRepository.java:97 | Splitting a path string at any separator splits its names: the names of `a/b` are the names of `a` followed by those of `b`. With the empty string having no names and a plain name being one name, this fixes the names of every string. |
| `Paths.PlainNameIsOneSegment` | subprojects/core/src/main/groovy/org/gradle/cache/DefaultCacheRepository.java:97 | A non-empty name without a separator, such as a Gradle version or an ordinary key, is exactly one directory level. |
| `Paths.Child` | subprojects/core/src/main/groovy/org/gradle/cache/DefaultCacheRepository.java:89-93 | `new File(parent, child)` keeps the parent's absoluteness and puts exactly the child's normalised names below it. A plain name adds exactly one level named by the child. |
| `CacheLocation.MaybeProjectCacheDir` | subprojects/core/src/main/groovy/org/gradle/cache/DefaultCacheRepository.java:100-105 | An absolute project-cache-dir setting is used as the path it names. A relative one lies below the candidate parent, and the names after the parent are exactly the setting's normalised names. |
| `CacheLocation.BaseDir` | subprojects/core/src/main/groovy/org/gradle/cache/DefaultCacheRepository.java:73-83 | Resolution fails exactly for an unrecognised target object, with the unrecognised-object error. No target gives the global cache directory. A build target and a file target both go through `maybeProjectCacheDir`, the build with its root project's directory. |
| `CacheLocation.ApplyVersionStrategy` | subprojects/core/src/main/groovy/org/gradle/cache/DefaultCacheRepository.java:84-96 | The result's names always extend the base's names. SharedCache keeps the base. CachePerVersion adds the version's names. SharedCacheInvalidateOnVersionChange adds one level named `noVersion`, and adds `gradle.version` mapped to the version while keeping every other property. The other two strategies leave the properties unchanged. |
| `CacheLocation.ResolveLocation` | subprojects/core/src/main/groovy/org/gradle/cache/DefaultCacheRepository.java:70-97 | Fails exactly for an unrecognised target. Otherwise the directory's names extend those of the target's base directory, and the names below the base follow the layout `[<version>|noVersion]/<key>` of the strategy. Every builder property other than `gradle.version` is passed on unchanged. |
| `CacheLocation.NoTargetUsesGlobalCacheDir` | subprojects/core/src/main/groovy/org/gradle/cache/DefaultCacheRepository.java:73-74 | With no target the base is the global cache directory, and the location does not depend on the project-cache-dir setting. |
| `CacheLocation.AbsoluteProjectCacheDirIgnoresTarget` | subprojects/core/src/main/groovy/org/gradle/cache/DefaultCacheRepository.java:100-102 | With an absolute setting, every build or file target has the path the setting names as its base, so any two such targets resolve to the same location. |
| `CacheLocation.RelativeProjectCacheDirBelowTarget` | subprojects/core/src/main/groovy/org/gradle/cache/DefaultCacheRepository.java:75-80 | With a relative setting the base is `new File(targetDir, setting)`. A build target resolves as the file of its root project directory would. |
| `CacheLocation.RelativeProjectCacheDirSeparatesTargets` | subprojects/core/src/main/groovy/org/gradle/cache/DefaultCacheRepository.java:104 | With a relative setting, two build or file targets get the same cache directory path if and only if their directory paths are equal. |
| `CacheLocation.CachePerVersionLayout` | subprojects/core/src/main/groovy/org/gradle/cache/DefaultCacheRepository.java:88-97 | CachePerVersion opens `base/version/key` with the builder's properties unchanged. |
| `CacheLocation.CachePerVersionIsolatesVersions` | subprojects/core/src/main/groovy/org/gradle/cache/DefaultCacheRepository.java:88-89 | Under CachePerVersion, two versions give the same directory path if and only if they have the same normalised names. For plain version names, the two directories have equal length and agree everywhere except the version level, and they are equal if and only if the versions are equal. |
| `CacheLocation.SharedCacheIgnoresVersion` | subprojects/core/src/main/groovy/org/gradle/cache/DefaultCacheRepository.java:85-87 | SharedCache opens `base/key` with the builder's properties unchanged, and the location is the same for every version. |
| `CacheLocation.SoftInvalidation` | subprojects/core/src/main/groovy/org/gradle/cache/DefaultCacheRepository.java:91-95 | SharedCacheInvalidateOnVersionChange opens `base/noVersion/key` for every version. The properties are the builder's with `gradle.version` set to the version, so they are equal across two versions if and only if the versions are equal. |
| `CacheLocation.DistinctKeysDistinctDirectories` | subprojects/core/src/main/groovy/org/gradle/cache/DefaultCacheRepository.java:97 | With everything else fixed, two keys give the same directory path if and only if their normalised names are equal. For keys that are plain names (non-empty, no separator), that means if and only if they are the same key. |
| `CacheLocation.UncheckedKeysShareDirectories` | subprojects/core/src/main/groovy/org/gradle/cache/DefaultCacheRepository.java:41-53 | Keys are not checked. The keys `a`, `a/` and `/a` open the same directory, and the empty key opens the version-adjusted base directory itself. |
| `CacheLocation.StrategiesSeparateDirectories` | subprojects/core/src/main/groovy/org/gradle/cache/DefaultCacheRepository.java:84-96 | For one key and target, SharedCache and SharedCacheInvalidateOnVersionChange never share a directory. CachePerVersion shares SharedCache's directory if and only if the version normalises to no names (for example the empty string), and shares the invalidating strategy's directory path if and only if the version normalises to the single name `noVersion`. |
| `CacheLocation.UnrecognisedTargetFails` | subprojects/core/src/main/groovy/org/gradle/cache/DefaultCacheRepository.java:81-82 | A target that is neither null, a build nor a file gives the unrecognised-object error. |
| `CacheRepository.CacheFactory.Open` | subprojects/core/src/main/groovy/org/gradle/cache/DefaultCacheRepository.java:97 | The factory call appends its exact arguments to the record of calls. On success it returns a handle naming the call. On failure it reports that the cache could not be opened. |
| `CacheRepository.DefaultCacheRepository.constructor` | subprojects/core/src/main/groovy/org/gradle/cache/DefaultCacheRepository.java:34-39 | The global cache directory is `new File(userHomeDir, "caches")`. The project-cache-dir setting, usage mode, factory and version are stored as given. |
| `CacheRepository.DefaultCacheRepository.Cache` | subprojects/core/src/main/groovy/org/gradle/cache/DefaultCacheRepository.java:41-43 | Returns a new builder for this repository with the key, no properties, no target and the CachePerVersion strategy. |
| `CacheRepository.PersistentCacheBuilder.constructor` | subprojects/core/src/main/groovy/org/gradle/cache/DefaultCacheRepository.java:46-53 | A new builder has the key, an empty property map, no target and the CachePerVersion strategy. |
| `CacheRepository.PersistentCacheBuilder.WithProperties` | subprojects/core/src/main/groovy/org/gradle/cache/DefaultCacheRepository.java:55-58 | Replaces the properties, changes no other field, and returns the same builder. |
| `CacheRepository.PersistentCacheBuilder.WithVersionStrategy` | subprojects/core/src/main/groovy/org/gradle/cache/DefaultCacheRepository.java:60-63 | Replaces the version strategy, changes no other field, and returns the same builder. |
| `CacheRepository.PersistentCacheBuilder.ForObject` | subprojects/core/src/main/groovy/org/gradle/cache/DefaultCacheRepository.java:65-68 | Replaces the target object, changes no other field, and returns the same builder. |
| `CacheRepository.PersistentCacheBuilder.Open` | subprojects/core/src/main/groovy/org/gradle/cache/DefaultCacheRepository.java:70-98 | Leaves the builder as it was. For an unrecognised target it fails with that error and does not call the factory. Otherwise it calls the factory exactly once, with `ResolveLocation`'s directory and properties and the repository's usage mode, and passes on the factory's outcome. |
| `CacheRepository.ReopenPassesSameArguments` | subprojects/core/src/main/groovy/org/gradle/cache/DefaultCacheRepository.java:70-97 | Opening one builder twice either fails both times with the unrecognised-object error and no factory call, or calls the factory twice with identical arguments, whatever those calls return. |
| `CacheRepository.OpenWithAbsoluteProjectCacheDir` | subprojects/core/src/main/groovy/org/gradle/cache/DefaultCacheRepository.java:55-97 | A full chain with an absolute setting, a file target and the strategy set twice (last call wins) hands the factory `<setting>/noVersion/<key>` and exactly the property `gradle.version` = version, whatever the file target is. |

## Left out

- `CacheRepository.CacheFactory.Open`: physical cache creation, locking, cross-process exclusion and validation by usage mode belong to the factory and `PersistentCache`. The factory is modelled as a call whose arguments are recorded and whose contract allows it to fail. The stand-in body always succeeds, and the kinds of factory errors are not told apart. Its handle is the call's index, and `open(...).getCache()` is one step.
- `CacheRepository.PersistentCacheBuilder.Open`: null arguments, and the `NullPointerException`s they raise, are not modelled, because the Dafny types have no null. These are a null property map (`new HashMap` at :72), a null version strategy (`switch` at :84), a null key (`new File` at :97) and a null project-cache-dir setting (`new File` at :101). A null target is modelled: it is `NoTarget`.
- `CacheRepository.DefaultCacheRepository.constructor`: a null `userHomeDir` raises no exception in Java, and the global cache directory becomes the relative path `caches` (:37). The model's home directory is always a path, so it cannot express this case.
- `Gradle.getRootProject().getProjectDir()` is an outside lookup. A build target carries its root project directory as data.
- `GradleVersion.current()` is an outside lookup. The version is a constructor parameter of the repository.
- `java.io.File` is modelled for a Unix-style file system only: Windows drive letters, UNC paths and backslashes are not. `new File(parent, child)` with a parent whose path is empty resolves the child against `/`; the model keeps such a result relative. Names are compared as strings; case-insensitive file systems are not modelled. Paths are compared by their normalised names. `.`, `..` and symbolic links are not resolved, so "the same directory" in the lemmas means the same normalised path, and "under the base" means that the names extend the base's names: a key or version holding `..` can lead outside the base on disk. A key made only of separators, such as `/`, gives Java the path `<base>/`, which the model treats as `<base>`.
- The exception message built from the target object is left out. Only the failure itself is modelled.
- `withProperties` stores the caller's map by reference. A caller that changes that map before `open` would change what `open` copies. Dafny maps are values, so this aliasing is not modelled. The copy that `open` makes, and the fact that it never changes the caller's map, are modelled.
- The usage mode is an opaque value that the repository only passes to the factory.
- `TwirlCompiler.java` is a reflection bridge to an outside compiler and is not part of this model.
