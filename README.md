# Mod-package registry of XBam.Mods, modelled in Dafny

XBam.Mods lets a host application load mods. A mod is a package directory
under `<data folder>/mods`. Its `_plugins` sub-folder holds plugin assemblies
whose archetypes, enumerations, model types and component types join the
host's universe. This project models the three files that keep track of
what each mod contributed.

- **`ModPackage`** (`Packages`, `mod_package.dfy`) is the registry of one
  package. It holds:
  - a map from namespaced resource key (`Key + "::" + localId`) to resource;
  - four pairs of "all"/"base" typed sets;
  - the set of plugin assemblies that contributed to it.

  It offers keyed adds from plugins, typed lookups, and removal with a
  reference count over the base sets. The class updates its fields in place.
  Each method is proved against a pure transition on `PackageState`
  (`AfterAdd`, `AfterRemoval`), and the lemmas about those transitions carry
  the properties.
- **`ModContext`** (`Contexts`, `mod_context.dfy`, with the pure helpers in
  `Paths` and `LoadOrder`) is the mod context of a universe. It covers:
  - deriving a package key from a plugin's path;
  - finding a package by its key or by a resource key;
  - the two discovery routines, which hand plugin files to the loader with
    consecutive indices and create the packages they meet;
  - the four loader callbacks, which memoise each assembly's package key,
    get or create the package and register the resource;
  - unloading an archetype.

  The callbacks are specified by the package states they leave
  (`PackageStates`, `Registered`, `Unloaded`). Discovery is specified by the
  order it hands files on (`FilteredOrder`, `FullScanOrder`) and the index map
  it fills (`IndexMap`).
- **`GetMod`** (`ContextExtensions`, `context_extensions.dfy`) finds a package
  by a package or resource key, or raises `KeyNotFoundException`.

The C# exceptions become `Result`/`Outcome` values (`wrappers.dfy`), and
`null` becomes `Option`. A resource (`resources.dfy`) is reduced to what the
registry inspects:
- its kind;
- its kind-specific local id;
- its assembly;
- its base predicate;
- the `IModel`/`IComponent` flags of a type.

In these places the model follows the code as written:
- the typed-set removal runs only while the resource's assembly is still a
  plugin of the package (ModPackage.cs:297, 302, 314);
- `GetModPackageKey` trims separators from both ends, and only when a
  separator follows the root (ModContext.cs:79-81);
- the enumeration callback tests the assembly declaring the property against
  the core assemblies and memoises on it, while the plugin it records is the
  enumeration's own assembly (ModContext.cs:229-231, ModPackage.cs:343);
- removal finds the entry to remove as intended, by value. The code as
  written does not (see Findings).

## Model

| member | source | states |
|---|---|---|
| Packages.MakeResourceKey | ModPackage.cs:147-160 | a resource key is the package key, then `"::"`, then the local id, each found back at its place; `ResourceKeyRoundTrip` splits it back |
| Packages.BeforeKeySeparator | ModContext.cs:65 | `Split("::").First()` is the longest prefix containing no `"::"`: it is all of the string or stops right at the first `"::"` |
| Packages.ResourceKeyRoundTrip | ModPackage.cs:147-160 | for a package key without `':'`, the text before the first `"::"` of `Key + "::" + localId` is `Key`, and the text after the separator is `localId` |
| Packages.ResourceKeyInjective | ModPackage.cs:147-160 | distinct local ids give distinct resource keys in one package |
| Packages.AfterAdd | ModPackage.cs:333-367 | the package state after `_add*FromPlugin`; what it means is stated by `AddRegistersResource`, `DuplicateAddKeepsPlugin` and `AddPreservesInv` |
| Packages.AddOutcome | ModPackage.cs:283-286 | whether `_add*FromPlugin` throws on a taken resource key; stated by `AddRegistersResource` and `DuplicateAddKeepsPlugin` |
| Packages.AfterRemoval | ModPackage.cs:291-331 | after intended removal the resource's key is gone and the package's plugins only shrink; `RemovePreservesInv` and `ReferenceCounting` state the rest |
| Packages.WithoutTyped | ModPackage.cs:295-318 | the typed-set stage leaves the map and the plugins alone; `WithoutTypedBases` states what it takes out |
| Packages.AddPreservesInv | ModPackage.cs:333-367 | adding keeps the package invariant, whether or not the key was taken: base ⊆ all, typed sets hold only their kind, every key is the key of its resource, and every base resource's assembly is a plugin |
| Packages.RemovePreservesInv | ModPackage.cs:291-331 | intended removal keeps the same invariant; in particular an assembly is dropped only when no base resource still needs it |
| Packages.AddRegistersResource | ModPackage.cs:333-367 | an add under a free key succeeds, stores the resource under its key, grows the map by one, puts the resource in its kind's "all" set, puts it in the "base" set iff the base predicate holds (or it was there), and records its assembly |
| Packages.DuplicateAddKeepsPlugin | ModPackage.cs:283-286 | an add under a taken key throws the duplicate-key error, and the map and typed sets stay unchanged, but the assembly has already joined the plugin set, so the state does change when it was new |
| Packages.AddAllDistinctSize | ModPackage.cs:283-286 | adding resources with pairwise distinct, free keys grows the map by their number |
| Packages.FoundEntryIsKeyed | ModPackage.cs:292-293 | under the invariant, the entry holding a resource is the one under its resource key |
| Packages.WithoutTypedBases | ModPackage.cs:295-318 | the typed-set stage of removal takes exactly the removed resource out of the base resources, when its kind and flags select the sets it was added to |
| Packages.ReferenceCounting | ModPackage.cs:320-328 | with two base resources from one assembly and no other, removing the first keeps the assembly a plugin and removing the second drops it |
| Packages.NonBaseDoesNotKeepModule | ModPackage.cs:320-328 | when the last base resource of an assembly is removed, the assembly is dropped even though a non-base resource of it is still stored |
| Packages.LingeringAfterModuleDropped | ModPackage.cs:295-318 | removing a resource whose assembly is no longer a plugin drops its entry but leaves it in its "all" set, so the typed sets are not views of the map |
| Packages.RemoveResourceAsWritten | ModPackage.cs:291-293 | removal as written either completes or throws `ArgumentNullException` on the null key; `RemoveResourceAsWrittenAlwaysThrows` shows it always throws |
| Packages.RemoveResourceAsWrittenAlwaysThrows | ModPackage.cs:292-293 | as written, the lookup predicate matches no entry, so removal throws `ArgumentNullException` even for a resource the package holds, which the intended removal takes out |
| Packages.PairEquals | ModPackage.cs:292 | the `Equals` the lookup calls on an entry of `_resources`: a boxed key-value pair equals only a pair with the same key and value, never the boxed resource itself (`Boxed`); `RemoveResourceAsWrittenAlwaysThrows` draws the consequence |
| Packages.PluginRegistry.constructor | ModContext.cs:47-48 | the context-wide plugin set starts empty |
| Packages.PluginRegistry.Add | ModContext.cs:258-260 | `_addPlugin` adds the assembly to the context-wide set |
| Packages.ModPackage.constructor | ModPackage.cs:139-142 | a new package has the given key, reports into the given registry, is empty and satisfies the invariant |
| Packages.ModPackage.IsEmpty | ModPackage.cs:13-14 | an empty package satisfies the invariant and has no plugin |
| Packages.ModPackage.PluginAssemblies | ModPackage.cs:43-44 | under the package invariant, every base resource's assembly is among the package's plugins |
| Packages.ModPackage.GetArchetype | ModPackage.cs:167-168 | returns the stored resource iff the key is present and holds an archetype; a missing key throws key-not-found, another kind throws invalid-cast |
| Packages.ModPackage.TryToGetArchetype | ModPackage.cs:173-176 | true, with the stored value, iff the key is present and holds an archetype; otherwise false with a null value |
| Packages.ModPackage.GetEnumeration | ModPackage.cs:181-182 | as `GetArchetype`, for enumerations |
| Packages.ModPackage.TryToGetEnumeration | ModPackage.cs:187-190 | as `TryToGetArchetype`, for enumerations |
| Packages.ModPackage.GetModelType | ModPackage.cs:195-201 | returns the stored resource iff it is a type that is a model and not a component; a missing key throws key-not-found, anything else invalid-cast |
| Packages.ModPackage.TryToGetModelType | ModPackage.cs:206-222 | true with the type iff the stored object is a type that is a model and not a component; otherwise false with null |
| Packages.ModPackage.GetComponentType | ModPackage.cs:227-232 | returns the stored resource iff it is a type that is a component; missing key and wrong kind throw as for the other lookups |
| Packages.ModPackage.TryToGetComponentType | ModPackage.cs:237-251 | true with the type iff the stored object is a component type; otherwise false with null |
| Packages.ModPackage.GetResourceByKey | ModPackage.cs:256-257 | the stored resource iff the key is present, key-not-found otherwise |
| Packages.ModPackage.TryToGetResourceByKey | ModPackage.cs:262-263 | true with the stored resource iff the key is present |
| Packages.ModPackage.AddResource | ModPackage.cs:283-286 | `Dictionary.Add`: on a taken key, a duplicate-key error and the map unchanged; otherwise the map gains exactly that entry |
| Packages.ModPackage.AddPlugin | ModPackage.cs:369-372 | the assembly joins the package's plugins and the context-wide set |
| Packages.ModPackage.AddArchetypeFromPlugin | ModPackage.cs:333-340 | keeps the invariant; the new state is `AfterAdd` of the old one, the outcome is the duplicate-key check, and the context-wide set gains the assembly |
| Packages.ModPackage.AddEnumerationFromPlugin | ModPackage.cs:342-349 | as above, for an enumeration |
| Packages.ModPackage.AddModelTypeFromPlugin | ModPackage.cs:351-358 | as above, for a model type |
| Packages.ModPackage.AddComponentTypeFromPlugin | ModPackage.cs:360-367 | as above, for a component type |
| Packages.ModPackage.RemoveResource | ModPackage.cs:291-331 | intended removal: for a held resource, succeeds, keeps the invariant and leaves `AfterRemoval` of the old state; for one no entry holds, throws on the null key and changes nothing; the package's plugins only shrink |
| Packages.ModPackage.RemoveFromTypedSets | ModPackage.cs:295-318 | the typed sets lose the resource as its kind and flags select, and only while its assembly is a plugin |
| Packages.ModPackage.DropPluginIfUnreferenced | ModPackage.cs:320-328 | the assembly stays a plugin iff one of the four base sets still holds a resource from it |
| Packages.TryAgreesWithGet | ModPackage.cs:167-263 | for every kind, the try-form succeeds iff the throwing form returns, and with the same resource |
| Packages.ModelAndComponentLookupsDisjoint | ModPackage.cs:195-251 | no key answers both as a model type and as a component type; a model-type answer is never a component |
| Paths.TrimStart | ModContext.cs:80 | the result is a suffix of the input; everything cut off is a separator, and what is left does not start with one |
| Paths.TrimEnd | ModContext.cs:80 | the result is a prefix of the input; everything cut off is a separator, and what is left does not end with one |
| Paths.Trim | ModContext.cs:80 | `Trim(FileSeperators)` is no longer than its input and neither starts nor ends with a separator |
| Paths.FirstSegment | ModContext.cs:83 | the result is a separator-free prefix that ends the string or stops at a separator |
| Paths.FirstSegmentOf | ModContext.cs:83 | that contract determines the first segment |
| Paths.TrimStartAfterSeparator | ModContext.cs:80 | trimming stops at the first non-separator |
| Paths.TrimEndKeepsPrefix | ModContext.cs:80 | trailing trimming never cuts into a prefix that ends in a non-separator |
| Paths.FileName | ModContext.cs:126 | `Path.GetFileName` is separator-free and no longer than the path; `FileNameIsLastSegment` pins it down |
| Paths.LastSegmentStep | ModContext.cs:126 | appending a non-separator extends the last path segment by it |
| Paths.FileNameIsLastSegment | ModContext.cs:126 | `Path.GetFileName` is a separator-free suffix that is the whole path or follows a separator |
| Paths.Combine | ModContext.cs:154 | `Path.Combine` with `'/'`; `CombineKeepsParts` states what it keeps |
| Paths.IsHiddenName | ModContext.cs:127-128 | a file or directory name is hidden when it starts with `.` or `_` (the same test at ModContext.cs lines 149-150 for directories and 162 for files); `VisibleMembers` and `FullScanOrderMembers` state which files and directories the discovery skips by it |
| Paths.CombineKeepsParts | ModContext.cs:154 | the combined path ends with the second part, and starts with the first when the second is relative |
| Paths.ModPackageKey | ModContext.cs:77-84 | the derived package key has no separator and is no longer than the location past the root |
| Paths.ModPackageKeyOfLayout | ModContext.cs:77-84 | for `root + sep + key + sep' + rest`, with `key` non-empty and separator-free and either separator, the derived key is `key` |
| Paths.ModPackageKeyOfFolder | ModContext.cs:77-84 | for a package folder `root + sep + key`, the derived key is `key` |
| Paths.ModPackageKeyIgnoresRootText | ModContext.cs:78 | the derivation reads only the root's length: a location outside the root with a prefix of the same length gives the same key |
| LoadOrder.WithoutDots | ModContext.cs:160 | `Replace(".", "")` is no longer than the path; `WithoutDotsRemovesOnlyDots` states exactly what it removes |
| LoadOrder.OrdinalLe | ModContext.cs:160 | the ordinal string comparison `OrderBy` sorts the keys with; `OrdinalLeReflexive`, `OrdinalLeTotal` and `OrdinalLeTransitive` show it is a total preorder |
| LoadOrder.IsVisible | ModContext.cs:126-128 | a plugin file is loaded only when its file name is not hidden (also the full scan's test at line 162); `VisibleMembers` states that `Visible` keeps exactly these paths |
| LoadOrder.PluginsFolder | ModContext.cs:123 | the plugins folder of a named package, `Path.Combine(RootModsFolder, key, "_plugins")`; `FilteredOrderMembers` states that the named discovery lists the visible files of exactly these folders |
| LoadOrder.InsertByStrippedPath | ModContext.cs:160 | inserting into the sorted order adds one element; `InsertIsPermutation`, `InsertKeepsSorted` and `InsertIsStable` state where it goes |
| LoadOrder.OrderByStrippedPath | ModContext.cs:160 | `OrderBy` keeps the listing's length; `OrderByIsSortedPermutation` and `OrderByIsStable` state the sort |
| LoadOrder.OrdinalLeReflexive | ModContext.cs:160 | the comparison the sort uses is reflexive |
| LoadOrder.OrdinalLeTotal | ModContext.cs:160 | it is total |
| LoadOrder.OrdinalLeTransitive | ModContext.cs:160 | it is transitive |
| LoadOrder.WithoutDotsRemovesOnlyDots | ModContext.cs:160 | the sort key `Replace(".", "")` has no dot and keeps every other character with its count |
| LoadOrder.WithoutDotsAppend | ModContext.cs:160 | `Replace(".", "")` keeps the remaining characters in order: the key of a joined string is the joined keys of its parts |
| LoadOrder.InsertIsPermutation | ModContext.cs:160 | inserting into the sorted order adds exactly the inserted path |
| LoadOrder.SortedCons | ModContext.cs:160 | a path whose key sorts no later than all keys of a sorted sequence can go first |
| LoadOrder.InsertMembers | ModContext.cs:160 | the insertion holds the inserted path and the old ones, nothing else |
| LoadOrder.InsertKeepsSorted | ModContext.cs:160 | insertion keeps the sequence sorted by the dot-free path |
| LoadOrder.OrderByIsSorted | ModContext.cs:160 | `OrderBy(f => f.Replace(".", ""))` leaves the listing sorted by the dot-free path |
| LoadOrder.OrderByIsPermutation | ModContext.cs:160 | the sort keeps every listed file, each as often as listed, and adds none |
| LoadOrder.OrderByIsSortedPermutation | ModContext.cs:160 | `OrderBy(f => f.Replace(".", ""))` is sorted by the dot-free path and a permutation of the listing |
| LoadOrder.HavingKeyCons | ModContext.cs:160 | the paths with a given key of a non-empty sequence are those of its head and then of its tail |
| LoadOrder.InsertIsStable | ModContext.cs:160 | the inserted path comes before every path of the sequence with the same key, so among equal keys the order of the input is kept |
| LoadOrder.OrderByIsStable | ModContext.cs:160 | the sort is stable: paths with the same dot-free path keep their listed order |
| LoadOrder.Visible | ModContext.cs:125-129 | the visible files of a listing are no more than the listing |
| LoadOrder.VisibleMembers | ModContext.cs:125-129 | a path is handed on iff it is listed and its file name starts with neither `.` nor `_` |
| LoadOrder.VisibleAppend | ModContext.cs:125-129 | the visibility filter distributes over concatenation |
| LoadOrder.VisiblePrefix | ModContext.cs:125-129 | the visible files of a listing's start are the start of its visible files |
| LoadOrder.VisibleStep | ModContext.cs:161-162 | one more listed file adds itself to the visible files iff it is visible, and it is then the next visible file |
| LoadOrder.FilteredOrder | ModContext.cs:123-137 | the order filtered discovery hands files on in; `FilteredOrderMembers` and `FilteredOrderStep` state what it holds and in which order |
| LoadOrder.FilteredOrderPrefix | ModContext.cs:123-130 | key order: the files of the first named packages are the start of the files of all of them |
| LoadOrder.FilteredOrderStep | ModContext.cs:123-130 | one more named package appends the visible files of its plugins folder, in listed order |
| LoadOrder.FilteredOrderMembers | ModContext.cs:123-130 | filtered discovery hands on exactly the visible files of the named packages' plugins folders |
| LoadOrder.FullScanFiles | ModContext.cs:146-170 | what one directory of the full scan gives; `FullScanOrderMembers` states which files these are |
| LoadOrder.FullScanOrder | ModContext.cs:143-173 | the order of the full scan; `FullScanOrderMembers` and `FullScanOrderStep` state what it holds and in which order |
| LoadOrder.FullScanOrderPrefix | ModContext.cs:153-172 | directory order: what the first directories give is the start of what all give |
| LoadOrder.FullScanOrderStep | ModContext.cs:153-172 | one more directory appends what it gives |
| LoadOrder.FullScanOrderMembers | ModContext.cs:145-172 | the full scan hands on exactly the visible files of the plugins folders of the visible directories that have one |
| LoadOrder.IndexMap | ModContext.cs:136 | the pre-ordered entries of a run of files use only the indices from the offset up to the number of files; `IndexMapEntries` gives each entry |
| LoadOrder.IndexMapEntries | ModContext.cs:136 | the `i`-th file handed on is stored at index `offset + i`, and no other index is used |
| LoadOrder.IndexMapSnoc | ModContext.cs:136 | one more file takes the next index |
| LoadOrder.PackageKeysOf | ModContext.cs:131-134 | every package key discovery derives is separator-free |
| LoadOrder.PackageKeysOfSnoc | ModContext.cs:131 | one more file adds its derived package key |
| LoadOrder.IndexMapStep | ModContext.cs:168 | recording one more file after earlier entries is the index map of the longer order |
| Contexts.ResolvedKey | ModContext.cs:179-180 | the key of a memoised assembly is the memoised one; otherwise it is a derived, separator-free key |
| Contexts.AddFromPlugin | ModContext.cs:186 | the kind's `_add*FromPlugin` moves the package to `AfterAdd` and reports the duplicate-key check |
| Contexts.RemoveFrom | ModContext.cs:247-248 | `RemoveResource` moves the package to the unloaded state and only shrinks its plugins |
| Contexts.ModContext.constructor | ModContext.cs:54-59 | `RootModsFolder` is the data folder combined with `"mods"`; no package, plugin, memo entry or pre-ordered file yet |
| Contexts.Registered | ModContext.cs:177-187 | the package states after one registration: package `key`, created empty if missing, gains the resource; `RegisteredPreservesInv`, `RegisteredResourceIsFound` and `RegisterTwiceThrows` state what that means |
| Contexts.UnloadedState | ModContext.cs:247-248 | the state of a package after `RemoveResource`: unchanged when no entry holds the resource, otherwise the removal; `RegisterThenUnload` shows it undoes a registration |
| Contexts.Unloaded | ModContext.cs:247-248 | the package states after `RemoveResource` on package `key`: only that package changes, to `UnloadedState`; `RemoveFromPackage` and `RegisterThenUnload` use it |
| Contexts.UnloadOutcome | ModContext.cs:247-248 | removal completes when an entry holds the resource and otherwise throws on the null key; `RegisterThenUnload` shows it completes right after a registration |
| Contexts.ModContext.TryToGetModPackageForResource | ModContext.cs:64-65 | finds a package iff the text before the first `"::"` names one, and returns that package |
| Contexts.ModContext.TryToGetModPackage | ModContext.cs:70-72 | an exact package key wins; otherwise the package named before the first `"::"`; none iff neither exists |
| Contexts.ModContext.AddNewModPackage | ModContext.cs:252-256 | a fresh, empty, valid package is stored under a key that was free |
| Contexts.ModContext.PackageStates | ModContext.cs:39-41 | one package state per stored package, under the same keys |
| Contexts.ModContext.GetOrAddModPackage | ModContext.cs:182-184 | returns the package under the key, creating an empty one only if there was none; every package stored before stays stored under its key, and every other package keeps its state |
| Contexts.ModContext.MemoiseKey | ModContext.cs:179-180 | the key is the memoised or derived one and is memoised; every other memoised key still names a package |
| Contexts.ModContext.AddPluginFile | ModContext.cs:131-136 | the file's package exists afterwards, and the file is recorded at the next index |
| Contexts.ModContext.EnsurePackageOf | ModContext.cs:131-134 | the packages are the old ones plus one for each derived key, and the new ones are empty |
| Contexts.ModContext.RecordPluginFile | ModContext.cs:136 | the pre-ordered files gain the file at the next index |
| Contexts.ModContext.AddIfVisible | ModContext.cs:161-169 | a visible file is handed on with the next index, and a hidden one is skipped |
| Contexts.ModContext.AddPluginFiles | ModContext.cs:161-170 | the visible files of a folder are handed on in order with consecutive indices |
| Contexts.ModContext.AddModPluginAssemblies | ModContext.cs:121-138 | after filtered discovery the pre-ordered files are the old ones plus the filtered order at consecutive indices from the offset; the packages are the old ones, kept, plus one empty package per new derived key |
| Contexts.ModContext.AddPackagePlugins | ModContext.cs:123-137 | one named package's visible plugins are handed on in listed order with the next indices |
| Contexts.ModContext.AddFolderPlugins | ModContext.cs:146-170 | a visible directory with a plugins folder hands on that folder's visible files, sorted, with the next indices; a hidden directory or one without a plugins folder hands on nothing |
| Contexts.ModContext.AddAllModPluginAssemblies | ModContext.cs:143-173 | the same for the full-scan order |
| Contexts.ModContext.OnLoaderInitializationStart | ModContext.cs:109-116 | records the data folder, then runs filtered discovery when keys were given and the full scan otherwise; the context invariant holds |
| Contexts.ModContext.ResolvePackage | ModContext.cs:179-184 | the package key is the memoised or derived one and is memoised from then on; the package exists, every package stored before stays stored under its key, and no other package state changes |
| Contexts.ModContext.AddToPackage | ModContext.cs:186 | only the target package's state changes, to `AfterAdd`; the outcome is the duplicate-key check; the context-wide plugin set gains the assembly; every package's plugins stay within it |
| Contexts.ModContext.RegisterFromPlugin | ModContext.cs:177-187 | one registration: the memo gains the resolved key, every package stored before stays stored under its key, the package states become `Registered(old states, key, r)`, and the plugin set gains the assembly |
| Contexts.ModContext.OnLoaderArchetypeInitializationComplete | ModContext.cs:175-190 | on success from a non-core assembly, the archetype is registered as `RegisterFromPlugin` states (existing package objects kept, one package changed by `AfterAdd`); otherwise nothing changes |
| Contexts.ModContext.OnLoaderModelFullInitializationComplete | ModContext.cs:192-207 | the same for a model type |
| Contexts.ModContext.OnLoaderComponentInitializationComplete | ModContext.cs:209-224 | the same for a component type |
| Contexts.ModContext.OnLoaderEnumInitializationComplete | ModContext.cs:226-241 | the same for an enumeration, with the declaring type's assembly deciding the package and the core test |
| Contexts.ModContext.RemoveFromPackage | ModContext.cs:247-248 | only the target package's state changes, to the unloaded state; the invariant holds |
| Contexts.ModContext.OnUnloadArchetype | ModContext.cs:244-250 | for an assembly that is not a plugin of the context, nothing happens; for a plugin without a memo entry, the lookup throws; otherwise only the memoised package changes, by removal of the archetype |
| Contexts.RegisteredPreservesInv | ModContext.cs:175-241 | registration keeps every package's invariant, including that of a package it creates |
| Contexts.RegisteredResourceIsFound | ModContext.cs:175-190 | after registering, the resource key leads back to its package, and the package holds the resource under it; the add succeeds iff the key was free, and otherwise the map is unchanged |
| Contexts.RegisterTwiceThrows | ModContext.cs:175-190 | registering the same resource again throws the duplicate-key error and changes no package |
| Contexts.RegisterThenUnload | ModContext.cs:244-250 | unloading a resource right after a registration that stored it succeeds and restores the package's map |
| Contexts.ResolvedKeyIsMemoised | ModContext.cs:179-180 | once resolved, an assembly keeps its package key whatever location is reported later |
| ContextExtensions.GetMod | ModContextExtensions.cs:19-23 | returns the package `TryToGetModPackage` finds, and fails with key-not-found carrying the key iff it finds none; it only reads the context |
| ContextExtensions.GetModByPackageKey | ModContextExtensions.cs:19-22 | a package key returns its own package |
| ContextExtensions.GetModByResourceKey | ModContextExtensions.cs:19-22 | a resource key returns the package that made it, when that package key has no `':'` and no package is named by the whole resource key |
| ContextExtensions.GetModMisses | ModContextExtensions.cs:19-23 | when neither the key nor the text before its first `"::"` names a package, the result is key-not-found with the key |

## Left out

- File system: `Directory.GetFiles`, `Directory.GetDirectories`, `Directory.Exists` and `DirectoryInfo` are not called. Discovery takes the directory list and maps from a folder path to the files listed for it. The `"*.dll"` pattern and `SearchOption.AllDirectories` are assumed to be already applied to those listings.
- `Path.Combine` uses `'/'` and counts a path as rooted when it starts with a separator. Drive letters and platform separators are not modelled.
- `OrderBy` compares with the ordinal order of characters (`OrdinalLe`). The default culture-sensitive string comparer is not modelled. Dafny characters are Unicode scalar values, while .NET's ordinal order compares UTF-16 code units; the two orders differ between a supplementary character (above U+FFFF) and a character in U+E000 to U+FFFF.
- Paths.FileName: splits on both `'/'` and `'\'`, as `Path.GetFileName` does on Windows. On a Unix runtime `Path.GetFileName` splits only on `'/'`, so a name containing `'\'` is a whole file name there.
- LoadOrder.Visible: tests the first character of a file or directory name ordinally (`IsHiddenName`). The source's culture-sensitive `StartsWith(".")` and `StartsWith("_")` (ModContext.cs:127-128, 149-150, 162) also hide a name whose `.` or `_` follows an ignorable code point such as U+00AD; the model counts such a name as visible.
- Reflection: an assembly is a `ModuleId`. The local id, the base predicates (`IsBaseArchetype`, `EnumBaseType`, `GetModelBaseType`, `GetComponentBaseType`) and the `IModel`/`IComponent` checks are fields of `Resource`. The three `MakeResourceKey` overloads become one function of the local id.
- Host plumbing:
  - `Universe`, `Loader` and `ExtraContext` are not modelled.
  - `Universe.GetMods()` is replaced by a package's reference to the context's plugin registry, or by passing the context to `GetMod`.
  - `Loader.Options.PreLoadAssemblies.Count` is the `indexOffset` parameter.
  - `Loader.CoreAssemblies` and `Assembly.Location` are callback parameters.
  - `PreOrderedAssemblyFiles` and `DataFolderParentFolderLocation` are fields of the context.
- The virtual hooks `OnResourceAdded`, `OnResourceRemoved` and `On*RegisteredFromPlugin` are no-ops by default and are omitted.
- The read-only properties `ResourceKeys` and `Imported*` are plain field reads and have no members of their own.
- Exception messages are not modelled. An error carries only the key or assembly it concerns.
- Packages.ModPackage.PluginAssemblies: reads the backing field `_pluginAssemblies`. The getter as written (ModPackage.cs:43-44) returns itself, so every call recurses until a `StackOverflowException` ends the process; a Dafny function cannot express that.
- Contexts.ModContext.AddModPluginAssemblies: requires a listing for every named package's plugins folder (`ListsEveryKey`). The source throws `DirectoryNotFoundException` for a missing one.
- Contexts.ModContext.AddModPluginAssemblies: requires the handed-out indices to fit a `ushort` and to be free, and every file it hands on to be longer than `RootModsFolder` (`CanDiscover`). The `(ushort)` cast wrap-around and the `ArgumentException` of a taken index are not modelled. Neither is the failing slice of `GetModPackageKey` on a shorter file path, which happens when, for example, a named key is a rooted path and `Path.Combine` drops the mods folder.
- Contexts.ModContext.AddAllModPluginAssemblies: has the same `CanDiscover` precondition, path length included. `Directory.GetDirectories` throwing on a missing mods folder is not modelled.
- Contexts.ModContext.OnLoaderInitializationStart: carries both discovery preconditions above.
- Contexts.ModContext.AddModPluginAssemblies: does not state that the packages it creates are fresh objects, only that they are empty and that the existing ones are kept.
- Contexts.ModContext.OnLoaderArchetypeInitializationComplete: requires a location longer than `RootModsFolder` when the assembly is not memoised yet. The source fails there with an out-of-range slice or index. The same holds for the other three callbacks and for `ResolvePackage`.
- Contexts.ModContext.OnLoaderArchetypeInitializationComplete: assumes the callback's `type` is the archetype's own type, so there is one assembly to test and record.

## Findings

| source | as written | input that shows it | evidently intended | confidence | as-written member | corrected member |
|---|---|---|---|---|---|---|
| ModPackage.cs:292-293 | `_resources.FirstOrDefault(r => r.Equals(resource))` compares each `KeyValuePair<string, object>` with the resource itself. That is never equal, so `found` is the default pair, and `_resources.Remove(null)` throws `ArgumentNullException` | any resource the package holds, e.g. an archetype just added through `_addArchetypeFromPlugin` | find the entry whose value is the resource and remove it, then run the typed-set and reference-count stages | high (not executed) | Packages.RemoveResourceAsWrittenAlwaysThrows | Packages.ModPackage.RemoveResource |
