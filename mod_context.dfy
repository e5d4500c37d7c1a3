/** The mod context of a universe (ModContext.cs): the packages imported so far, keyed by
    package name; the plugin assemblies any package took resources from; which package each
    plugin assembly belongs to; and the loader's pre-ordered assembly files it fills in. */
module Contexts {
  import opened Wrappers
  import opened Resources
  import opened Packages
  import opened Paths
  import opened LoadOrder

  /** `ModContext.ModFolderName`. */
  const ModFolderName: string := "mods"

  /** The largest number of indices a `ushort` key can take. */
  const IndexLimit: int := 0x1_0000

  /** The package key a loader callback resolves for `assembly`: the memoised one, or the
      one derived from `location`. */
  function ResolvedKey(memo: map<ModuleId, string>, root: string, assembly: ModuleId, location: string): (key: string)
    requires assembly in memo || |location| > |root|
    ensures assembly in memo ==> key == memo[assembly]
    ensures assembly !in memo ==> NoSeparator(key) && |key| <= |location| - |root|
  {
    if assembly in memo then memo[assembly] else ModPackageKey(root, location)
  }

  /** The state of package `key` among `states`, or the empty state of a package the
      callback is about to create. */
  function StateOf(states: map<string, PackageState>, key: string): PackageState
  {
    if key in states then states[key] else EmptyPackage
  }

  /** The package states after registering `r` with package `key`, created if missing. */
  function Registered(states: map<string, PackageState>, key: string, r: Resource): map<string, PackageState>
  {
    states[key := AfterAdd(StateOf(states, key), key, r)]
  }

  /** Registering is resolving the package (creating it empty if missing), then adding. */
  lemma RegisteredAfterResolving(states: map<string, PackageState>, key: string, r: Resource)
    ensures var before := StateOf(states, key);
      Registered(states, key, r) == states[key := before][key := AfterAdd(before, key, r)]
  {
  }

  /** The package states after `RemoveResource(r)` on package `key`: nothing changes when no
      entry holds `r`. */
  function Unloaded(states: map<string, PackageState>, key: string, r: Resource): map<string, PackageState>
    requires key in states
  {
    states[key := UnloadedState(states[key], key, r)]
  }

  /** The state of package `key` after `RemoveResource(r)`: unchanged when no entry holds `r`. */
  function UnloadedState(s: PackageState, key: string, r: Resource): PackageState
  {
    if r in s.resources.Values then AfterRemoval(s, key, r) else s
  }

  /** Whether `RemoveResource(r)` on a package in state `s` completes, or throws on the
      null key of the default pair when no entry holds `r`. */
  function UnloadOutcome(s: PackageState, r: Resource): Outcome<Error>
  {
    if r in s.resources.Values then Pass else Fail(ArgumentNull)
  }

  /** `modPackage._add*FromPlugin(r)`: each loader callback calls the method for the kind
      of resource it reports. */
  method AddFromPlugin(modPackage: ModPackage, r: Resource) returns (outcome: Outcome<Error>)
    requires modPackage.Valid()
    modifies modPackage, modPackage.registry
    ensures modPackage.Valid()
    ensures modPackage.State() == AfterAdd(old(modPackage.State()), modPackage.Key, r)
    ensures outcome == AddOutcome(old(modPackage.State()), modPackage.Key, r)
    ensures modPackage.registry.plugins == old(modPackage.registry.plugins) + {r.assembly}
  {
    match r.kind {
      case Archetype => outcome := modPackage.AddArchetypeFromPlugin(r);
      case Enumeration => outcome := modPackage.AddEnumerationFromPlugin(r);
      case ModelType => outcome := modPackage.AddModelTypeFromPlugin(r);
      case ComponentType => outcome := modPackage.AddComponentTypeFromPlugin(r);
    }
  }

  /** `modPackage.RemoveResource(r)`, stated through the package's state. */
  method RemoveFrom(modPackage: ModPackage, r: Resource) returns (outcome: Outcome<Error>)
    requires modPackage.Valid()
    modifies modPackage
    ensures modPackage.Valid() && modPackage.pluginAssemblies <= old(modPackage.pluginAssemblies)
    ensures modPackage.State() == UnloadedState(old(modPackage.State()), modPackage.Key, r)
    ensures outcome == UnloadOutcome(old(modPackage.State()), r)
  {
    outcome := modPackage.RemoveResource(r);
  }

  class ModContext {
    /** `_rootApplicationPersistentDataFolder`. */
    const rootApplicationPersistentDataFolder: string
    /** `_limitToModPackageKeys`; `None` stands for `null`. */
    const limitToModPackageKeys: Option<seq<string>>
    const RootModsFolder: string
    /** `_importedPlugins`, an object of its own so that packages can report into it. */
    const importedPlugins: PluginRegistry
    /** `_importedMods`. */
    var importedMods: map<string, ModPackage>
    /** `_modPackagesByAssemblyPlugins`. */
    var modPackagesByAssemblyPlugins: map<ModuleId, string>
    /** `Universe.Loader.Options.PreOrderedAssemblyFiles`. */
    var preOrderedAssemblyFiles: map<int, string>
    /** `Universe.Loader.Options.DataFolderParentFolderLocation`. */
    var dataFolderParentFolderLocation: Option<string>

    /** Every package sits under its own key and reports into this context's plugin set. */
    ghost predicate PackagesKeyed()
      reads this`importedMods
    {
      forall k | k in importedMods ::
        importedMods[k].Key == k && importedMods[k].registry == importedPlugins
    }

    /** Every package keeps its own invariant and has only plugins the context has seen. */
    ghost predicate PackagesValid()
      reads this`importedMods, importedPlugins, importedMods.Values
    {
      forall k | k in importedMods ::
        importedMods[k].Valid() && importedMods[k].pluginAssemblies <= importedPlugins.plugins
    }

    /** Every assembly mapped to a package key maps to a package that exists. */
    ghost predicate MemoResolves()
      reads this`importedMods, this`modPackagesByAssemblyPlugins
    {
      forall m | m in modPackagesByAssemblyPlugins :: modPackagesByAssemblyPlugins[m] in importedMods
    }

    ghost predicate Valid()
      reads this`importedMods, this`modPackagesByAssemblyPlugins, importedPlugins, importedMods.Values
    {
      PackagesKeyed() && PackagesValid() && MemoResolves()
    }

    constructor (rootApplicationPersistentDataFolder: string, limitToModPackageKeys: Option<seq<string>>)
      ensures this.rootApplicationPersistentDataFolder == rootApplicationPersistentDataFolder
      ensures this.limitToModPackageKeys == limitToModPackageKeys
      ensures RootModsFolder == Combine(rootApplicationPersistentDataFolder, ModFolderName)
      ensures fresh(importedPlugins) && importedPlugins.plugins == {}
      ensures importedMods == map[] && modPackagesByAssemblyPlugins == map[]
      ensures preOrderedAssemblyFiles == map[] && dataFolderParentFolderLocation == None
      ensures Valid()
    {
      this.rootApplicationPersistentDataFolder := rootApplicationPersistentDataFolder;
      this.limitToModPackageKeys := limitToModPackageKeys;
      RootModsFolder := Combine(rootApplicationPersistentDataFolder, ModFolderName);
      importedPlugins := new PluginRegistry();
      importedMods := map[];
      modPackagesByAssemblyPlugins := map[];
      preOrderedAssemblyFiles := map[];
      dataFolderParentFolderLocation := None;
    }

    /** `TryToGetModPackageForResource`: the package named by the text before the first
        `"::"` of the key. */
    function TryToGetModPackageForResource(resourceKey: string): (r: Option<ModPackage>)
      reads this
      ensures r.Some? <==> BeforeKeySeparator(resourceKey) in importedMods
      ensures r.Some? ==> r.value == importedMods[BeforeKeySeparator(resourceKey)]
    {
      var packageKey := BeforeKeySeparator(resourceKey);
      if packageKey in importedMods then Some(importedMods[packageKey]) else None
    }

    /** `TryToGetModPackage`: a package key first, then a resource key. */
    function TryToGetModPackage(modOrResourceKey: string): (r: Option<ModPackage>)
      reads this
      ensures r.Some? <==> modOrResourceKey in importedMods || BeforeKeySeparator(modOrResourceKey) in importedMods
      ensures modOrResourceKey in importedMods ==> r == Some(importedMods[modOrResourceKey])
      ensures modOrResourceKey !in importedMods && r.Some? ==>
        r.value == importedMods[BeforeKeySeparator(modOrResourceKey)]
    {
      if modOrResourceKey in importedMods then Some(importedMods[modOrResourceKey])
      else TryToGetModPackageForResource(modOrResourceKey)
    }

    /** `_addNewModPackage`: `Dictionary.Add` needs the key to be new. */
    method AddNewModPackage(packageKey: string) returns (modPackage: ModPackage)
      requires PackagesKeyed() && packageKey !in importedMods
      modifies this`importedMods
      ensures PackagesKeyed()
      ensures fresh(modPackage) && modPackage.IsEmpty() && modPackage.Valid()
      ensures importedMods == old(importedMods)[packageKey := modPackage]
    {
      modPackage := new ModPackage(packageKey, importedPlugins);
      importedMods := importedMods[packageKey := modPackage];
    }

    /** The `TryGetValue`/`_addNewModPackage` pair of the loader callbacks: the package
        stored under `packageKey`, created empty if there is none yet. The memo may already
        name `packageKey`, which this call brings into existence. */
    method GetOrAddModPackage(packageKey: string) returns (modPackage: ModPackage)
      requires PackagesKeyed() && PackagesValid()
      requires forall m | m in modPackagesByAssemblyPlugins ::
        modPackagesByAssemblyPlugins[m] in importedMods || modPackagesByAssemblyPlugins[m] == packageKey
      modifies this`importedMods
      ensures Valid()
      ensures packageKey in importedMods && modPackage == importedMods[packageKey]
      ensures packageKey in old(importedMods) ==> importedMods == old(importedMods)
      ensures forall k | k in old(importedMods) :: k in importedMods && importedMods[k] == old(importedMods)[k]
      ensures packageKey !in old(importedMods) ==>
        && importedMods == old(importedMods)[packageKey := modPackage]
        && fresh(modPackage) && modPackage.IsEmpty()
      ensures PackageStates() == old(PackageStates())[packageKey := StateOf(old(PackageStates()), packageKey)]
    {
      ghost var states0 := PackageStates();
      if packageKey in importedMods {
        modPackage := importedMods[packageKey];
        assert states0[packageKey := states0[packageKey]] == states0;
      } else {
        modPackage := AddNewModPackage(packageKey);
        forall k | k in importedMods
          ensures importedMods[k].State() == states0[packageKey := EmptyPackage][k]
        {
          if k != packageKey {
            assert importedMods[k] == old(importedMods[k]);
          }
        }
      }
    }

    /** One plugin file a discovery method hands on: make sure its package exists and give
        the file the next index. The ghost parameters are the packages and the pre-ordered
        files the discovery started from, and the files it has handed on so far. */
    method AddPluginFile(
      f: string, modIndex: int,
      ghost mods0: map<string, ModPackage>, ghost files0: map<int, string>,
      ghost order: seq<string>, ghost indexOffset: int)
      requires PackagesKeyed() && |f| > |RootModsFolder|
      requires modIndex == indexOffset + |order| && modIndex !in files0
      requires DiscoveredSince(mods0, files0, order, indexOffset)
      modifies this`importedMods, this`preOrderedAssemblyFiles
      ensures PackagesKeyed()
      ensures DiscoveredSince(mods0, files0, order + [f], indexOffset)
    {
      EnsurePackageOf(f, mods0, order);
      RecordPluginFile(f, modIndex, files0, order, indexOffset);
    }

    /** The package half of `AddPluginFile`: `ContainsKey`, then `_addNewModPackage`. */
    method EnsurePackageOf(f: string, ghost mods0: map<string, ModPackage>, ghost order: seq<string>)
      requires PackagesKeyed() && |f| > |RootModsFolder|
      requires PackagesSince(mods0, PackageKeysOf(RootModsFolder, order))
      modifies this`importedMods
      ensures PackagesKeyed()
      ensures PackagesSince(mods0, PackageKeysOf(RootModsFolder, order + [f]))
    {
      var packageKey := ModPackageKey(RootModsFolder, f);
      PackageKeysOfSnoc(RootModsFolder, order, f);
      if packageKey !in importedMods {
        var _ := AddNewModPackage(packageKey);
        forall k | k in importedMods && k !in mods0
          ensures importedMods[k].IsEmpty()
        {
          if k != packageKey {
            assert importedMods[k] == old(importedMods[k]);
          }
        }
      }
    }

    /** The index half of `AddPluginFile`: `PreOrderedAssemblyFiles.Add`, which needs the
        index to be free. */
    method RecordPluginFile(
      f: string, modIndex: int,
      ghost files0: map<int, string>, ghost order: seq<string>, ghost indexOffset: int)
      requires modIndex == indexOffset + |order| && modIndex !in files0
      requires preOrderedAssemblyFiles == files0 + IndexMap(indexOffset, order)
      modifies this`preOrderedAssemblyFiles
      ensures preOrderedAssemblyFiles == files0 + IndexMap(indexOffset, order + [f])
    {
      IndexMapEntries(indexOffset, order);
      assert modIndex !in preOrderedAssemblyFiles;
      IndexMapStep(files0, indexOffset, order, f);
      preOrderedAssemblyFiles := preOrderedAssemblyFiles[modIndex := f];
    }

    /** One turn of the loop over a folder's files, at file `j`: a hidden file is passed
        over, a visible one goes through `AddPluginFile` with the next index. `done` is what
        was handed on so far: `start`, then the visible files before `j`. The indices below
        `end` are free in `files0`. */
    method AddIfVisible(
      files: seq<string>, j: int, modIndex: int,
      ghost mods0: map<string, ModPackage>, ghost files0: map<int, string>,
      ghost start: seq<string>, ghost done: seq<string>, ghost indexOffset: int, ghost end: int)
      returns (next: int, ghost done': seq<string>)
      requires 0 <= j < |files|
      requires PackagesKeyed() && DiscoveredSince(mods0, files0, done, indexOffset)
      requires done == start + Visible(files[..j]) && modIndex == indexOffset + |done|
      requires forall f | f in Visible(files) :: |f| > |RootModsFolder|
      requires indexOffset + |start| + |Visible(files)| <= end
      requires forall k | k in files0 :: k < indexOffset || end <= k
      modifies this`importedMods, this`preOrderedAssemblyFiles
      ensures PackagesKeyed() && DiscoveredSince(mods0, files0, done', indexOffset)
      ensures done' == start + Visible(files[..j + 1]) && next == indexOffset + |done'|
    {
      var f := files[j];
      VisibleStep(start, files, j);
      next, done' := modIndex, done;
      if IsVisible(f) {
        assert f == Visible(files)[|Visible(files[..j])|];
        AddPluginFile(f, modIndex, mods0, files0, done, indexOffset);
        next, done' := modIndex + 1, done + [f];
      }
    }

    /** The loop both discovery methods run over one folder's files: each visible file, in
        order, is handed on with the next index. `start` is what was handed on before this
        folder, and the indices below `end` are free in `files0`. */
    method AddPluginFiles(
      files: seq<string>, modIndex: int,
      ghost mods0: map<string, ModPackage>, ghost files0: map<int, string>,
      ghost start: seq<string>, ghost indexOffset: int, ghost end: int)
      returns (next: int)
      requires PackagesKeyed() && DiscoveredSince(mods0, files0, start, indexOffset)
      requires modIndex == indexOffset + |start|
      requires forall f | f in Visible(files) :: |f| > |RootModsFolder|
      requires modIndex + |Visible(files)| <= end
      requires forall k | k in files0 :: k < indexOffset || end <= k
      modifies this`importedMods, this`preOrderedAssemblyFiles
      ensures PackagesKeyed() && DiscoveredSince(mods0, files0, start + Visible(files), indexOffset)
      ensures next == modIndex + |Visible(files)|
    {
      next := modIndex;
      ghost var done := start;
      assert done == start + Visible(files[..0]) by {
        assert files[..0] == [];
        assert start + [] == start;
      }
      var j := 0;
      while j < |files|
        invariant 0 <= j <= |files|
        invariant done == start + Visible(files[..j]) && next == indexOffset + |done|
        invariant PackagesKeyed() && DiscoveredSince(mods0, files0, done, indexOffset)
      {
        next, done := AddIfVisible(files, j, next, mods0, files0, start, done, indexOffset, end);
        j := j + 1;
        assert done == start + Visible(files[..j]);
      }
      assert files[..|files|] == files;
    }

    /** What a discovery method may be given: every file it hands on lies below the mods
        folder, and the indices it hands out fit a `ushort` and are not taken yet. */
    predicate CanDiscover(order: seq<string>, indexOffset: int)
      reads this
    {
      && (forall f | f in order :: |f| > |RootModsFolder|)
      && 0 <= indexOffset && indexOffset + |order| <= IndexLimit
      && (forall k | k in preOrderedAssemblyFiles :: k < indexOffset || indexOffset + |order| <= k)
    }

    /** The packages since `mods0`: those of `mods0` kept, one more for each of `keys`, and
        the ones created empty. */
    ghost predicate PackagesSince(mods0: map<string, ModPackage>, keys: set<string>)
      reads this`importedMods, importedMods.Values
    {
      && importedMods.Keys == mods0.Keys + keys
      && (forall k | k in mods0 :: importedMods[k] == mods0[k])
      && (forall k | k in importedMods && k !in mods0 :: importedMods[k].IsEmpty())
    }

    /** The effect of handing `order` to the loader from index `indexOffset` on, starting
        from packages `mods0` and pre-ordered files `files0`: each file gets the next index,
        each file's package exists, the packages that existed are kept, and the ones created
        are empty. */
    ghost predicate DiscoveredSince(
      mods0: map<string, ModPackage>, files0: map<int, string>,
      order: seq<string>, indexOffset: int)
      reads this`importedMods, this`preOrderedAssemblyFiles, importedMods.Values
    {
      && preOrderedAssemblyFiles == files0 + IndexMap(indexOffset, order)
      && PackagesSince(mods0, PackageKeysOf(RootModsFolder, order))
    }

    /** `DiscoveredSince` the start of a method. */
    twostate predicate Discovered(order: seq<string>, indexOffset: int)
      reads this, importedMods.Values
    {
      DiscoveredSince(old(importedMods), old(preOrderedAssemblyFiles), order, indexOffset)
    }

    /** `_addModPluginAssemblies`: the plugins of the named packages, package by package.
        `listing` gives the files `Directory.GetFiles(folder, "*.dll")` returns. */
    method AddModPluginAssemblies(modPackageKeys: seq<string>, listing: map<string, seq<string>>, indexOffset: int)
      requires PackagesKeyed() && ListsEveryKey(RootModsFolder, modPackageKeys, listing)
      requires CanDiscover(FilteredOrder(RootModsFolder, modPackageKeys, listing), indexOffset)
      modifies this`importedMods, this`preOrderedAssemblyFiles
      ensures PackagesKeyed()
      ensures Discovered(FilteredOrder(RootModsFolder, modPackageKeys, listing), indexOffset)
    {
      ghost var full := FilteredOrder(RootModsFolder, modPackageKeys, listing);
      ghost var mods0, files0 := importedMods, preOrderedAssemblyFiles;
      ghost var end := indexOffset + |full|;
      ghost var emitted: seq<string> := [];
      var modIndex := indexOffset;
      var i := 0;
      while i < |modPackageKeys|
        invariant 0 <= i <= |modPackageKeys|
        invariant ListsEveryKey(RootModsFolder, modPackageKeys[..i], listing)
        invariant emitted == FilteredOrder(RootModsFolder, modPackageKeys[..i], listing)
        invariant modIndex == indexOffset + |emitted|
        invariant PackagesKeyed() && DiscoveredSince(mods0, files0, emitted, indexOffset)
      {
        FilteredOrderStep(RootModsFolder, modPackageKeys, i, listing);
        var files := listing[PluginsFolder(RootModsFolder, modPackageKeys[i])];
        modIndex := AddPackagePlugins(files, modIndex, mods0, files0, emitted, full, indexOffset, end);
        emitted := emitted + Visible(files);
        i := i + 1;
      }
      assert modPackageKeys[..|modPackageKeys|] == modPackageKeys;
    }

    /** One named package of `_addModPluginAssemblies`: the visible files of its plugins
        folder are handed on in listed order, with the next indices, as the part of the whole
        order `full` that follows `start`. */
    method AddPackagePlugins(
      files: seq<string>, modIndex: int,
      ghost mods0: map<string, ModPackage>, ghost files0: map<int, string>,
      ghost start: seq<string>, ghost full: seq<string>, ghost indexOffset: int, ghost end: int)
      returns (next: int)
      requires PackagesKeyed() && DiscoveredSince(mods0, files0, start, indexOffset)
      requires modIndex == indexOffset + |start|
      requires start + Visible(files) <= full && forall f | f in full :: |f| > |RootModsFolder|
      requires end == indexOffset + |full| && forall k | k in files0 :: k < indexOffset || end <= k
      modifies this`importedMods, this`preOrderedAssemblyFiles
      ensures PackagesKeyed() && DiscoveredSince(mods0, files0, start + Visible(files), indexOffset)
      ensures next == modIndex + |Visible(files)|
    {
      AppendWithin(start, Visible(files), full);
      next := AddPluginFiles(files, modIndex, mods0, files0, start, indexOffset, end);
    }

    /** `_addAllModPluginAssemblies`: the plugins of every visible directory of the mods
        folder, directory by directory, each directory's sorted by the dot-free path.
        `modFolders` gives `Directory.GetDirectories(RootModsFolder)`, and `listing` the files
        `Directory.GetFiles(folder, "*.dll", SearchOption.AllDirectories)` returns for each
        folder that exists. */
    method AddAllModPluginAssemblies(modFolders: seq<string>, listing: map<string, seq<string>>, indexOffset: int)
      requires PackagesKeyed() && CanDiscover(FullScanOrder(modFolders, listing), indexOffset)
      modifies this`importedMods, this`preOrderedAssemblyFiles
      ensures PackagesKeyed()
      ensures Discovered(FullScanOrder(modFolders, listing), indexOffset)
    {
      ghost var full := FullScanOrder(modFolders, listing);
      ghost var mods0, files0 := importedMods, preOrderedAssemblyFiles;
      ghost var end := indexOffset + |full|;
      ghost var emitted: seq<string> := [];
      var modIndex := indexOffset;
      var i := 0;
      while i < |modFolders|
        invariant 0 <= i <= |modFolders|
        invariant emitted == FullScanOrder(modFolders[..i], listing)
        invariant modIndex == indexOffset + |emitted|
        invariant PackagesKeyed() && DiscoveredSince(mods0, files0, emitted, indexOffset)
      {
        FullScanOrderStep(modFolders, i, listing);
        AppendWithin(emitted, FullScanFiles(modFolders[i], listing), full);
        modIndex := AddFolderPlugins(modFolders[i], listing, modIndex, mods0, files0, emitted, indexOffset, end);
        emitted := emitted + FullScanFiles(modFolders[i], listing);
        i := i + 1;
      }
      assert modFolders[..|modFolders|] == modFolders;
    }

    /** One directory of `_addAllModPluginAssemblies`: a visible directory with a plugins
        folder hands on that folder's visible files, sorted by the dot-free path, with the
        next indices; any other directory hands on nothing. */
    method AddFolderPlugins(
      modFolderLocation: string, listing: map<string, seq<string>>, modIndex: int,
      ghost mods0: map<string, ModPackage>, ghost files0: map<int, string>,
      ghost start: seq<string>, ghost indexOffset: int, ghost end: int)
      returns (next: int)
      requires PackagesKeyed() && DiscoveredSince(mods0, files0, start, indexOffset)
      requires modIndex == indexOffset + |start|
      requires forall f | f in FullScanFiles(modFolderLocation, listing) :: |f| > |RootModsFolder|
      requires modIndex + |FullScanFiles(modFolderLocation, listing)| <= end
      requires forall k | k in files0 :: k < indexOffset || end <= k
      modifies this`importedMods, this`preOrderedAssemblyFiles
      ensures PackagesKeyed()
      ensures DiscoveredSince(mods0, files0, start + FullScanFiles(modFolderLocation, listing), indexOffset)
      ensures next == modIndex + |FullScanFiles(modFolderLocation, listing)|
    {
      var pluginsPath := Combine(modFolderLocation, PluginsSubFolderName);
      if !IsHiddenName(FileName(modFolderLocation)) && pluginsPath in listing {
        var assemblies := OrderByStrippedPath(listing[pluginsPath]);
        assert FullScanFiles(modFolderLocation, listing) == Visible(assemblies);
        next := AddPluginFiles(assemblies, modIndex, mods0, files0, start, indexOffset, end);
      } else {
        assert FullScanFiles(modFolderLocation, listing) == [];
        assert start + [] == start;
        next := modIndex;
      }
    }

    /** `OnLoaderInitializationStart`: record the data folder, then discover the named
        packages' plugins when a list of keys was given, or every package's otherwise. The
        two listings stand for the file system as the two discovery methods see it. */
    method OnLoaderInitializationStart(
      indexOffset: int,
      modFolders: seq<string>,
      topListing: map<string, seq<string>>,
      recursiveListing: map<string, seq<string>>)
      requires Valid()
      requires limitToModPackageKeys.Some? ==>
        && ListsEveryKey(RootModsFolder, limitToModPackageKeys.value, topListing)
        && CanDiscover(FilteredOrder(RootModsFolder, limitToModPackageKeys.value, topListing), indexOffset)
      requires limitToModPackageKeys.None? ==>
        CanDiscover(FullScanOrder(modFolders, recursiveListing), indexOffset)
      modifies this`importedMods, this`preOrderedAssemblyFiles, this`dataFolderParentFolderLocation
      ensures Valid()
      ensures dataFolderParentFolderLocation == Some(rootApplicationPersistentDataFolder)
      ensures limitToModPackageKeys.Some? ==>
        Discovered(FilteredOrder(RootModsFolder, limitToModPackageKeys.value, topListing), indexOffset)
      ensures limitToModPackageKeys.None? ==>
        Discovered(FullScanOrder(modFolders, recursiveListing), indexOffset)
    {
      dataFolderParentFolderLocation := Some(rootApplicationPersistentDataFolder);
      if limitToModPackageKeys.Some? {
        AddModPluginAssemblies(limitToModPackageKeys.value, topListing, indexOffset);
      } else {
        AddAllModPluginAssemblies(modFolders, recursiveListing, indexOffset);
      }
      forall k | k in importedMods
        ensures importedMods[k].Valid() && importedMods[k].pluginAssemblies <= importedPlugins.plugins
      {
        if k in old(importedMods) {
          assert importedMods[k] == old(importedMods[k]);
        }
      }
    }

    /** The state of every package, by key. */
    ghost function PackageStates(): (states: map<string, PackageState>)
      reads this`importedMods, importedMods.Values
      ensures states.Keys == importedMods.Keys
    {
      map k | k in importedMods :: importedMods[k].State()
    }

    /** The package-key part of the loader callbacks: the key memoised for `assembly`, or
        the key of its location, memoised from then on; then the package under that key,
        created empty if there is none yet. */
    method ResolvePackage(assembly: ModuleId, location: string) returns (packageKey: string, modPackage: ModPackage)
      requires Valid()
      requires assembly in modPackagesByAssemblyPlugins || |location| > |RootModsFolder|
      modifies this`modPackagesByAssemblyPlugins, this`importedMods
      ensures Valid()
      ensures packageKey == ResolvedKey(old(modPackagesByAssemblyPlugins), RootModsFolder, assembly, location)
      ensures modPackagesByAssemblyPlugins == old(modPackagesByAssemblyPlugins)[assembly := packageKey]
      ensures packageKey in importedMods && modPackage == importedMods[packageKey]
      ensures PackageStates() == old(PackageStates())[packageKey := StateOf(old(PackageStates()), packageKey)]
      ensures forall k | k in old(importedMods) :: k in importedMods && importedMods[k] == old(importedMods)[k]
      ensures modPackage in old(importedMods).Values || fresh(modPackage)
    {
      packageKey := MemoiseKey(assembly, location);
      assert PackageStates() == old(PackageStates());
      modPackage := GetOrAddModPackage(packageKey);
      assert packageKey in old(importedMods) ==> modPackage == old(importedMods)[packageKey];
    }

    /** The memo part of `ResolvePackage`: the key memoised for `assembly`, or the key of its
        location, which is memoised from then on. Every memoised key but the new one names a
        package. */
    method MemoiseKey(assembly: ModuleId, location: string) returns (packageKey: string)
      requires MemoResolves()
      requires assembly in modPackagesByAssemblyPlugins || |location| > |RootModsFolder|
      modifies this`modPackagesByAssemblyPlugins
      ensures packageKey == ResolvedKey(old(modPackagesByAssemblyPlugins), RootModsFolder, assembly, location)
      ensures modPackagesByAssemblyPlugins == old(modPackagesByAssemblyPlugins)[assembly := packageKey]
      ensures forall m | m in modPackagesByAssemblyPlugins ::
        modPackagesByAssemblyPlugins[m] in importedMods || modPackagesByAssemblyPlugins[m] == packageKey
    {
      if assembly in modPackagesByAssemblyPlugins {
        packageKey := modPackagesByAssemblyPlugins[assembly];
        assert modPackagesByAssemblyPlugins[assembly := packageKey] == modPackagesByAssemblyPlugins;
      } else {
        packageKey := ModPackageKey(RootModsFolder, location);
        modPackagesByAssemblyPlugins := modPackagesByAssemblyPlugins[assembly := packageKey];
      }
    }

    /** `AddFromPlugin` on the package stored under `packageKey`. */
    method AddToPackage(packageKey: string, modPackage: ModPackage, r: Resource) returns (outcome: Outcome<Error>)
      requires Valid() && packageKey in importedMods && modPackage == importedMods[packageKey]
      modifies modPackage, importedPlugins
      ensures Valid()
      ensures PackageStates() == old(PackageStates())[packageKey := AfterAdd(old(modPackage.State()), packageKey, r)]
      ensures outcome == AddOutcome(old(modPackage.State()), packageKey, r)
      ensures importedPlugins.plugins == old(importedPlugins.plugins) + {r.assembly}
    {
      ghost var states0 := PackageStates();
      outcome := AddFromPlugin(modPackage, r);
      ghost var states1 := states0[packageKey := modPackage.State()];
      forall k | k in importedMods && k != packageKey
        ensures importedMods[k] != modPackage
      {
        assert importedMods[k].Key != modPackage.Key;
      }
      assert PackagesValid();
      assert PackageStates() == states1 by {
        assert PackageStates().Keys == states1.Keys;
        assert forall k | k in states1 :: PackageStates()[k] == states1[k];
      }
    }

    /** The shared body of the four `OnLoader*InitializationComplete` callbacks once they
        have decided to register `r`, reported from `assembly` at `location`. */
    method RegisterFromPlugin(assembly: ModuleId, location: string, r: Resource) returns (outcome: Outcome<Error>)
      requires Valid()
      requires assembly in modPackagesByAssemblyPlugins || |location| > |RootModsFolder|
      modifies this`modPackagesByAssemblyPlugins, this`importedMods, importedMods.Values, importedPlugins
      ensures Valid()
      ensures RegisteredFromPlugin(assembly, location, r, outcome)
    {
      ghost var states0 := PackageStates();
      var packageKey, modPackage := ResolvePackage(assembly, location);
      ghost var before := StateOf(states0, packageKey);
      assert modPackage.State() == PackageStates()[packageKey] == before;
      outcome := AddToPackage(packageKey, modPackage, r);
      RegisteredAfterResolving(states0, packageKey, r);
    }

    /** The effect of registering `r`, reported from `assembly` at `location`: the key is
        resolved and memoised, every package stored before stays stored under its key, the
        package under the key (created empty if missing) goes through `AfterAdd`, every other
        package keeps its state, and the context's plugin set gains `r`'s module. */
    twostate predicate RegisteredFromPlugin(assembly: ModuleId, location: string, r: Resource, new outcome: Outcome<Error>)
      requires old(assembly in modPackagesByAssemblyPlugins) || |location| > |RootModsFolder|
      reads this, importedMods.Values, importedPlugins
    {
      var key := ResolvedKey(old(modPackagesByAssemblyPlugins), RootModsFolder, assembly, location);
      && modPackagesByAssemblyPlugins == old(modPackagesByAssemblyPlugins)[assembly := key]
      && (forall k | k in old(importedMods) :: k in importedMods && importedMods[k] == old(importedMods)[k])
      && PackageStates() == Registered(old(PackageStates()), key, r)
      && outcome == AddOutcome(StateOf(old(PackageStates()), key), key, r)
      && importedPlugins.plugins == old(importedPlugins.plugins) + {r.assembly}
    }

    /** A callback that does not register anything changes nothing. */
    twostate predicate Untouched()
      reads this, importedMods.Values, importedPlugins
    {
      && modPackagesByAssemblyPlugins == old(modPackagesByAssemblyPlugins)
      && importedMods == old(importedMods)
      && PackageStates() == old(PackageStates())
      && importedPlugins.plugins == old(importedPlugins.plugins)
    }

    /** `OnLoaderArchetypeInitializationComplete`: a successfully initialised archetype from
        a module that is not a core assembly is registered with its module's package. */
    method OnLoaderArchetypeInitializationComplete(
      success: bool, archetype: Resource, coreAssemblies: set<ModuleId>, location: string)
      returns (outcome: Outcome<Error>)
      requires Valid() && archetype.kind == Archetype
      requires success && archetype.assembly !in coreAssemblies ==>
        archetype.assembly in modPackagesByAssemblyPlugins || |location| > |RootModsFolder|
      modifies this`modPackagesByAssemblyPlugins, this`importedMods, importedMods.Values, importedPlugins
      ensures Valid()
      ensures success && archetype.assembly !in coreAssemblies ==>
        RegisteredFromPlugin(archetype.assembly, location, archetype, outcome)
      ensures !(success && archetype.assembly !in coreAssemblies) ==> outcome == Pass && Untouched()
    {
      outcome := Pass;
      if success && archetype.assembly !in coreAssemblies {
        outcome := RegisterFromPlugin(archetype.assembly, location, archetype);
      }
    }

    /** `OnLoaderModelFullInitializationComplete`: a model type from a module that is not a
        core assembly is registered with its module's package. */
    method OnLoaderModelFullInitializationComplete(
      success: bool, modelType: Resource, coreAssemblies: set<ModuleId>, location: string)
      returns (outcome: Outcome<Error>)
      requires Valid() && modelType.kind == ModelType
      requires success && modelType.assembly !in coreAssemblies ==>
        modelType.assembly in modPackagesByAssemblyPlugins || |location| > |RootModsFolder|
      modifies this`modPackagesByAssemblyPlugins, this`importedMods, importedMods.Values, importedPlugins
      ensures Valid()
      ensures success && modelType.assembly !in coreAssemblies ==>
        RegisteredFromPlugin(modelType.assembly, location, modelType, outcome)
      ensures !(success && modelType.assembly !in coreAssemblies) ==> outcome == Pass && Untouched()
    {
      outcome := Pass;
      if success && modelType.assembly !in coreAssemblies {
        outcome := RegisterFromPlugin(modelType.assembly, location, modelType);
      }
    }

    /** `OnLoaderComponentInitializationComplete`: a component type from a module that is
        not a core assembly is registered with its module's package. */
    method OnLoaderComponentInitializationComplete(
      success: bool, componentType: Resource, coreAssemblies: set<ModuleId>, location: string)
      returns (outcome: Outcome<Error>)
      requires Valid() && componentType.kind == ComponentType
      requires success && componentType.assembly !in coreAssemblies ==>
        componentType.assembly in modPackagesByAssemblyPlugins || |location| > |RootModsFolder|
      modifies this`modPackagesByAssemblyPlugins, this`importedMods, importedMods.Values, importedPlugins
      ensures Valid()
      ensures success && componentType.assembly !in coreAssemblies ==>
        RegisteredFromPlugin(componentType.assembly, location, componentType, outcome)
      ensures !(success && componentType.assembly !in coreAssemblies) ==> outcome == Pass && Untouched()
    {
      outcome := Pass;
      if success && componentType.assembly !in coreAssemblies {
        outcome := RegisterFromPlugin(componentType.assembly, location, componentType);
      }
    }

    /** `OnLoaderEnumInitializationComplete`: the package is the one of the module that
        declares the enumeration's property (`declaringAssembly`, at `location`), while the
        plugin recorded is the enumeration's own module. */
    method OnLoaderEnumInitializationComplete(
      success: bool, declaringAssembly: ModuleId, enumeration: Resource,
      coreAssemblies: set<ModuleId>, location: string)
      returns (outcome: Outcome<Error>)
      requires Valid() && enumeration.kind == Enumeration
      requires success && declaringAssembly !in coreAssemblies ==>
        declaringAssembly in modPackagesByAssemblyPlugins || |location| > |RootModsFolder|
      modifies this`modPackagesByAssemblyPlugins, this`importedMods, importedMods.Values, importedPlugins
      ensures Valid()
      ensures success && declaringAssembly !in coreAssemblies ==>
        RegisteredFromPlugin(declaringAssembly, location, enumeration, outcome)
      ensures !(success && declaringAssembly !in coreAssemblies) ==> outcome == Pass && Untouched()
    {
      outcome := Pass;
      if success && declaringAssembly !in coreAssemblies {
        outcome := RegisterFromPlugin(declaringAssembly, location, enumeration);
      }
    }

    /** `RemoveResource(r)` on the package stored under `packageKey`. */
    method RemoveFromPackage(packageKey: string, modPackage: ModPackage, r: Resource) returns (outcome: Outcome<Error>)
      requires Valid() && packageKey in importedMods && modPackage == importedMods[packageKey]
      modifies modPackage
      ensures Valid()
      ensures PackageStates() == old(PackageStates())[packageKey := modPackage.State()]
      ensures outcome == UnloadOutcome(old(modPackage.State()), r)
      ensures modPackage.State() == UnloadedState(old(modPackage.State()), packageKey, r)
    {
      ghost var states0 := PackageStates();
      outcome := RemoveFrom(modPackage, r);
      forall k | k in importedMods
        ensures importedMods[k].Valid() && importedMods[k].pluginAssemblies <= importedPlugins.plugins
        ensures importedMods[k].State() == states0[packageKey := modPackage.State()][k]
      {
        if k != packageKey {
          assert importedMods[k].Key != modPackage.Key;
        }
      }
      ghost var states1 := states0[packageKey := modPackage.State()];
      assert PackageStates().Keys == states1.Keys;
    }

    /** `OnUnloadArchetype`: an archetype from a module the context has seen is removed from
        the package memoised for that module; the memo lookup throws when the module was
        never memoised (a module recorded only as an enumeration's own module). */
    method OnUnloadArchetype(archetype: Resource) returns (outcome: Outcome<Error>)
      requires Valid()
      modifies importedMods.Values
      ensures Valid()
      ensures archetype.assembly !in importedPlugins.plugins ==>
        outcome == Pass && PackageStates() == old(PackageStates())
      ensures archetype.assembly in importedPlugins.plugins && archetype.assembly !in modPackagesByAssemblyPlugins ==>
        outcome == Fail(ModuleNotMapped(archetype.assembly)) && PackageStates() == old(PackageStates())
      ensures archetype.assembly in importedPlugins.plugins && archetype.assembly in modPackagesByAssemblyPlugins ==>
        var key := modPackagesByAssemblyPlugins[archetype.assembly];
        && key in old(PackageStates())
        && PackageStates() == Unloaded(old(PackageStates()), key, archetype)
        && outcome == UnloadOutcome(old(PackageStates())[key], archetype)
    {
      if archetype.assembly !in importedPlugins.plugins {
        return Pass;
      }
      if archetype.assembly !in modPackagesByAssemblyPlugins {
        return Fail(ModuleNotMapped(archetype.assembly));
      }
      var packageKey := modPackagesByAssemblyPlugins[archetype.assembly];
      ghost var states0 := PackageStates();
      outcome := RemoveFromPackage(packageKey, importedMods[packageKey], archetype);
      assert states0[packageKey] == old(importedMods[packageKey].State());
    }
  }

  /** Registering keeps every package's invariant, that of a package it creates included. */
  lemma RegisteredPreservesInv(states: map<string, PackageState>, key: string, r: Resource)
    requires forall k | k in states :: Inv(states[k], k)
    ensures forall k | k in Registered(states, key, r) :: Inv(Registered(states, key, r)[k], k)
  {
    AddPreservesInv(StateOf(states, key), key, r);
  }

  /** After registering, the resource key of `r` leads back to its package through the text
      before its `"::"`, and the package holds `r` under it unless the key was taken, in
      which case its map is as it was. */
  lemma RegisteredResourceIsFound(states: map<string, PackageState>, key: string, r: Resource)
    requires forall i | 0 <= i < |key| :: key[i] != ':'
    ensures var rk := MakeResourceKey(key, r.localId);
      var before := StateOf(states, key).resources;
      var t := Registered(states, key, r);
      && BeforeKeySeparator(rk) == key && key in t && rk in t[key].resources
      && (AddOutcome(StateOf(states, key), key, r) == Pass <==> rk !in before)
      && t[key].resources == (if rk in before then before else before[rk := r])
  {
    ResourceKeyRoundTrip(key, r.localId);
  }

  /** Registering the same resource a second time throws on the taken key and changes no
      package. */
  lemma RegisterTwiceThrows(states: map<string, PackageState>, key: string, r: Resource)
    ensures var t := Registered(states, key, r);
      && AddOutcome(StateOf(t, key), key, r) == Fail(DuplicateKey(MakeResourceKey(key, r.localId)))
      && Registered(t, key, r) == t
  {
    var t := Registered(states, key, r);
    assert AfterAdd(StateOf(t, key), key, r) == t[key];
  }

  /** Unloading a resource right after a registration that stored it takes its entry out
      again: the package's map is back to what it was. */
  lemma RegisterThenUnload(states: map<string, PackageState>, key: string, r: Resource)
    requires AddOutcome(StateOf(states, key), key, r) == Pass
    ensures var t := Registered(states, key, r);
      && UnloadOutcome(t[key], r) == Pass
      && Unloaded(t, key, r)[key].resources == StateOf(states, key).resources
  {
    var rk := MakeResourceKey(key, r.localId);
    var t := Registered(states, key, r);
    assert t[key].resources[rk] == r;
    assert t[key].resources - {rk} == StateOf(states, key).resources;
  }

  /** Once resolved, an assembly keeps its package key, whatever location is reported for it
      later. */
  lemma ResolvedKeyIsMemoised(memo: map<ModuleId, string>, root: string, assembly: ModuleId, location: string, location': string)
    requires assembly in memo || |location| > |root|
    ensures var key := ResolvedKey(memo, root, assembly, location);
      ResolvedKey(memo[assembly := key], root, assembly, location') == key
  {
  }
}
