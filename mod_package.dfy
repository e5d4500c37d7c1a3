/** The registry of one mod package (ModPackage.cs): a namespaced map from resource key to
    resource, four pairs of "all"/"base" typed sets, and the set of plugin assemblies that
    contributed to it.

    The pure `PackageState` and its transition functions `AfterAdd` and `AfterRemoval` are the
    specification; the class `ModPackage` updates its fields in place and is proved against
    them. */
module Packages {
  import opened Wrappers
  import opened Resources

  /** `ModPackage.KeySeperator`: separates the package key from a resource's local id. */
  const KeySeparator: string := "::"

  /** `ModPackage.PluginsSubFolderName`: the folder of a package that holds its plugins. */
  const PluginsSubFolderName: string := "_plugins"

  /** `Key + KeySeperator + localId`: the three `MakeResourceKey` overloads, once the
      kind-specific local id has been taken from the resource. */
  function MakeResourceKey(packageKey: string, localId: string): (key: string)
    ensures |key| == |packageKey| + |KeySeparator| + |localId|
    ensures key[..|packageKey|] == packageKey && SeparatorAt(key, |packageKey|)
    ensures key[|packageKey| + |KeySeparator|..] == localId
  {
    packageKey + KeySeparator + localId
  }

  /** A `"::"` starts at index `i` of `s`. */
  predicate SeparatorAt(s: string, i: int)
  {
    0 <= i && i + 1 < |s| && s[i] == ':' && s[i + 1] == ':'
  }

  /** `s.Split("::").First()`: the text before the first `"::"`, or all of `s` when there
      is none. */
  function BeforeKeySeparator(s: string): (r: string)
    ensures r <= s
    ensures forall i | 0 <= i < |r| :: !SeparatorAt(s, i)
    ensures |r| == |s| || SeparatorAt(s, |r|)
  {
    if |s| < 2 then s
    else if s[0] == ':' && s[1] == ':' then ""
    else
      var rest := BeforeKeySeparator(s[1..]);
      assert forall i | 1 <= i <= |rest| :: SeparatorAt(s, i) == SeparatorAt(s[1..], i - 1);
      [s[0]] + rest
  }

  /** A resource key splits back into the package key that made it, provided that key has
      no `':'` (otherwise a `"::"` may start inside it or straddle its end). */
  lemma {:induction false} ResourceKeyRoundTrip(packageKey: string, localId: string)
    requires forall i | 0 <= i < |packageKey| :: packageKey[i] != ':'
    ensures BeforeKeySeparator(MakeResourceKey(packageKey, localId)) == packageKey
    ensures MakeResourceKey(packageKey, localId)[|packageKey| + |KeySeparator|..] == localId
  {
    var key := MakeResourceKey(packageKey, localId);
    var r := BeforeKeySeparator(key);
    assert SeparatorAt(key, |packageKey|);
    assert forall i | 0 <= i < |packageKey| :: key[i] == packageKey[i];
  }

  /** Distinct local ids give distinct resource keys within one package. */
  lemma ResourceKeyInjective(packageKey: string, a: string, b: string)
    ensures a != b ==> MakeResourceKey(packageKey, a) != MakeResourceKey(packageKey, b)
  {
    var n := |packageKey| + |KeySeparator|;
    assert a == MakeResourceKey(packageKey, a)[n..];
    assert b == MakeResourceKey(packageKey, b)[n..];
  }

  /** One "all"/"base" pair of typed sets, e.g. `_importedPluginArchetypes` and
      `_importedPluginBaseArchetypes`. */
  datatype KindSets = KindSets(all: set<Resource>, bases: set<Resource>)
  {
    /** `all.Add(r)`, and `bases.Add(r)` when `r` passes its kind's base predicate. */
    function With(r: Resource): KindSets
    {
      KindSets(all + {r}, if r.isBase then bases + {r} else bases)
    }

    /** `all.Remove(r)` and `bases.Remove(r)`. */
    function Without(r: Resource): KindSets
    {
      KindSets(all - {r}, bases - {r})
    }
  }

  const NoResources: KindSets := KindSets({}, {})

  /** The value of every field of a `ModPackage` that its methods change. */
  datatype PackageState = PackageState(
    resources: map<string, Resource>,
    plugins: set<ModuleId>,
    archetypes: KindSets,
    enumerations: KindSets,
    modelTypes: KindSets,
    componentTypes: KindSets)
  {
    /** The pair of typed sets the `_add*FromPlugin` method for `kind` fills. */
    function SetsFor(kind: Kind): KindSets
    {
      match kind
      case Archetype => archetypes
      case Enumeration => enumerations
      case ModelType => modelTypes
      case ComponentType => componentTypes
    }

    function WithSetsFor(kind: Kind, sets: KindSets): PackageState
    {
      match kind
      case Archetype => this.(archetypes := sets)
      case Enumeration => this.(enumerations := sets)
      case ModelType => this.(modelTypes := sets)
      case ComponentType => this.(componentTypes := sets)
    }

    /** The union of the four base sets. */
    function Bases(): set<Resource>
    {
      archetypes.bases + enumerations.bases + modelTypes.bases + componentTypes.bases
    }

    /** Some base resource of some kind comes from `assembly` (ModPackage.cs:321-324). */
    predicate HasBaseFrom(assembly: ModuleId)
    {
      exists b | b in Bases() :: b.assembly == assembly
    }
  }

  /** A package as its constructor leaves it. */
  const EmptyPackage: PackageState :=
    PackageState(map[], {}, NoResources, NoResources, NoResources, NoResources)

  /** What the package's own code keeps true:
      - every base set lies within its "all" set;
      - each typed set holds only resources of its kind;
      - every key is the resource key of the resource stored under it;
      - every base resource's module is a recorded plugin of the package.
      It does NOT say that the typed sets lie within the stored resources: removal can leave
      a resource in an "all" set after its entry is gone (see `LingeringAfterModuleDropped`). */
  ghost predicate Inv(s: PackageState, packageKey: string)
  {
    && TypedSetsWellFormed(s)
    && KeysMatch(s, packageKey)
    && BasesRegistered(s)
  }

  ghost predicate SetsWellFormed(sets: KindSets, kind: Kind)
  {
    && sets.bases <= sets.all
    && forall r | r in sets.all :: r.kind == kind
  }

  ghost predicate TypedSetsWellFormed(s: PackageState)
  {
    && SetsWellFormed(s.archetypes, Archetype)
    && SetsWellFormed(s.enumerations, Enumeration)
    && SetsWellFormed(s.modelTypes, ModelType)
    && SetsWellFormed(s.componentTypes, ComponentType)
  }

  ghost predicate KeysMatch(s: PackageState, packageKey: string)
  {
    forall k | k in s.resources :: k == MakeResourceKey(packageKey, s.resources[k].localId)
  }

  ghost predicate BasesRegistered(s: PackageState)
  {
    forall b | b in s.Bases() :: b.assembly in s.plugins
  }

  /** `_add*FromPlugin(r)` (ModPackage.cs:333-367): the module joins the plugin set first;
      then `Dictionary.Add` either throws on an existing key, leaving everything else as it
      was, or stores `r` and puts it into its kind's "all" set, and into the "base" set when
      its base predicate holds. */
  function AfterAdd(s: PackageState, packageKey: string, r: Resource): PackageState
  {
    var key := MakeResourceKey(packageKey, r.localId);
    var registered := s.(plugins := s.plugins + {r.assembly});
    if key in s.resources then registered
    else registered.(resources := s.resources[key := r]).WithSetsFor(r.kind, s.SetsFor(r.kind).With(r))
  }

  /** Whether `_add*FromPlugin(r)` completes or throws on a duplicate key. */
  function AddOutcome(s: PackageState, packageKey: string, r: Resource): Outcome<Error>
  {
    var key := MakeResourceKey(packageKey, r.localId);
    if key in s.resources then Fail(DuplicateKey(key)) else Pass
  }

  /** `RemoveResource(r)` as intended (ModPackage.cs:291-331), once the entry holding `r`
      is found: the entry goes; if `r`'s module is a plugin of the package, `r` leaves the
      typed sets its run-time type selects, and the module is dropped when no base resource
      of any kind from it remains. A type that is not a model touches no typed set. */
  function AfterRemoval(s: PackageState, packageKey: string, r: Resource): (after: PackageState)
    ensures MakeResourceKey(packageKey, r.localId) !in after.resources && after.plugins <= s.plugins
  {
    var m := r.assembly;
    var unmapped := s.(resources := s.resources - {MakeResourceKey(packageKey, r.localId)});
    if m !in s.plugins then unmapped
    else
      var untyped := WithoutTyped(unmapped, r);
      if untyped.HasBaseFrom(m) then untyped else untyped.(plugins := s.plugins - {m})
  }

  /** The typed-set part of removal (ModPackage.cs:296-318): dispatch on the stored object's
      run-time type, and for a type on its `IModel` and `IComponent` flags. */
  function WithoutTyped(s: PackageState, r: Resource): (after: PackageState)
    ensures after.resources == s.resources && after.plugins == s.plugins
  {
    match r.kind
    case Archetype => s.(archetypes := s.archetypes.Without(r))
    case Enumeration => s.(enumerations := s.enumerations.Without(r))
    case _ =>
      if !r.isModel then s
      else if r.isComponent then s.(componentTypes := s.componentTypes.Without(r))
      else s.(modelTypes := s.modelTypes.Without(r))
  }

  /** Adding keeps the package invariant, whether or not the key was taken. */
  lemma AddPreservesInv(s: PackageState, packageKey: string, r: Resource)
    requires Inv(s, packageKey)
    ensures Inv(AfterAdd(s, packageKey, r), packageKey)
  {
    var t := AfterAdd(s, packageKey, r);
    assert t.Bases() <= s.Bases() + {r};
    assert TypedSetsWellFormed(t);
    assert BasesRegistered(t);
  }

  /** Removing keeps the package invariant: in particular base sets stay within their "all"
      sets, and a module is dropped only when no base resource still needs it. */
  lemma RemovePreservesInv(s: PackageState, packageKey: string, r: Resource)
    requires Inv(s, packageKey)
    ensures Inv(AfterRemoval(s, packageKey, r), packageKey)
  {
    var m := r.assembly;
    var unmapped := s.(resources := s.resources - {MakeResourceKey(packageKey, r.localId)});
    assert KeysMatch(unmapped, packageKey);
    if m in s.plugins {
      var untyped := WithoutTyped(unmapped, r);
      assert TypedSetsWellFormed(untyped);
      assert untyped.Bases() <= s.Bases();
      assert BasesRegistered(untyped);
      if !untyped.HasBaseFrom(m) {
        var t := untyped.(plugins := s.plugins - {m});
        assert BasesRegistered(t);
      }
    }
  }

  /** A successful add stores `r` under its resource key, files it under its kind, records
      its module, and grows the map by exactly one entry. */
  lemma AddRegistersResource(s: PackageState, packageKey: string, r: Resource)
    requires MakeResourceKey(packageKey, r.localId) !in s.resources
    ensures var t := AfterAdd(s, packageKey, r);
      && AddOutcome(s, packageKey, r) == Pass
      && t.resources == s.resources[MakeResourceKey(packageKey, r.localId) := r]
      && |t.resources| == |s.resources| + 1
      && r in t.SetsFor(r.kind).all
      && (r in t.SetsFor(r.kind).bases <==> r.isBase || r in s.SetsFor(r.kind).bases)
      && r.assembly in t.plugins
  {
  }

  /** Adding under a taken key throws, but only after the module has joined the plugin set:
      the map and the typed sets are unchanged, the plugin set is not. */
  lemma DuplicateAddKeepsPlugin(s: PackageState, packageKey: string, r: Resource)
    requires MakeResourceKey(packageKey, r.localId) in s.resources
    ensures AddOutcome(s, packageKey, r) == Fail(DuplicateKey(MakeResourceKey(packageKey, r.localId)))
    ensures AfterAdd(s, packageKey, r) == s.(plugins := s.plugins + {r.assembly})
    ensures r.assembly !in s.plugins ==> AfterAdd(s, packageKey, r) != s
  {
    assert r.assembly in AfterAdd(s, packageKey, r).plugins;
  }

  /** Adding a sequence of resources one after the other. */
  function AddAll(s: PackageState, packageKey: string, rs: seq<Resource>): PackageState
    decreases |rs|
  {
    if rs == [] then s else AddAll(AfterAdd(s, packageKey, rs[0]), packageKey, rs[1..])
  }

  /** With pairwise distinct keys, none of them taken, every add succeeds and the map grows
      by the number of adds. */
  lemma {:induction false} AddAllDistinctSize(s: PackageState, packageKey: string, rs: seq<Resource>)
    requires forall i, j | 0 <= i < j < |rs| :: rs[i].localId != rs[j].localId
    requires forall i | 0 <= i < |rs| :: MakeResourceKey(packageKey, rs[i].localId) !in s.resources
    ensures |AddAll(s, packageKey, rs).resources| == |s.resources| + |rs|
    decreases |rs|
  {
    if rs != [] {
      var t := AfterAdd(s, packageKey, rs[0]);
      AddRegistersResource(s, packageKey, rs[0]);
      forall i | 0 <= i < |rs[1..]|
        ensures MakeResourceKey(packageKey, rs[1..][i].localId) !in t.resources
      {
        assert rs[0].localId != rs[i + 1].localId;
        ResourceKeyInjective(packageKey, rs[1..][i].localId, rs[0].localId);
      }
      AddAllDistinctSize(t, packageKey, rs[1..]);
    }
  }

  /** The entry holding `r` is the one under its resource key. */
  lemma FoundEntryIsKeyed(s: PackageState, packageKey: string, r: Resource, key: string)
    requires Inv(s, packageKey)
    requires key in s.resources && s.resources[key] == r
    ensures key == MakeResourceKey(packageKey, r.localId)
  {
  }

  /** Removal's dispatch on the run-time type reaches the sets the add filled: true of
      archetypes and enumerations, and of types whose `IModel`/`IComponent` flags agree with
      the path that registered them. */
  predicate RemovalTargetsOwnSets(r: Resource)
  {
    match r.kind
    case Archetype => true
    case Enumeration => true
    case ModelType => r.isModel && !r.isComponent
    case ComponentType => r.isModel && r.isComponent
  }

  /** Removing a resource from the typed sets its kind and flags select takes exactly that
      resource out of the base resources, as the sets hold only resources of their kind. */
  lemma WithoutTypedBases(s: PackageState, r: Resource)
    requires TypedSetsWellFormed(s) && RemovalTargetsOwnSets(r)
    ensures WithoutTyped(s, r).Bases() == s.Bases() - {r}
  {
    assert forall b | b in s.Bases() :: b in s.SetsFor(b.kind).bases;
  }

  /** Reference counting of contributors: with two base resources from one module, removing
      the first keeps the module; removing the second as well drops it, when no other base
      resource comes from it. */
  lemma {:induction false} ReferenceCounting(s: PackageState, packageKey: string, r1: Resource, r2: Resource)
    requires Inv(s, packageKey)
    requires r1 != r2 && r1.assembly == r2.assembly && r1.assembly in s.plugins
    requires MakeResourceKey(packageKey, r1.localId) in s.resources && s.resources[MakeResourceKey(packageKey, r1.localId)] == r1
    requires MakeResourceKey(packageKey, r2.localId) in s.resources && s.resources[MakeResourceKey(packageKey, r2.localId)] == r2
    requires r1 in s.SetsFor(r1.kind).bases && r2 in s.SetsFor(r2.kind).bases
    requires RemovalTargetsOwnSets(r1) && RemovalTargetsOwnSets(r2)
    requires forall b | b in s.Bases() && b.assembly == r1.assembly :: b == r1 || b == r2
    ensures r1.assembly in AfterRemoval(s, packageKey, r1).plugins
    ensures r1.assembly !in AfterRemoval(AfterRemoval(s, packageKey, r1), packageKey, r2).plugins
  {
    var m := r1.assembly;
    var unmapped := s.(resources := s.resources - {MakeResourceKey(packageKey, r1.localId)});
    WithoutTypedBases(unmapped, r1);
    assert r2 in s.Bases();
    var t := AfterRemoval(s, packageKey, r1);
    assert t.Bases() == s.Bases() - {r1};
    assert m in t.plugins;
    RemovePreservesInv(s, packageKey, r1);
    var unmapped' := t.(resources := t.resources - {MakeResourceKey(packageKey, r2.localId)});
    WithoutTypedBases(unmapped', r2);
    var u := AfterRemoval(t, packageKey, r2);
    assert WithoutTyped(unmapped', r2).Bases() == s.Bases() - {r1, r2};
    assert !WithoutTyped(unmapped', r2).HasBaseFrom(m);
  }

  /** Only base resources count: a module whose last base resource goes is dropped even
      while a non-base resource of it is still stored. */
  lemma NonBaseDoesNotKeepModule(s: PackageState, packageKey: string, base: Resource, other: Resource)
    requires Inv(s, packageKey)
    requires base.assembly in s.plugins && other.assembly == base.assembly
    requires base in s.SetsFor(base.kind).bases && RemovalTargetsOwnSets(base)
    requires MakeResourceKey(packageKey, base.localId) in s.resources
    requires s.resources[MakeResourceKey(packageKey, base.localId)] == base
    requires forall b | b in s.Bases() && b.assembly == base.assembly :: b == base
    requires MakeResourceKey(packageKey, other.localId) in s.resources
    requires s.resources[MakeResourceKey(packageKey, other.localId)] == other && other != base
    ensures other in AfterRemoval(s, packageKey, base).resources.Values
    ensures base.assembly !in AfterRemoval(s, packageKey, base).plugins
  {
    var t := AfterRemoval(s, packageKey, base);
    ResourceKeyInjective(packageKey, other.localId, base.localId);
    assert t.resources[MakeResourceKey(packageKey, other.localId)] == other;
    assert base !in t.Bases();
    assert !t.HasBaseFrom(base.assembly);
  }

  /** Removal of a resource whose module is no longer a plugin of the package only drops its
      entry: it stays in its "all" set, so the typed sets are not views of the map. */
  lemma LingeringAfterModuleDropped(s: PackageState, packageKey: string, r: Resource)
    requires r.assembly !in s.plugins && r in s.SetsFor(r.kind).all
    ensures MakeResourceKey(packageKey, r.localId) !in AfterRemoval(s, packageKey, r).resources
    ensures r in AfterRemoval(s, packageKey, r).SetsFor(r.kind).all
  {
  }

  /** The object the literal predicate at ModPackage.cs:292 compares against: `r.Equals(resource)`
      is `KeyValuePair<string, object>.Equals(object)`, true only of a boxed pair with the same
      key and value. */
  datatype Boxed = BoxedResource(resource: Resource) | BoxedPair(key: string, value: Resource)

  predicate PairEquals(key: string, value: Resource, other: Boxed)
  {
    other == BoxedPair(key, value)
  }

  /** `RemoveResource` as written: `FirstOrDefault` with the literal predicate; when nothing
      matches, `found` is the default pair and `_resources.Remove(null)` throws. */
  function RemoveResourceAsWritten(resources: map<string, Resource>, resource: Resource): (outcome: Outcome<Error>)
    ensures outcome == Pass || outcome == Fail(ArgumentNull)
  {
    if exists k | k in resources :: PairEquals(k, resources[k], BoxedResource(resource)) then Pass
    else Fail(ArgumentNull)
  }

  /** As written, removal throws for every resource, also for one the package holds, where
      the intended removal succeeds and drops the entry. */
  lemma RemoveResourceAsWrittenAlwaysThrows(s: PackageState, packageKey: string, resource: Resource)
    requires MakeResourceKey(packageKey, resource.localId) in s.resources
    requires s.resources[MakeResourceKey(packageKey, resource.localId)] == resource
    ensures RemoveResourceAsWritten(s.resources, resource) == Fail(ArgumentNull)
    ensures MakeResourceKey(packageKey, resource.localId) !in AfterRemoval(s, packageKey, resource).resources
  {
  }

  /** `Universe.GetMods()._importedPlugins`: the context-wide set of plugin assemblies that
      every package of the context reports into. Packages only ever add to it. */
  class PluginRegistry {
    var plugins: set<ModuleId>

    constructor ()
      ensures plugins == {}
    {
      plugins := {};
    }

    /** `ModContext._addPlugin`. */
    method Add(plugin: ModuleId)
      modifies this
      ensures plugins == old(plugins) + {plugin}
    {
      plugins := plugins + {plugin};
    }
  }

  class ModPackage {
    /** The unique name of the package. */
    const Key: string
    /** Where `_addPlugin` reports new plugins: the context's `_importedPlugins`. */
    const registry: PluginRegistry

    var resources: map<string, Resource>
    var pluginAssemblies: set<ModuleId>
    var importedPluginArchetypes: set<Resource>
    var importedPluginBaseArchetypes: set<Resource>
    var importedPluginModels: set<Resource>
    var importedPluginBaseModels: set<Resource>
    var importedPluginComponents: set<Resource>
    var importedPluginBaseComponents: set<Resource>
    var importedPluginEnumerations: set<Resource>
    var importedPluginBaseEnumerations: set<Resource>

    ghost function State(): PackageState
      reads this
    {
      PackageState(
        resources, pluginAssemblies,
        KindSets(importedPluginArchetypes, importedPluginBaseArchetypes),
        KindSets(importedPluginEnumerations, importedPluginBaseEnumerations),
        KindSets(importedPluginModels, importedPluginBaseModels),
        KindSets(importedPluginComponents, importedPluginBaseComponents))
    }

    ghost predicate Valid()
      reads this
    {
      Inv(State(), Key)
    }

    /** Nothing has been added to the package yet. */
    ghost predicate IsEmpty()
      reads this
      ensures IsEmpty() ==> Valid() && pluginAssemblies == {}
    {
      State() == EmptyPackage
    }

    constructor (key: string, registry: PluginRegistry)
      ensures Key == key && this.registry == registry
      ensures IsEmpty() && Valid()
    {
      Key := key;
      this.registry := registry;
      resources := map[];
      pluginAssemblies := {};
      importedPluginArchetypes, importedPluginBaseArchetypes := {}, {};
      importedPluginModels, importedPluginBaseModels := {}, {};
      importedPluginComponents, importedPluginBaseComponents := {}, {};
      importedPluginEnumerations, importedPluginBaseEnumerations := {}, {};
    }

    /** The `PluginAssembles` property. As written its getter returns `PluginAssembles`
        itself and so never returns (it recurses until the stack overflows); this model reads
        the backing field `_pluginAssemblies`, as evidently intended. */
    function PluginAssemblies(): (plugins: set<ModuleId>)
      reads this
      ensures Valid() ==> forall b | b in State().Bases() :: b.assembly in plugins
    {
      pluginAssemblies
    }

    /** `GetArchetype`: the indexer throws on a missing key, the cast on another kind. */
    function GetArchetype(resourceKey: string): (r: Result<Resource, Error>)
      reads this
      ensures r.Ok? <==> resourceKey in resources && resources[resourceKey].kind == Archetype
      ensures r.Ok? ==> r.value == resources[resourceKey]
      ensures resourceKey !in resources ==> r == Err(KeyNotFound(resourceKey))
      ensures resourceKey in resources && r.Err? ==> r == Err(InvalidCast(resourceKey))
    {
      if resourceKey !in resources then Err(KeyNotFound(resourceKey))
      else if resources[resourceKey].kind != Archetype then Err(InvalidCast(resourceKey))
      else Ok(resources[resourceKey])
    }

    /** `TryToGetArchetype`: `Some(a)` for a true return with out value `a`, `None` for a
        false return with the out value null. */
    function TryToGetArchetype(resourceKey: string): (r: Option<Resource>)
      reads this
      ensures r.Some? <==> resourceKey in resources && resources[resourceKey].kind == Archetype
      ensures r.Some? ==> r.value == resources[resourceKey]
    {
      if resourceKey in resources && resources[resourceKey].kind == Archetype
      then Some(resources[resourceKey]) else None
    }

    /** `GetEnumeration`. */
    function GetEnumeration(resourceKey: string): (r: Result<Resource, Error>)
      reads this
      ensures r.Ok? <==> resourceKey in resources && resources[resourceKey].kind == Enumeration
      ensures r.Ok? ==> r.value == resources[resourceKey]
      ensures resourceKey !in resources ==> r == Err(KeyNotFound(resourceKey))
      ensures resourceKey in resources && r.Err? ==> r == Err(InvalidCast(resourceKey))
    {
      if resourceKey !in resources then Err(KeyNotFound(resourceKey))
      else if resources[resourceKey].kind != Enumeration then Err(InvalidCast(resourceKey))
      else Ok(resources[resourceKey])
    }

    /** `TryToGetEnumeration`. */
    function TryToGetEnumeration(resourceKey: string): (r: Option<Resource>)
      reads this
      ensures r.Some? <==> resourceKey in resources && resources[resourceKey].kind == Enumeration
      ensures r.Some? ==> r.value == resources[resourceKey]
    {
      if resourceKey in resources && resources[resourceKey].kind == Enumeration
      then Some(resources[resourceKey]) else None
    }

    /** `GetModelType`: the stored object must be a type that is a model and not a
        component. */
    function GetModelType(resourceKey: string): (r: Result<Resource, Error>)
      reads this
      ensures r.Ok? <==> (resourceKey in resources && resources[resourceKey].IsType()
        && resources[resourceKey].isModel && !resources[resourceKey].isComponent)
      ensures r.Ok? ==> r.value == resources[resourceKey]
      ensures resourceKey !in resources ==> r == Err(KeyNotFound(resourceKey))
      ensures resourceKey in resources && r.Err? ==> r == Err(InvalidCast(resourceKey))
    {
      if resourceKey !in resources then Err(KeyNotFound(resourceKey))
      else
        var found := resources[resourceKey];
        if !found.IsType() then Err(InvalidCast(resourceKey))
        else if found.isModel && !found.isComponent then Ok(found)
        else Err(InvalidCast(resourceKey))
    }

    /** `TryToGetModelType`. */
    function TryToGetModelType(resourceKey: string): (r: Option<Resource>)
      reads this
      ensures r.Some? <==> (resourceKey in resources && resources[resourceKey].IsType()
        && resources[resourceKey].isModel && !resources[resourceKey].isComponent)
      ensures r.Some? ==> r.value == resources[resourceKey]
    {
      var modelType := if resourceKey in resources && resources[resourceKey].IsType()
        then Some(resources[resourceKey]) else None;
      if modelType.None? then None
      else if modelType.value.isModel && !modelType.value.isComponent then modelType
      else None
    }

    /** `GetComponentType`: the stored object must be a type that is a component. */
    function GetComponentType(resourceKey: string): (r: Result<Resource, Error>)
      reads this
      ensures r.Ok? <==> (resourceKey in resources && resources[resourceKey].IsType()
        && resources[resourceKey].isComponent)
      ensures r.Ok? ==> r.value == resources[resourceKey]
      ensures resourceKey !in resources ==> r == Err(KeyNotFound(resourceKey))
      ensures resourceKey in resources && r.Err? ==> r == Err(InvalidCast(resourceKey))
    {
      if resourceKey !in resources then Err(KeyNotFound(resourceKey))
      else
        var found := resources[resourceKey];
        if found.IsType() && found.isComponent then Ok(found) else Err(InvalidCast(resourceKey))
    }

    /** `TryToGetComponentType`. */
    function TryToGetComponentType(resourceKey: string): (r: Option<Resource>)
      reads this
      ensures r.Some? <==> (resourceKey in resources && resources[resourceKey].IsType()
        && resources[resourceKey].isComponent)
      ensures r.Some? ==> r.value == resources[resourceKey]
    {
      var componentType := if resourceKey in resources && resources[resourceKey].IsType()
        then Some(resources[resourceKey]) else None;
      if componentType.None? then None
      else if componentType.value.isComponent then componentType
      else None
    }

    /** `GetResourceByKey`. */
    function GetResourceByKey(resourceKey: string): (r: Result<Resource, Error>)
      reads this
      ensures r.Ok? <==> resourceKey in resources
      ensures r.Ok? ==> r.value == resources[resourceKey]
      ensures r.Err? ==> r.error == KeyNotFound(resourceKey)
    {
      if resourceKey in resources then Ok(resources[resourceKey]) else Err(KeyNotFound(resourceKey))
    }

    /** `TryToGetResourceByKey`. */
    function TryToGetResourceByKey(resourceKey: string): (r: Option<Resource>)
      reads this
      ensures r.Some? <==> resourceKey in resources
      ensures r.Some? ==> r.value == resources[resourceKey]
    {
      if resourceKey in resources then Some(resources[resourceKey]) else None
    }

    /** `AddResource`: `Dictionary.Add` throws on a key already present. */
    method AddResource(key: string, resource: Resource) returns (outcome: Outcome<Error>)
      modifies this`resources
      ensures key in old(resources) ==> outcome == Fail(DuplicateKey(key)) && resources == old(resources)
      ensures key !in old(resources) ==> outcome == Pass && resources == old(resources)[key := resource]
    {
      if key in resources {
        return Fail(DuplicateKey(key));
      }
      resources := resources[key := resource];
      outcome := Pass;
    }

    /** `_addPlugin`: records the plugin here and in the context-wide registry. */
    method AddPlugin(plugin: ModuleId)
      modifies this`pluginAssemblies, registry
      ensures pluginAssemblies == old(pluginAssemblies) + {plugin}
      ensures registry.plugins == old(registry.plugins) + {plugin}
    {
      pluginAssemblies := pluginAssemblies + {plugin};
      registry.Add(plugin);
    }

    /** `_addArchetypeFromPlugin`. */
    method AddArchetypeFromPlugin(archetype: Resource) returns (outcome: Outcome<Error>)
      requires Valid() && archetype.kind == Archetype
      modifies this, registry
      ensures Valid()
      ensures State() == AfterAdd(old(State()), Key, archetype)
      ensures outcome == AddOutcome(old(State()), Key, archetype)
      ensures registry.plugins == old(registry.plugins) + {archetype.assembly}
    {
      AddPreservesInv(State(), Key, archetype);
      AddPlugin(archetype.assembly);
      outcome := AddResource(MakeResourceKey(Key, archetype.localId), archetype);
      if outcome.Fail? {
        return;
      }
      importedPluginArchetypes := importedPluginArchetypes + {archetype};
      if archetype.isBase {
        importedPluginBaseArchetypes := importedPluginBaseArchetypes + {archetype};
      }
    }

    /** `_addEnumerationFromPlugin`. */
    method AddEnumerationFromPlugin(enumeration: Resource) returns (outcome: Outcome<Error>)
      requires Valid() && enumeration.kind == Enumeration
      modifies this, registry
      ensures Valid()
      ensures State() == AfterAdd(old(State()), Key, enumeration)
      ensures outcome == AddOutcome(old(State()), Key, enumeration)
      ensures registry.plugins == old(registry.plugins) + {enumeration.assembly}
    {
      AddPreservesInv(State(), Key, enumeration);
      AddPlugin(enumeration.assembly);
      outcome := AddResource(MakeResourceKey(Key, enumeration.localId), enumeration);
      if outcome.Fail? {
        return;
      }
      importedPluginEnumerations := importedPluginEnumerations + {enumeration};
      if enumeration.isBase {
        importedPluginBaseEnumerations := importedPluginBaseEnumerations + {enumeration};
      }
    }

    /** `_addModelTypeFromPlugin`. */
    method AddModelTypeFromPlugin(modelType: Resource) returns (outcome: Outcome<Error>)
      requires Valid() && modelType.kind == ModelType
      modifies this, registry
      ensures Valid()
      ensures State() == AfterAdd(old(State()), Key, modelType)
      ensures outcome == AddOutcome(old(State()), Key, modelType)
      ensures registry.plugins == old(registry.plugins) + {modelType.assembly}
    {
      AddPreservesInv(State(), Key, modelType);
      AddPlugin(modelType.assembly);
      outcome := AddResource(MakeResourceKey(Key, modelType.localId), modelType);
      if outcome.Fail? {
        return;
      }
      importedPluginModels := importedPluginModels + {modelType};
      if modelType.isBase {
        importedPluginBaseModels := importedPluginBaseModels + {modelType};
      }
    }

    /** `_addComponentTypeFromPlugin`. */
    method AddComponentTypeFromPlugin(componentType: Resource) returns (outcome: Outcome<Error>)
      requires Valid() && componentType.kind == ComponentType
      modifies this, registry
      ensures Valid()
      ensures State() == AfterAdd(old(State()), Key, componentType)
      ensures outcome == AddOutcome(old(State()), Key, componentType)
      ensures registry.plugins == old(registry.plugins) + {componentType.assembly}
    {
      AddPreservesInv(State(), Key, componentType);
      AddPlugin(componentType.assembly);
      outcome := AddResource(MakeResourceKey(Key, componentType.localId), componentType);
      if outcome.Fail? {
        return;
      }
      importedPluginComponents := importedPluginComponents + {componentType};
      if componentType.isBase {
        importedPluginBaseComponents := importedPluginBaseComponents + {componentType};
      }
    }

    /** `RemoveResource` with the entry found by its value, as intended (see
        `RemoveResourceAsWritten` for the code as written). When no entry holds the resource,
        `found` is the default pair and `_resources.Remove(null)` throws before anything
        changes. */
    method RemoveResource(resource: Resource) returns (outcome: Outcome<Error>)
      requires Valid()
      modifies this
      ensures Valid()
      ensures resource !in old(resources).Values ==> outcome == Fail(ArgumentNull) && State() == old(State())
      ensures resource in old(resources).Values ==>
        outcome == Pass && State() == AfterRemoval(old(State()), Key, resource)
      ensures pluginAssemblies <= old(pluginAssemblies)
    {
      if resource !in resources.Values {
        return Fail(ArgumentNull);
      }
      ghost var before := State();
      RemovePreservesInv(before, Key, resource);
      var found :| found in resources && resources[found] == resource;
      FoundEntryIsKeyed(before, Key, resource, found);
      resources := resources - {found};
      ghost var unmapped := State();
      assert unmapped == before.(resources := before.resources - {MakeResourceKey(Key, resource.localId)});

      var pluginAssembly := resource.assembly;
      RemoveFromTypedSets(resource);
      if pluginAssembly in PluginAssemblies() {
        DropPluginIfUnreferenced(pluginAssembly);
      }
      outcome := Pass;
    }

    /** The typed-set stage of `RemoveResource` (ModPackage.cs:295-318): nothing happens
        unless the resource's assembly is a plugin of the package. */
    method RemoveFromTypedSets(resource: Resource)
      modifies this`importedPluginArchetypes, this`importedPluginBaseArchetypes
      modifies this`importedPluginModels, this`importedPluginBaseModels
      modifies this`importedPluginComponents, this`importedPluginBaseComponents
      modifies this`importedPluginEnumerations, this`importedPluginBaseEnumerations
      ensures State() == if resource.assembly in pluginAssemblies then WithoutTyped(old(State()), resource) else old(State())
    {
      var pluginAssembly := resource.assembly;
      match resource.kind {
        case Archetype =>
          if pluginAssembly in PluginAssemblies() {
            importedPluginArchetypes := importedPluginArchetypes - {resource};
            importedPluginBaseArchetypes := importedPluginBaseArchetypes - {resource};
          }
        case Enumeration =>
          if pluginAssembly in PluginAssemblies() {
            importedPluginEnumerations := importedPluginEnumerations - {resource};
            importedPluginBaseEnumerations := importedPluginBaseEnumerations - {resource};
          }
        case _ =>
          if pluginAssembly in PluginAssemblies() {
            if resource.isModel {
              if resource.isComponent {
                importedPluginComponents := importedPluginComponents - {resource};
                importedPluginBaseComponents := importedPluginBaseComponents - {resource};
              } else {
                importedPluginModels := importedPluginModels - {resource};
                importedPluginBaseModels := importedPluginBaseModels - {resource};
              }
            }
          }
      }
    }

    /** The reference-count stage of `RemoveResource` (ModPackage.cs:320-328): the assembly
        stays a plugin only while one of the four base sets holds a resource from it. */
    method DropPluginIfUnreferenced(pluginAssembly: ModuleId)
      modifies this`pluginAssemblies
      ensures State() == if old(State()).HasBaseFrom(pluginAssembly) then old(State())
        else old(State()).(plugins := old(pluginAssemblies) - {pluginAssembly})
    {
      assert State().HasBaseFrom(pluginAssembly) <==>
        || (exists a | a in importedPluginBaseArchetypes :: a.assembly == pluginAssembly)
        || (exists t | t in importedPluginBaseModels :: t.assembly == pluginAssembly)
        || (exists e | e in importedPluginBaseEnumerations :: e.assembly == pluginAssembly)
        || (exists t | t in importedPluginBaseComponents :: t.assembly == pluginAssembly);
      if && !(exists a | a in importedPluginBaseArchetypes :: a.assembly == pluginAssembly)
         && !(exists t | t in importedPluginBaseModels :: t.assembly == pluginAssembly)
         && !(exists e | e in importedPluginBaseEnumerations :: e.assembly == pluginAssembly)
         && !(exists t | t in importedPluginBaseComponents :: t.assembly == pluginAssembly)
      {
        pluginAssemblies := pluginAssemblies - {pluginAssembly};
      }
    }
  }

  /** `TryToGet*` agrees with `Get*` for every kind: the try-form succeeds exactly when the
      throwing form returns, and with the same resource. */
  lemma TryAgreesWithGet(p: ModPackage, resourceKey: string)
    ensures p.TryToGetArchetype(resourceKey).Some? <==> p.GetArchetype(resourceKey).Ok?
    ensures p.TryToGetEnumeration(resourceKey).Some? <==> p.GetEnumeration(resourceKey).Ok?
    ensures p.TryToGetModelType(resourceKey).Some? <==> p.GetModelType(resourceKey).Ok?
    ensures p.TryToGetComponentType(resourceKey).Some? <==> p.GetComponentType(resourceKey).Ok?
    ensures p.TryToGetResourceByKey(resourceKey).Some? <==> p.GetResourceByKey(resourceKey).Ok?
    ensures p.GetModelType(resourceKey).Ok? ==> p.TryToGetModelType(resourceKey).value == p.GetModelType(resourceKey).value
    ensures p.GetComponentType(resourceKey).Ok? ==> p.TryToGetComponentType(resourceKey).value == p.GetComponentType(resourceKey).value
  {
  }

  /** Kind-check isolation: no key answers both as a model type and as a component type, so
      a component type (which is also a model) is never returned as a model type. */
  lemma ModelAndComponentLookupsDisjoint(p: ModPackage, resourceKey: string)
    ensures !(p.TryToGetModelType(resourceKey).Some? && p.TryToGetComponentType(resourceKey).Some?)
    ensures p.TryToGetModelType(resourceKey).Some? ==> !p.TryToGetModelType(resourceKey).value.isComponent
  {
  }
}
