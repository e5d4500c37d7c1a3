/** The universe helpers of ModContextExtensions.cs, with the universe's mod context passed
    in for `universe.GetMods()`. */
module ContextExtensions {
  import opened Wrappers
  import opened Resources
  import opened Packages
  import opened Contexts

  /** `GetMod(universe, modOrResourceKey)`: the package `TryToGetModPackage` finds, or a
      `KeyNotFoundException` naming the key. */
  function GetMod(mods: ModContext, modOrResourceKey: string): (r: Result<ModPackage, Error>)
    reads mods
    ensures r.Ok? <==> mods.TryToGetModPackage(modOrResourceKey).Some?
    ensures r.Ok? ==> Some(r.value) == mods.TryToGetModPackage(modOrResourceKey)
    ensures r.Err? ==> r.error == KeyNotFound(modOrResourceKey)
  {
    match mods.TryToGetModPackage(modOrResourceKey)
    case Some(found) => Ok(found)
    case None => Err(KeyNotFound(modOrResourceKey))
  }

  /** A package key finds its own package. */
  lemma GetModByPackageKey(mods: ModContext, packageKey: string)
    requires mods.PackagesKeyed() && packageKey in mods.importedMods
    ensures GetMod(mods, packageKey).Ok?
    ensures GetMod(mods, packageKey).value == mods.importedMods[packageKey]
    ensures GetMod(mods, packageKey).value.Key == packageKey
  {
  }

  /** A resource key finds the package that made it, provided the package key has no `':'`
      and no package is named by the whole resource key (an exact package key wins). */
  lemma {:induction false} GetModByResourceKey(mods: ModContext, packageKey: string, localId: string)
    requires mods.PackagesKeyed() && packageKey in mods.importedMods
    requires forall i | 0 <= i < |packageKey| :: packageKey[i] != ':'
    requires MakeResourceKey(packageKey, localId) !in mods.importedMods
    ensures GetMod(mods, MakeResourceKey(packageKey, localId)) == Ok(mods.importedMods[packageKey])
  {
    ResourceKeyRoundTrip(packageKey, localId);
  }

  /** Any other key is reported as not found: neither it nor the text before its first
      `"::"` names a package. */
  lemma GetModMisses(mods: ModContext, key: string)
    requires key !in mods.importedMods && BeforeKeySeparator(key) !in mods.importedMods
    ensures GetMod(mods, key) == Err(KeyNotFound(key))
  {
  }
}
