/** The order in which ModContext.cs hands plugin files to the loader: which files are
    visible, how the full scan sorts each package's plugins, and the index each file is
    given. A directory listing is a map from a folder's path to the paths `Directory.GetFiles`
    returns for it. */
module LoadOrder {
  import opened Paths
  import Packages

  /** Ordinal comparison of strings: `a` sorts no later than `b`. */
  predicate OrdinalLe(a: string, b: string)
  {
    a == [] || (b != [] && (a[0] < b[0] || (a[0] == b[0] && OrdinalLe(a[1..], b[1..]))))
  }

  lemma {:induction false} OrdinalLeReflexive(a: string)
    ensures OrdinalLe(a, a)
  {
    if a != [] {
      OrdinalLeReflexive(a[1..]);
    }
  }

  lemma {:induction false} OrdinalLeTotal(a: string, b: string)
    ensures OrdinalLe(a, b) || OrdinalLe(b, a)
  {
    if a != [] && b != [] && a[0] == b[0] {
      OrdinalLeTotal(a[1..], b[1..]);
    }
  }

  lemma {:induction false} OrdinalLeTransitive(a: string, b: string, c: string)
    requires OrdinalLe(a, b) && OrdinalLe(b, c)
    ensures OrdinalLe(a, c)
  {
    if a != [] && b != [] && c != [] && a[0] == b[0] && b[0] == c[0] {
      OrdinalLeTransitive(a[1..], b[1..], c[1..]);
    }
  }

  /** `s.Replace(".", "")`: the sort key of a plugin file. */
  function WithoutDots(s: string): (r: string)
    ensures |r| <= |s|
  {
    if s == [] then [] else (if s[0] == '.' then [] else [s[0]]) + WithoutDots(s[1..])
  }

  /** The sort key has no dot left and keeps every other character as often as the path has
      it. */
  lemma {:induction false} WithoutDotsRemovesOnlyDots(s: string)
    ensures forall i | 0 <= i < |WithoutDots(s)| :: WithoutDots(s)[i] != '.'
    ensures forall c | c != '.' :: multiset(WithoutDots(s))[c] == multiset(s)[c]
  {
    if s != [] {
      WithoutDotsRemovesOnlyDots(s[1..]);
      assert s == [s[0]] + s[1..];
    }
  }

  /** Removing the dots keeps the other characters in their order: the key of a joined path
      is the joined keys of its parts. */
  lemma {:induction false} WithoutDotsAppend(a: string, b: string)
    ensures WithoutDots(a + b) == WithoutDots(a) + WithoutDots(b)
  {
    if a == [] {
      assert a + b == b;
    } else {
      var head: string := if a[0] == '.' then [] else [a[0]];
      var ab := a + b;
      assert ab[0] == a[0] && ab[1..] == a[1..] + b;
      assert WithoutDots(ab) == head + WithoutDots(a[1..] + b);
      WithoutDotsAppend(a[1..], b);
      assert WithoutDots(a) == head + WithoutDots(a[1..]);
    }
  }

  predicate SortedByStrippedPath(s: seq<string>)
  {
    forall i, j | 0 <= i < j < |s| :: OrdinalLe(WithoutDots(s[i]), WithoutDots(s[j]))
  }

  /** Places `x` before the first element whose key is not smaller than its own. */
  function InsertByStrippedPath(x: string, s: seq<string>): (r: seq<string>)
    ensures |r| == |s| + 1
  {
    if s == [] || OrdinalLe(WithoutDots(x), WithoutDots(s[0])) then [x] + s
    else [s[0]] + InsertByStrippedPath(x, s[1..])
  }

  /** `paths.OrderBy(f => f.Replace(".", ""))`: a stable sort on the dot-free path. */
  function OrderByStrippedPath(paths: seq<string>): (r: seq<string>)
    ensures |r| == |paths|
  {
    if paths == [] then [] else InsertByStrippedPath(paths[0], OrderByStrippedPath(paths[1..]))
  }

  lemma {:induction false} InsertIsPermutation(x: string, s: seq<string>)
    ensures multiset(InsertByStrippedPath(x, s)) == multiset(s) + multiset{x}
  {
    if s == [] || OrdinalLe(WithoutDots(x), WithoutDots(s[0])) {
      assert InsertByStrippedPath(x, s) == [x] + s;
    } else {
      var t := s[1..];
      var m := multiset(InsertByStrippedPath(x, t));
      assert multiset(InsertByStrippedPath(x, s)) == multiset{s[0]} + m by {
        assert InsertByStrippedPath(x, s) == [s[0]] + InsertByStrippedPath(x, t);
      }
      assert m == multiset(t) + multiset{x} by {
        InsertIsPermutation(x, t);
      }
      assert multiset(s) == multiset{s[0]} + multiset(t) by {
        assert s == [s[0]] + t;
      }
    }
  }

  /** A path whose key sorts no later than every key of a sorted sequence can go first. */
  lemma SortedCons(h: string, s: seq<string>)
    requires SortedByStrippedPath(s)
    requires forall j | 0 <= j < |s| :: OrdinalLe(WithoutDots(h), WithoutDots(s[j]))
    ensures SortedByStrippedPath([h] + s)
  {
    var r := [h] + s;
    forall i, j | 0 <= i < j < |r|
      ensures OrdinalLe(WithoutDots(r[i]), WithoutDots(r[j]))
    {
      assert r[j] == s[j - 1];
      if i > 0 {
        assert r[i] == s[i - 1];
      }
    }
  }

  lemma {:induction false} InsertMembers(x: string, s: seq<string>)
    ensures forall y :: y in InsertByStrippedPath(x, s) <==> y == x || y in s
  {
    if s != [] && !OrdinalLe(WithoutDots(x), WithoutDots(s[0])) {
      InsertMembers(x, s[1..]);
      assert s == [s[0]] + s[1..];
    }
  }

  lemma {:induction false} InsertKeepsSorted(x: string, s: seq<string>)
    requires SortedByStrippedPath(s)
    ensures SortedByStrippedPath(InsertByStrippedPath(x, s))
  {
    var kx := WithoutDots(x);
    if s == [] || OrdinalLe(kx, WithoutDots(s[0])) {
      forall j | 0 <= j < |s|
        ensures OrdinalLe(kx, WithoutDots(s[j]))
      {
        if j > 0 {
          OrdinalLeTransitive(kx, WithoutDots(s[0]), WithoutDots(s[j]));
        }
      }
      SortedCons(x, s);
    } else {
      var tail := s[1..];
      InsertKeepsSorted(x, tail);
      InsertMembers(x, tail);
      OrdinalLeTotal(kx, WithoutDots(s[0]));
      var rest := InsertByStrippedPath(x, tail);
      forall j | 0 <= j < |rest|
        ensures OrdinalLe(WithoutDots(s[0]), WithoutDots(rest[j]))
      {
        assert rest[j] in rest;
        if rest[j] != x {
          var k :| 0 <= k < |tail| && tail[k] == rest[j];
          assert s[k + 1] == rest[j];
        }
      }
      SortedCons(s[0], rest);
    }
  }

  /** The full scan's order is sorted by the dot-free path. */
  lemma {:induction false} OrderByIsSorted(paths: seq<string>)
    ensures SortedByStrippedPath(OrderByStrippedPath(paths))
  {
    if paths != [] {
      OrderByIsSorted(paths[1..]);
      InsertKeepsSorted(paths[0], OrderByStrippedPath(paths[1..]));
    }
  }

  /** The full scan's order holds exactly the listed files, each as often as listed. */
  lemma {:induction false} OrderByIsPermutation(paths: seq<string>)
    ensures multiset(OrderByStrippedPath(paths)) == multiset(paths)
  {
    if paths != [] {
      var rest := OrderByStrippedPath(paths[1..]);
      assert multiset(rest) == multiset(paths[1..]) by {
        OrderByIsPermutation(paths[1..]);
      }
      assert multiset(OrderByStrippedPath(paths)) == multiset(rest) + multiset{paths[0]} by {
        InsertIsPermutation(paths[0], rest);
      }
      assert multiset(paths) == multiset(paths[1..]) + multiset{paths[0]} by {
        assert paths == [paths[0]] + paths[1..];
      }
    }
  }

  /** The full scan's order is a sorted permutation of the listing. */
  lemma OrderByIsSortedPermutation(paths: seq<string>)
    ensures SortedByStrippedPath(OrderByStrippedPath(paths))
    ensures multiset(OrderByStrippedPath(paths)) == multiset(paths)
  {
    OrderByIsSorted(paths);
    OrderByIsPermutation(paths);
  }

  /** The paths of `s` whose sort key is `key`, in their order in `s`. */
  function HavingKey(s: seq<string>, key: string): seq<string>
  {
    if s == [] then []
    else (if WithoutDots(s[0]) == key then [s[0]] else []) + HavingKey(s[1..], key)
  }

  lemma {:induction false} HavingKeyCons(x: string, s: seq<string>, key: string)
    ensures HavingKey([x] + s, key) == (if WithoutDots(x) == key then [x] else []) + HavingKey(s, key)
  {
    assert ([x] + s)[1..] == s;
  }

  lemma {:induction false} InsertIsStable(x: string, s: seq<string>, key: string)
    ensures HavingKey(InsertByStrippedPath(x, s), key) == HavingKey([x] + s, key)
  {
    var kx := WithoutDots(x);
    if s != [] && !OrdinalLe(kx, WithoutDots(s[0])) {
      var t := s[1..];
      var hx := if kx == key then [x] else [];
      var h0 := if WithoutDots(s[0]) == key then [s[0]] else [];
      var ht := HavingKey(t, key);
      assert HavingKey(InsertByStrippedPath(x, s), key) == h0 + (hx + ht) by {
        InsertIsStable(x, t, key);
        HavingKeyCons(s[0], InsertByStrippedPath(x, t), key);
        HavingKeyCons(x, t, key);
      }
      assert HavingKey([x] + s, key) == hx + (h0 + ht) by {
        assert s == [s[0]] + t;
        HavingKeyCons(s[0], t, key);
        HavingKeyCons(x, s, key);
      }
      assert hx == [] || h0 == [] by {
        OrdinalLeReflexive(kx);
      }
    }
  }

  /** `OrderBy` is stable: files with the same dot-free path keep their listed order. */
  lemma {:induction false} OrderByIsStable(paths: seq<string>, key: string)
    ensures HavingKey(OrderByStrippedPath(paths), key) == HavingKey(paths, key)
  {
    if paths != [] {
      OrderByIsStable(paths[1..], key);
      InsertIsStable(paths[0], OrderByStrippedPath(paths[1..]), key);
      HavingKeyCons(paths[0], OrderByStrippedPath(paths[1..]), key);
      HavingKeyCons(paths[0], paths[1..], key);
      assert paths == [paths[0]] + paths[1..];
    }
  }

  /** A plugin file the loader is given: its file name starts with neither `.` nor `_`. */
  predicate IsVisible(path: string)
  {
    !IsHiddenName(FileName(path))
  }

  /** The files of `paths` that are visible, in their order. */
  function Visible(paths: seq<string>): (r: seq<string>)
    ensures |r| <= |paths|
  {
    if paths == [] then []
    else
      var last := paths[|paths| - 1];
      Visible(paths[..|paths| - 1]) + (if IsVisible(last) then [last] else [])
  }

  /** The visible files are those of `paths` that are visible. */
  lemma {:induction false} VisibleMembers(paths: seq<string>)
    ensures forall p :: p in Visible(paths) <==> p in paths && IsVisible(p)
  {
    if paths != [] {
      var last := paths[|paths| - 1];
      VisibleMembers(paths[..|paths| - 1]);
      assert paths == paths[..|paths| - 1] + [last];
    }
  }

  lemma {:induction false} VisibleAppend(a: seq<string>, b: seq<string>)
    ensures Visible(a + b) == Visible(a) + Visible(b)
  {
    if b != [] {
      var b' := b[..|b| - 1];
      assert a + b == (a + b') + [b[|b| - 1]];
      assert (a + b)[..|a + b| - 1] == a + b';
      VisibleAppend(a, b');
    } else {
      assert a + b == a;
    }
  }

  /** The visible files of the start of a listing are the start of its visible files. */
  lemma VisiblePrefix(files: seq<string>, j: int)
    requires 0 <= j <= |files|
    ensures Visible(files[..j]) <= Visible(files)
  {
    assert files == files[..j] + files[j..];
    VisibleAppend(files[..j], files[j..]);
  }

  /** One more file of a listing: the visible files grow by it exactly when it is visible,
      after whatever `start` was handed on before the listing; and a visible one is the
      next of the listing's visible files. */
  lemma VisibleStep(start: seq<string>, files: seq<string>, j: int)
    requires 0 <= j < |files|
    ensures start + Visible(files[..j + 1]) ==
      (start + Visible(files[..j])) + (if IsVisible(files[j]) then [files[j]] else [])
    ensures IsVisible(files[j]) ==>
      |Visible(files[..j])| < |Visible(files)| && Visible(files)[|Visible(files[..j])|] == files[j]
  {
    assert files[..j + 1][..j] == files[..j];
    VisiblePrefix(files, j + 1);
  }

  /** What follows `a` in a prefix of `c` is in `c`. */
  lemma AppendWithin(a: seq<string>, b: seq<string>, c: seq<string>)
    requires a + b <= c
    ensures forall x | x in b :: x in c
  {
    forall x | x in b
      ensures x in c
    {
      var n :| 0 <= n < |b| && b[n] == x;
      assert c[|a| + n] == (a + b)[|a| + n];
    }
  }

  /** `Path.Combine(RootModsFolder, key, ModPackage.PluginsSubFolderName)`. */
  function PluginsFolder(root: string, key: string): string
  {
    Combine(Combine(root, key), Packages.PluginsSubFolderName)
  }

  /** Every named package has a plugins folder in the listing (`Directory.GetFiles` throws
      on one that does not exist). */
  predicate ListsEveryKey(root: string, keys: seq<string>, listing: map<string, seq<string>>)
  {
    forall k | k in keys :: PluginsFolder(root, k) in listing
  }

  /** The order `_addModPluginAssemblies` gives files in: package by package in the order
      named, each package's visible files in the order they are listed. */
  function FilteredOrder(root: string, keys: seq<string>, listing: map<string, seq<string>>): (r: seq<string>)
    requires ListsEveryKey(root, keys, listing)
  {
    if keys == [] then []
    else
      FilteredOrder(root, keys[..|keys| - 1], listing)
      + Visible(listing[PluginsFolder(root, keys[|keys| - 1])])
  }

  /** What the full scan takes from one directory of the mods folder: nothing from a hidden
      directory or one without a plugins folder; otherwise the visible files of the plugins
      folder, sorted by their dot-free path. */
  function FullScanFiles(dir: string, listing: map<string, seq<string>>): (r: seq<string>)
  {
    var pluginsPath := Combine(dir, Packages.PluginsSubFolderName);
    if IsHiddenName(FileName(dir)) || pluginsPath !in listing then []
    else Visible(OrderByStrippedPath(listing[pluginsPath]))
  }

  /** The order `_addAllModPluginAssemblies` gives files in: directory by directory in the
      order listed. */
  function FullScanOrder(dirs: seq<string>, listing: map<string, seq<string>>): (r: seq<string>)
  {
    if dirs == [] then []
    else FullScanOrder(dirs[..|dirs| - 1], listing) + FullScanFiles(dirs[|dirs| - 1], listing)
  }

  /** Key order: the files given for the first `i` named packages are the start of the files
      given for all of them. */
  lemma {:induction false} FilteredOrderPrefix(root: string, keys: seq<string>, i: nat, listing: map<string, seq<string>>)
    requires i <= |keys| && ListsEveryKey(root, keys, listing)
    ensures ListsEveryKey(root, keys[..i], listing)
    ensures FilteredOrder(root, keys[..i], listing) <= FilteredOrder(root, keys, listing)
  {
    if i < |keys| {
      var init := keys[..|keys| - 1];
      assert init[..i] == keys[..i];
      FilteredOrderPrefix(root, init, i, listing);
    } else {
      assert keys[..i] == keys;
    }
  }

  /** One more named package: its visible files follow what the packages before it gave. */
  lemma FilteredOrderStep(root: string, keys: seq<string>, i: nat, listing: map<string, seq<string>>)
    requires i < |keys| && ListsEveryKey(root, keys, listing)
    ensures ListsEveryKey(root, keys[..i], listing) && ListsEveryKey(root, keys[..i + 1], listing)
    ensures FilteredOrder(root, keys[..i + 1], listing) ==
      FilteredOrder(root, keys[..i], listing) + Visible(listing[PluginsFolder(root, keys[i])])
    ensures FilteredOrder(root, keys[..i + 1], listing) <= FilteredOrder(root, keys, listing)
  {
    FilteredOrderPrefix(root, keys, i, listing);
    FilteredOrderPrefix(root, keys, i + 1, listing);
    assert keys[..i + 1][..i] == keys[..i];
  }

  /** The filtered order gives exactly the visible files of the named packages' plugins
      folders. */
  lemma {:induction false} FilteredOrderMembers(root: string, keys: seq<string>, listing: map<string, seq<string>>, f: string)
    requires ListsEveryKey(root, keys, listing)
    ensures f in FilteredOrder(root, keys, listing) <==>
      (IsVisible(f) && exists k | k in keys :: f in listing[PluginsFolder(root, k)])
  {
    if keys != [] {
      var init := keys[..|keys| - 1];
      var last := keys[|keys| - 1];
      assert keys == init + [last];
      FilteredOrderMembers(root, init, listing, f);
      VisibleMembers(listing[PluginsFolder(root, last)]);
      assert forall k | k in keys :: k in init || k == last;
    }
  }

  /** Directory order: what is taken from the first `i` directories is the start of what is
      taken from all of them. */
  lemma {:induction false} FullScanOrderPrefix(dirs: seq<string>, i: nat, listing: map<string, seq<string>>)
    requires i <= |dirs|
    ensures FullScanOrder(dirs[..i], listing) <= FullScanOrder(dirs, listing)
  {
    if i < |dirs| {
      var init := dirs[..|dirs| - 1];
      assert init[..i] == dirs[..i];
      FullScanOrderPrefix(init, i, listing);
    } else {
      assert dirs[..i] == dirs;
    }
  }

  /** One more directory: what it gives follows what the directories before it gave. */
  lemma FullScanOrderStep(dirs: seq<string>, i: nat, listing: map<string, seq<string>>)
    requires i < |dirs|
    ensures FullScanOrder(dirs[..i + 1], listing) == FullScanOrder(dirs[..i], listing) + FullScanFiles(dirs[i], listing)
    ensures FullScanOrder(dirs[..i + 1], listing) <= FullScanOrder(dirs, listing)
  {
    FullScanOrderPrefix(dirs, i + 1, listing);
    assert dirs[..i + 1][..i] == dirs[..i];
  }

  /** The full scan gives exactly the visible files of the plugins folders of the visible
      directories. */
  lemma {:induction false} FullScanOrderMembers(dirs: seq<string>, listing: map<string, seq<string>>, f: string)
    ensures f in FullScanOrder(dirs, listing) <==>
      (IsVisible(f) && exists d | d in dirs ::
        && !IsHiddenName(FileName(d))
        && Combine(d, Packages.PluginsSubFolderName) in listing
        && f in listing[Combine(d, Packages.PluginsSubFolderName)])
  {
    if dirs != [] {
      var init := dirs[..|dirs| - 1];
      var last := dirs[|dirs| - 1];
      assert dirs == init + [last];
      FullScanOrderMembers(init, listing, f);
      assert forall d | d in dirs :: d in init || d == last;
      var pluginsPath := Combine(last, Packages.PluginsSubFolderName);
      if !IsHiddenName(FileName(last)) && pluginsPath in listing {
        var sorted := OrderByStrippedPath(listing[pluginsPath]);
        assert f in sorted <==> f in listing[pluginsPath] by {
          OrderByIsPermutation(listing[pluginsPath]);
          assert f in sorted <==> f in multiset(sorted);
        }
        VisibleMembers(sorted);
      }
    }
  }

  /** `PreOrderedAssemblyFiles` entries for `files`, each given the index after the one
      before, starting at `offset`. */
  function IndexMap(offset: int, files: seq<string>): (r: map<int, string>)
    ensures forall k | k in r :: offset <= k < offset + |files|
  {
    if files == [] then map[]
    else IndexMap(offset, files[..|files| - 1])[offset + |files| - 1 := files[|files| - 1]]
  }

  /** The `i`-th file is stored at index `offset + i`, and nothing else is stored. */
  lemma {:induction false} IndexMapEntries(offset: int, files: seq<string>)
    ensures forall k :: k in IndexMap(offset, files) <==> offset <= k < offset + |files|
    ensures forall i | 0 <= i < |files| :: IndexMap(offset, files)[offset + i] == files[i]
  {
    if files != [] {
      IndexMapEntries(offset, files[..|files| - 1]);
    }
  }

  /** Giving one more file the next index. */
  lemma IndexMapSnoc(offset: int, files: seq<string>, f: string)
    ensures IndexMap(offset, files + [f]) == IndexMap(offset, files)[offset + |files| := f]
  {
    assert (files + [f])[..|files|] == files;
  }

  /** The package keys the files of `order` derive. */
  function PackageKeysOf(root: string, order: seq<string>): (r: set<string>)
    ensures forall k | k in r :: NoSeparator(k)
  {
    if order == [] then {}
    else
      var f := order[|order| - 1];
      PackageKeysOf(root, order[..|order| - 1]) + (if |f| > |root| then {ModPackageKey(root, f)} else {})
  }

  lemma PackageKeysOfSnoc(root: string, order: seq<string>, f: string)
    requires |f| > |root|
    ensures PackageKeysOf(root, order + [f]) == PackageKeysOf(root, order) + {ModPackageKey(root, f)}
  {
    assert (order + [f])[..|order|] == order;
  }

  /** Handing on one more file adds its index to what earlier files were given. */
  lemma IndexMapStep(files0: map<int, string>, offset: int, order: seq<string>, f: string)
    ensures (files0 + IndexMap(offset, order))[offset + |order| := f] == files0 + IndexMap(offset, order + [f])
  {
    IndexMapSnoc(offset, order, f);
  }
}
