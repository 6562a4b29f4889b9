/** The actor that keeps the registry: its fields, updated in place by creations, removals and gossip. */
module RegistryActor {
  import opened Collections
  import opened Dsa
  import opened Paths
  import opened NodesRegistry
  import opened RegistryRuns

  // ---- Sorting new keys by length ----

  predicate ByLength(paths: seq<string>) {
    forall i, j :: 0 <= i < j < |paths| ==> |paths[i]| <= |paths[j]|
  }

  function InsertByLength(paths: seq<string>, path: string): (r: seq<string>)
    ensures forall k :: k in r <==> k in paths || k == path
    ensures ByLength(paths) ==> ByLength(r)
  {
    if paths == [] || |paths[|paths| - 1]| <= |path| then paths + [path]
    else
      var n := |paths| - 1;
      var front := InsertByLength(paths[..n], path);
      assert paths == paths[..n] + [paths[n]];
      assert ByLength(paths) ==> forall k <- front :: |k| <= |paths[n]|;
      front + [paths[n]]
  }

  method SortByLength(keys: set<string>) returns (paths: seq<string>)
    ensures forall k :: k in paths <==> k in keys
    ensures ByLength(paths)
  {
    var rest := keys;
    paths := [];
    while rest != {}
      invariant rest <= keys
      invariant forall k :: k in paths <==> k in keys - rest
      invariant ByLength(paths)
      decreases rest
    {
      var k := Pick(rest);
      paths := InsertByLength(paths, k);
      rest := rest - {k};
    }
  }

  method Listing(keys: set<string>) returns (paths: seq<string>)
    ensures forall k :: k in paths <==> k in keys
  {
    var rest := keys;
    paths := [];
    while rest != {}
      invariant rest <= keys
      invariant forall k :: k in paths <==> k in keys - rest
      decreases rest
    {
      var k := Pick(rest);
      paths := paths + [k];
      rest := rest - {k};
    }
  }

  lemma Regroup(a: seq<Update>, b: seq<Update>, c: seq<Update>)
    ensures (a + b) + c == a + (b + c)
  {}

  class DistributedNodesRegistry {
    var registry: Registry
    var sent: seq<Update>

    constructor ()
      ensures registry == map[] && sent == []
    {
      registry := map[];
      sent := [];
    }

    method GetOrCreateNode(description: Description) returns (node: RegisteredNode)
      modifies this
      ensures registry == GetOrCreate(old(registry), description)
      ensures sent == old(sent) + CreationUpdates(old(registry), description)
      ensures ValidPath(description.path) in registry && node == registry[ValidPath(description.path)]
      decreases |Segments(ValidPath(description.path))|
    {
      var path := ValidPath(description.path);
      if path in registry {
        node := registry[path];
      } else {
        var (parent, _) := ParentPath(path);
        if parent.Some? && parent.value !in registry {
          ParentIsShallower(path);
          var _ := GetOrCreateNode(DefaultDescription(parent.value));
        }
        node := RegisteredNode(description, parent);
        registry := registry[path := node];
        sent := sent + [PutEntry(path, description)];
      }
    }

    method RemovePath(p: string) returns (removed: set<string>)
      modifies this
      ensures registry == RemoveNode(old(registry), p)
      ensures removed == Removed(old(registry), p)
      ensures sent == old(sent) + RemovalUpdates(old(registry), p)
    {
      var path := ValidPath(p);
      removed := set k | k in registry && Contains(k, path);
      if removed != {} {
        registry := registry - removed;
        sent := sent + [DropEntries(removed)];
      }
    }

    /** The replicator's entries have changed: new ones are created by path length, then the others removed. */
    method OnChanged(data: Entries) returns (toAdd: seq<string>, toRemove: seq<string>)
      modifies this
      ensures IsToAdd(old(registry), data, toAdd) && IsToRemove(old(registry), data, toRemove)
      ensures registry == Change(old(registry), data, toAdd, toRemove)
      ensures sent == old(sent) + ChangeUpdates(old(registry), data, toAdd, toRemove)
    {
      toAdd := SortByLength(data.Keys - registry.Keys);
      toRemove := Listing(registry.Keys - data.Keys);
      Follow(Descriptions(data, toAdd), toRemove);
    }

    method Follow(descriptions: seq<Description>, paths: seq<string>)
      modifies this
      ensures registry == RemoveAll(AddAll(old(registry), descriptions), paths)
      ensures sent == old(sent) + (AdditionsUpdates(old(registry), descriptions)
                                   + RemovalsUpdates(AddAll(old(registry), descriptions), paths))
    {
      ghost var before := registry;
      CreateAll(descriptions);
      RemoveEach(paths);
      Regroup(old(sent), AdditionsUpdates(before, descriptions), RemovalsUpdates(AddAll(before, descriptions), paths));
    }

    method CreateAll(descriptions: seq<Description>)
      modifies this
      ensures registry == AddAll(old(registry), descriptions)
      ensures sent == old(sent) + AdditionsUpdates(old(registry), descriptions)
    {
      for i := 0 to |descriptions|
        invariant registry == AddAll(old(registry), descriptions[..i])
        invariant sent == old(sent) + AdditionsUpdates(old(registry), descriptions[..i])
      {
        var _ := GetOrCreateNode(descriptions[i]);
        assert descriptions[..i + 1][..i] == descriptions[..i];
      }
      assert descriptions[..|descriptions|] == descriptions;
    }

    method RemoveEach(paths: seq<string>)
      modifies this
      ensures registry == RemoveAll(old(registry), paths)
      ensures sent == old(sent) + RemovalsUpdates(old(registry), paths)
    {
      for i := 0 to |paths|
        invariant registry == RemoveAll(old(registry), paths[..i])
        invariant sent == old(sent) + RemovalsUpdates(old(registry), paths[..i])
      {
        var _ := RemovePath(paths[i]);
        assert paths[..i + 1][..i] == paths[..i];
      }
      assert paths[..|paths|] == paths;
    }
  }
}
