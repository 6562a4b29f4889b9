/**
 Runs of the registry together with the replicated entries as it knows them: every creation and every removal is
 also an update of the replicated map.
 */
module RegistryRuns {
  import opened Dsa
  import opened Paths
  import opened NodesRegistry

  datatype Update =
    | PutEntry(path: string, description: Description)
    | DropEntries(paths: set<string>)

  function ApplyUpdate(data: Entries, update: Update): Entries {
    match update
    case PutEntry(path, description) => data[path := description]
    case DropEntries(paths) => data - paths
  }

  function ApplyUpdates(data: Entries, updates: seq<Update>): Entries {
    if updates == [] then data
    else ApplyUpdate(ApplyUpdates(data, updates[..|updates| - 1]), updates[|updates| - 1])
  }

  lemma {:induction false} ApplyUpdatesConcat(data: Entries, a: seq<Update>, b: seq<Update>)
    ensures ApplyUpdates(data, a + b) == ApplyUpdates(ApplyUpdates(data, a), b)
  {
    if b == [] {
      assert a + b == a;
    } else {
      assert (a + b)[..|a + b| - 1] == a + b[..|b| - 1];
      ApplyUpdatesConcat(data, a, b[..|b| - 1]);
    }
  }

  /** What creating a node sends: its missing ancestors' entries first, then its own. */
  function CreationUpdates(reg: Registry, description: Description): seq<Update>
    decreases |Segments(ValidPath(description.path))|
  {
    var path := ValidPath(description.path);
    if path in reg then []
    else
      var ofParent :=
        match Parent(path)
        case None => []
        case Some(parent) =>
          if parent in reg then []
          else
            (ParentIsShallower(path);
             CreationUpdates(reg, DefaultDescription(parent)));
      ofParent + [PutEntry(path, description)]
  }

  function RemovalUpdates(reg: Registry, p: string): seq<Update> {
    if Removed(reg, p) == {} then [] else [DropEntries(Removed(reg, p))]
  }

  function AdditionsUpdates(reg: Registry, descriptions: seq<Description>): seq<Update> {
    if descriptions == [] then []
    else
      var n := |descriptions| - 1;
      AdditionsUpdates(reg, descriptions[..n]) + CreationUpdates(AddAll(reg, descriptions[..n]), descriptions[n])
  }

  function RemovalsUpdates(reg: Registry, paths: seq<string>): seq<Update> {
    if paths == [] then []
    else
      var n := |paths| - 1;
      RemovalsUpdates(reg, paths[..n]) + RemovalUpdates(RemoveAll(reg, paths[..n]), paths[n])
  }

  function ChangeUpdates(reg: Registry, data: Entries, toAdd: seq<string>, toRemove: seq<string>): seq<Update>
    requires forall k <- toAdd :: k in data
  {
    AdditionsUpdates(reg, Descriptions(data, toAdd)) + RemovalsUpdates(AddAll(reg, Descriptions(data, toAdd)), toRemove)
  }

  // ---- The entries follow the registry ----

  /** The entries gained what the registry gained, each with the description of its node; the others stayed. */
  ghost predicate Gained(reg: Registry, reg': Registry, data: Entries, data': Entries) {
    && reg.Keys <= reg'.Keys
    && data'.Keys == data.Keys + (reg'.Keys - reg.Keys)
    && (forall k <- reg' :: if k in reg then reg'[k] == reg[k] else data'[k] == reg'[k].description)
    && (forall k <- data :: k in reg || k !in reg' ==> data'[k] == data[k])
    && (WellKeyed(data) ==> WellKeyed(data'))
  }

  /** The entries lost what the registry lost; the others stayed. */
  ghost predicate Lost(reg: Registry, reg': Registry, data: Entries, data': Entries) {
    && reg'.Keys <= reg.Keys
    && data'.Keys == data.Keys - (reg.Keys - reg'.Keys)
    && (forall k <- reg' :: reg'[k] == reg[k])
    && (forall k <- data' :: data'[k] == data[k])
    && (WellKeyed(data) ==> WellKeyed(data'))
  }

  lemma {:induction false} CreationGains(reg: Registry, data: Entries, description: Description)
    ensures Gained(reg, GetOrCreate(reg, description), data, ApplyUpdates(data, CreationUpdates(reg, description)))
    decreases |Segments(ValidPath(description.path))|
  {
    var path := ValidPath(description.path);
    if path !in reg {
      if Parent(path).Some? && Parent(path).value !in reg {
        var parent := DefaultDescription(Parent(path).value);
        ParentIsShallower(path);
        CreationGains(reg, data, parent);
        CreatedAbove(reg, parent);
        OwnEntryLast(reg, GetOrCreate(reg, parent), data, CreationUpdates(reg, parent), description);
      } else {
        OwnEntryLast(reg, reg, data, [], description);
      }
    }
  }

  /** Creating a node adds only paths at most as deep as its own. */
  lemma {:induction false} CreatedAbove(reg: Registry, description: Description)
    ensures forall k <- GetOrCreate(reg, description) ::
              k in reg || |Segments(k)| <= |Segments(ValidPath(description.path))|
    decreases |Segments(ValidPath(description.path))|
  {
    var path := ValidPath(description.path);
    if path !in reg && Parent(path).Some? && Parent(path).value !in reg {
      ParentIsShallower(path);
      CreatedAbove(reg, DefaultDescription(Parent(path).value));
    }
  }

  lemma OwnEntryLast(reg: Registry, mid: Registry, data: Entries, updates: seq<Update>, description: Description)
    requires Gained(reg, mid, data, ApplyUpdates(data, updates))
    requires ValidPath(description.path) !in mid
    ensures var path := ValidPath(description.path);
            Gained(reg, mid[path := RegisteredNode(description, Parent(path))], data,
                   ApplyUpdates(data, updates + [PutEntry(path, description)]))
  {
    var path := ValidPath(description.path);
    assert (updates + [PutEntry(path, description)])[..|updates|] == updates;
    assert ApplyUpdates(data, updates + [PutEntry(path, description)])
           == ApplyUpdates(data, updates)[path := description];
    GainOne(reg, mid, data, ApplyUpdates(data, updates), path, RegisteredNode(description, Parent(path)));
  }

  lemma GainOne(reg: Registry, mid: Registry, data: Entries, before: Entries, path: string, node: RegisteredNode)
    requires Gained(reg, mid, data, before) && path !in mid && path == ValidPath(node.description.path)
    ensures Gained(reg, mid[path := node], data, before[path := node.description])
  {
    var after, reg' := before[path := node.description], mid[path := node];
    forall k <- data | k in reg || k !in reg' ensures after[k] == data[k] {
      assert k != path;
    }
  }

  lemma {:induction false} AdditionsGain(reg: Registry, data: Entries, descriptions: seq<Description>)
    ensures Gained(reg, AddAll(reg, descriptions), data, ApplyUpdates(data, AdditionsUpdates(reg, descriptions)))
  {
    if descriptions != [] {
      var n := |descriptions| - 1;
      AdditionsGain(reg, data, descriptions[..n]);
      var r, u := AddAll(reg, descriptions[..n]), AdditionsUpdates(reg, descriptions[..n]);
      CreationGains(r, ApplyUpdates(data, u), descriptions[n]);
      ApplyUpdatesConcat(data, u, CreationUpdates(r, descriptions[n]));
    }
  }

  lemma RemovalLoses(reg: Registry, data: Entries, p: string)
    ensures Lost(reg, RemoveNode(reg, p), data, ApplyUpdates(data, RemovalUpdates(reg, p)))
  {
    var gone := Removed(reg, p);
    if gone != {} {
      var updates := RemovalUpdates(reg, p);
      assert updates[..0] == [];
      assert ApplyUpdates(data, updates) == data - gone;
    }
  }

  lemma {:induction false} RemovalsLose(reg: Registry, data: Entries, paths: seq<string>)
    ensures Lost(reg, RemoveAll(reg, paths), data, ApplyUpdates(data, RemovalsUpdates(reg, paths)))
  {
    if paths != [] {
      var n := |paths| - 1;
      RemovalsLose(reg, data, paths[..n]);
      var r, u := RemoveAll(reg, paths[..n]), RemovalsUpdates(reg, paths[..n]);
      RemovalLoses(r, ApplyUpdates(data, u), paths[n]);
      ApplyUpdatesConcat(data, u, RemovalUpdates(r, paths[n]));
    }
  }

  /** Every key starts with a slash. */
  ghost predicate Rooted(keys: set<string>) {
    forall k <- keys :: ValidPath(k) == k
  }

  /**
   Following a gossiped map, whatever its keys, leaves registry and entries with the same keys: what a removal
   takes beyond the gossip leaves the entries too.
   */
  lemma ChangeKeepsInStep(reg: Registry, data: Entries, toAdd: seq<string>, toRemove: seq<string>)
    requires Rooted(reg.Keys)
    requires forall k :: k in toAdd <==> k in data && k !in reg
    requires IsToRemove(reg, data, toRemove)
    requires WellKeyed(data)
    ensures var data' := ApplyUpdates(data, ChangeUpdates(reg, data, toAdd, toRemove));
            Change(reg, data, toAdd, toRemove).Keys == data'.Keys && WellKeyed(data')
  {
    var descriptions := Descriptions(data, toAdd);
    AdditionsGain(reg, data, descriptions);
    AddedAreThere(reg, data, toAdd);
    var data1 := ApplyUpdates(data, AdditionsUpdates(reg, descriptions));
    var added := AddAll(reg, descriptions);
    RemovalsLeaveSame(reg, data, added, data1, toRemove);
    ApplyUpdatesConcat(data, AdditionsUpdates(reg, descriptions), RemovalsUpdates(added, toRemove));
  }

  lemma RemovalsLeaveSame(reg: Registry, data: Entries, added: Registry, data1: Entries, toRemove: seq<string>)
    requires Rooted(reg.Keys) && reg.Keys + data.Keys <= added.Keys && data1.Keys == data.Keys + (added.Keys - reg.Keys)
    requires forall k :: k in toRemove <==> k in reg && k !in data
    requires WellKeyed(data1)
    ensures var data' := ApplyUpdates(data1, RemovalsUpdates(added, toRemove));
            RemoveAll(added, toRemove).Keys == data'.Keys && WellKeyed(data')
  {
    RemovalsLose(added, data1, toRemove);
    RemovedAreGone(added, toRemove);
    SameKeys(reg.Keys, data.Keys, added.Keys, data1.Keys, RemoveAll(added, toRemove).Keys);
  }

  lemma SameKeys(reg: set<string>, data: set<string>, added: set<string>, data1: set<string>, after: set<string>)
    requires reg + data <= added && data1 == data + (added - reg)
    requires after <= added && forall k <- reg - data :: k !in after
    ensures data1 - (added - after) == after
  {}

  lemma {:induction false} AddAllHas(reg: Registry, descriptions: seq<Description>, i: nat)
    requires i < |descriptions|
    ensures ValidPath(descriptions[i].path) in AddAll(reg, descriptions)
  {
    var n := |descriptions| - 1;
    CreationHas(AddAll(reg, descriptions[..n]), descriptions[n]);
    if i < n {
      AddAllHas(reg, descriptions[..n], i);
    }
  }

  lemma CreationHas(reg: Registry, description: Description)
    ensures reg.Keys <= GetOrCreate(reg, description).Keys
    ensures ValidPath(description.path) in GetOrCreate(reg, description)
  {
    CreationGains(reg, map[], description);
  }

  lemma AddedAreThere(reg: Registry, data: Entries, toAdd: seq<string>)
    requires forall k :: k in toAdd <==> k in data && k !in reg
    requires WellKeyed(data)
    ensures reg.Keys + data.Keys <= AddAll(reg, Descriptions(data, toAdd)).Keys
  {
    var descriptions := Descriptions(data, toAdd);
    AdditionsGain(reg, data, descriptions);
    forall k <- data.Keys ensures k in AddAll(reg, descriptions) {
      if k !in reg {
        var i :| 0 <= i < |toAdd| && toAdd[i] == k;
        AddAllHas(reg, descriptions, i);
      }
    }
  }

  lemma {:induction false} RemovedAreGone(reg: Registry, paths: seq<string>)
    ensures forall k <- paths :: ValidPath(k) !in RemoveAll(reg, paths)
  {
    forall k <- paths ensures ValidPath(k) !in RemoveAll(reg, paths) {
      RemoveAllKeys(reg, paths, ValidPath(k));
      ContainsItself(ValidPath(k));
    }
  }

  /** The entries that the registry has nodes for describe these nodes. */
  ghost predicate Describes(reg: Registry, data: Entries) {
    forall k <- reg :: k in data ==> data[k] == reg[k].description
  }

  lemma GainedDescribes(reg: Registry, reg': Registry, data: Entries, data': Entries)
    requires Gained(reg, reg', data, data') && Describes(reg, data)
    ensures Describes(reg', data')
  {
    forall k <- reg' | k in data' ensures data'[k] == reg'[k].description {
      if k in reg {
        assert k in data && data'[k] == data[k];
      }
    }
  }

  lemma LostDescribes(reg: Registry, reg': Registry, data: Entries, data': Entries)
    requires Lost(reg, reg', data, data') && Describes(reg, data)
    ensures Describes(reg', data')
  {}

  lemma ChangeDescribes(reg: Registry, data: Entries, toAdd: seq<string>, toRemove: seq<string>)
    requires Describes(reg, data) && forall k <- toAdd :: k in data
    ensures Describes(Change(reg, data, toAdd, toRemove), ApplyUpdates(data, ChangeUpdates(reg, data, toAdd, toRemove)))
  {
    var descriptions := Descriptions(data, toAdd);
    var added, updates := AddAll(reg, descriptions), AdditionsUpdates(reg, descriptions);
    AdditionsGain(reg, data, descriptions);
    GainedDescribes(reg, added, data, ApplyUpdates(data, updates));
    RemovalsLose(added, ApplyUpdates(data, updates), toRemove);
    LostDescribes(added, RemoveAll(added, toRemove), ApplyUpdates(data, updates),
                  ApplyUpdates(ApplyUpdates(data, updates), RemovalsUpdates(added, toRemove)));
    ApplyUpdatesConcat(data, updates, RemovalsUpdates(added, toRemove));
  }

  // ---- Every parent's entry is there first ----

  /** Between any two of the updates that a creation sends, no entry lacks its parent's. */
  lemma {:induction false} CreationKeepsEntriesClosed(reg: Registry, data: Entries, description: Description, i: nat)
    requires Closed(data.Keys) && data.Keys == reg.Keys && i <= |CreationUpdates(reg, description)|
    ensures Closed(ApplyUpdates(data, CreationUpdates(reg, description)[..i]).Keys)
    decreases |Segments(ValidPath(description.path))|
  {
    var path, updates := ValidPath(description.path), CreationUpdates(reg, description);
    if path in reg || i == 0 {
      assert updates[..i] == [];
    } else if Parent(path).Some? && Parent(path).value !in reg {
      var above := DefaultDescription(Parent(path).value);
      ParentIsShallower(path);
      if i < |updates| {
        CreationKeepsEntriesClosed(reg, data, above, i);
        assert updates[..i] == CreationUpdates(reg, above)[..i];
      } else {
        var before := CreationUpdates(reg, above);
        CreationKeepsEntriesClosed(reg, data, above, |before|);
        assert before[..|before|] == before && updates[..i] == before + [PutEntry(path, description)];
        CreationGains(reg, data, above);
        CreatedItself(reg, above);
        PutKeepsClosed(data, before, path, description);
      }
    } else {
      assert updates[..i] == [] + [PutEntry(path, description)];
      PutKeepsClosed(data, [], path, description);
    }
  }

  lemma CreatedItself(reg: Registry, description: Description)
    ensures ValidPath(description.path) in GetOrCreate(reg, description)
  {}

  lemma PutKeepsClosed(data: Entries, updates: seq<Update>, path: string, description: Description)
    requires Closed(ApplyUpdates(data, updates).Keys)
    requires Parent(path).Some? ==> Parent(path).value in ApplyUpdates(data, updates)
    ensures Closed(ApplyUpdates(data, updates + [PutEntry(path, description)]).Keys)
  {
    assert (updates + [PutEntry(path, description)])[..|updates|] == updates;
  }

  // ---- Runs ----

  datatype World = World(registry: Registry, entries: Entries)

  datatype Step =
    | Add(description: Description)
    | Remove(path: string)
    | Gossip(data: Entries, toAdd: seq<string>, toRemove: seq<string>)

  ghost predicate IsToRemove(reg: Registry, data: Entries, toRemove: seq<string>) {
    forall k :: k in toRemove <==> k in reg && k !in data
  }

  /**
   One command, with what it sends applied to the entries as the registry knows them: a gossip replaces those,
   whatever they were, by the ones it brings.
   */
  ghost predicate Next(w: World, step: Step, w': World) {
    match step
    case Add(description) =>
      && w'.registry == GetOrCreate(w.registry, description)
      && w'.entries == ApplyUpdates(w.entries, CreationUpdates(w.registry, description))
    case Remove(path) =>
      && w'.registry == RemoveNode(w.registry, path)
      && w'.entries == ApplyUpdates(w.entries, RemovalUpdates(w.registry, path))
    case Gossip(data, toAdd, toRemove) =>
      && WellKeyed(data)
      && IsToAdd(w.registry, data, toAdd)
      && IsToRemove(w.registry, data, toRemove)
      && w'.registry == Change(w.registry, data, toAdd, toRemove)
      && w'.entries == ApplyUpdates(data, ChangeUpdates(w.registry, data, toAdd, toRemove))
  }

  ghost predicate InStep(w: World) {
    Rooted(w.registry.Keys) && w.registry.Keys == w.entries.Keys && WellKeyed(w.entries)
  }

  function Past(steps: seq<Step>): (past: seq<Step>)
    requires steps != []
    ensures |past| < |steps| && forall s <- past :: s in steps
  {
    steps[..|steps| - 1]
  }

  /** What a registry that starts empty can reach by these steps, whatever order a gossip is listed in. */
  ghost predicate Reaches(steps: seq<Step>, w: World) {
    if steps == [] then w == World(map[], map[])
    else exists before :: Reaches(Past(steps), before) && Next(before, steps[|steps| - 1], w)
  }

  lemma NextKeepsInStep(w: World, step: Step, w': World)
    requires InStep(w) && Next(w, step, w')
    ensures InStep(w')
  {
    match step
    case Add(description) =>
      CreationGains(w.registry, w.entries, description);
    case Remove(path) =>
      RemovalLoses(w.registry, w.entries, path);
    case Gossip(data, toAdd, toRemove) =>
      ChangeKeepsInStep(w.registry, data, toAdd, toRemove);
  }

  /** Every step keeps entries and nodes with the same descriptions, unless a gossip brings others for known paths. */
  lemma NextKeepsDescriptions(w: World, step: Step, w': World)
    requires InStep(w) && Next(w, step, w') && Describes(w.registry, w.entries)
    requires step.Gossip? ==> Describes(w.registry, step.data)
    ensures Describes(w'.registry, w'.entries)
  {
    match step
    case Add(description) =>
      CreationGains(w.registry, w.entries, description);
      GainedDescribes(w.registry, w'.registry, w.entries, w'.entries);
    case Remove(path) =>
      RemovalLoses(w.registry, w.entries, path);
      LostDescribes(w.registry, w'.registry, w.entries, w'.entries);
    case Gossip(data, toAdd, toRemove) =>
      ChangeDescribes(w.registry, data, toAdd, toRemove);
  }

  /**
   After every run the registry has a node for exactly the entries that it was last told of, with its own updates
   since; and each entry is under its node's path.
   */
  lemma {:induction false} RegistryMatchesEntries(steps: seq<Step>, w: World)
    requires Reaches(steps, w)
    ensures InStep(w)
  {
    if steps != [] {
      var before :| Reaches(Past(steps), before) && Next(before, steps[|steps| - 1], w);
      RegistryMatchesEntries(Past(steps), before);
      NextKeepsInStep(before, steps[|steps| - 1], w);
    }
  }

  // ---- Ancestor closure ----

  ghost predicate CanonicalStep(step: Step) {
    match step
    case Add(description) => Canonical(ValidPath(description.path))
    case Remove(_) => true
    case Gossip(data, _, _) => AllCanonical(data.Keys)
  }

  ghost predicate Tree(reg: Registry) {
    && Closed(reg.Keys)
    && AllCanonical(reg.Keys)
    && forall k <- reg :: reg[k].parent == Parent(k)
  }

  lemma {:induction false} GetOrCreateParents(reg: Registry, description: Description)
    requires forall k <- reg :: reg[k].parent == Parent(k)
    ensures var r := GetOrCreate(reg, description); forall k <- r :: r[k].parent == Parent(k)
    decreases |Segments(ValidPath(description.path))|
  {
    var path := ValidPath(description.path);
    if path !in reg && Parent(path).Some? && Parent(path).value !in reg {
      ParentIsShallower(path);
      GetOrCreateParents(reg, DefaultDescription(Parent(path).value));
    }
  }

  lemma AddKeepsTree(reg: Registry, description: Description)
    requires Tree(reg) && Canonical(ValidPath(description.path))
    ensures Tree(GetOrCreate(reg, description))
  {
    GetOrCreateAdds(reg, description);
    GetOrCreateKeepsCanonical(reg, description);
    GetOrCreateParents(reg, description);
  }

  lemma {:induction false} AdditionsKeepTree(reg: Registry, descriptions: seq<Description>)
    requires Tree(reg) && forall d <- descriptions :: Canonical(ValidPath(d.path))
    ensures Tree(AddAll(reg, descriptions))
  {
    if descriptions != [] {
      AdditionsKeepTree(reg, descriptions[..|descriptions| - 1]);
      AddKeepsTree(AddAll(reg, descriptions[..|descriptions| - 1]), descriptions[|descriptions| - 1]);
    }
  }

  lemma {:induction false} RemovalsKeepTree(reg: Registry, paths: seq<string>)
    requires Tree(reg)
    ensures Tree(RemoveAll(reg, paths))
  {
    if paths != [] {
      RemovalsKeepTree(reg, paths[..|paths| - 1]);
      RemoveKeepsClosed(RemoveAll(reg, paths[..|paths| - 1]), paths[|paths| - 1]);
    }
  }

  lemma NextKeepsTree(w: World, step: Step, w': World)
    requires Tree(w.registry) && CanonicalStep(step) && Next(w, step, w')
    ensures Tree(w'.registry)
  {
    match step
    case Add(description) =>
      AddKeepsTree(w.registry, description);
    case Remove(path) =>
      RemoveKeepsClosed(w.registry, path);
    case Gossip(data, toAdd, toRemove) =>
      ChangeKeepsTree(w.registry, data, toAdd, toRemove);
  }

  lemma ChangeKeepsTree(reg: Registry, data: Entries, toAdd: seq<string>, toRemove: seq<string>)
    requires Tree(reg) && AllCanonical(data.Keys) && WellKeyed(data) && forall k <- toAdd :: k in data
    ensures Tree(Change(reg, data, toAdd, toRemove))
  {
    var descriptions := Descriptions(data, toAdd);
    forall d <- descriptions ensures Canonical(ValidPath(d.path)) {
      var i :| 0 <= i < |descriptions| && descriptions[i] == d;
      assert toAdd[i] in data.Keys;
    }
    AdditionsKeepTree(reg, descriptions);
    RemovalsKeepTree(AddAll(reg, descriptions), toRemove);
  }

  /** With canonical paths, every registry a run reaches has all the ancestors of each of its nodes. */
  lemma {:induction false} RegistryIsATree(steps: seq<Step>, w: World)
    requires Reaches(steps, w) && forall s <- steps :: CanonicalStep(s)
    ensures Tree(w.registry)
    ensures forall k <- w.registry :: Ancestors(k) <= w.registry.Keys
  {
    if steps != [] {
      var before :| Reaches(Past(steps), before) && Next(before, steps[|steps| - 1], w);
      RegistryIsATree(Past(steps), before);
      NextKeepsTree(before, steps[|steps| - 1], w);
    }
    forall k <- w.registry ensures Ancestors(k) <= w.registry.Keys {
      ClosedHasAncestors(w.registry.Keys, k);
    }
  }
}
