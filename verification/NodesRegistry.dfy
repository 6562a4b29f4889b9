/**
 The registry of replicated nodes: creating a node creates its missing ancestors, removing one removes every
 path that contains its path as a substring, and a gossiped key set is followed by adding and removing.
 */
module NodesRegistry {
  import opened Collections
  import opened Dsa
  import opened Paths

  /** A node of the registry: the description it was created with, and its parent's path. */
  datatype RegisteredNode = RegisteredNode(description: Description, parent: Option<string>)

  type Registry = map<string, RegisteredNode>

  /** The description of an ancestor that is created only because a descendant needs it. */
  function DefaultDescription(path: string): Description {
    Description(path, map["$is" := Str("node")], Str(""))
  }

  function ValidPath(path: string): (r: string)
    ensures r != "" && r[0] == '/'
    ensures r == path <==> path != "" && path[0] == '/'
    ensures r == path || r[1..] == path
  {
    if path != "" && path[0] == '/' then path else "/" + path
  }

  function GetOrCreate(reg: Registry, description: Description): Registry
    decreases |Segments(ValidPath(description.path))|
  {
    var path := ValidPath(description.path);
    if path in reg then reg
    else
      var withParent :=
        match Parent(path)
        case None => reg
        case Some(parent) =>
          if parent in reg then reg
          else
            (ParentIsShallower(path);
             GetOrCreate(reg, DefaultDescription(parent)));
      withParent[path := RegisteredNode(description, Parent(path))]
  }

  lemma ParentIsShallower(path: string)
    requires Parent(path).Some?
    ensures |Segments(Parent(path).value)| < |Segments(path)| && ValidPath(Parent(path).value) == Parent(path).value
  {
    ParentMeaning(path);
    JoinStartsWithSlash(Segments(path)[..|Segments(path)| - 1]);
  }

  /** Everything with the path in it goes. */
  function Removed(reg: Registry, p: string): set<string> {
    set k | k in reg && Contains(k, ValidPath(p))
  }

  function RemoveNode(reg: Registry, p: string): Registry {
    reg - Removed(reg, p)
  }

  // ---- Closure under parents ----

  ghost predicate Closed(keys: set<string>) {
    forall k <- keys :: Parent(k).Some? ==> Parent(k).value in keys
  }

  ghost predicate AllCanonical(keys: set<string>) {
    forall k <- keys :: Canonical(k)
  }

  lemma {:induction false} ClosedHasAncestors(keys: set<string>, path: string)
    requires Closed(keys) && path in keys
    ensures Ancestors(path) <= keys
    decreases |Segments(path)|
  {
    if Parent(path).Some? {
      ParentIsShallower(path);
      ClosedHasAncestors(keys, Parent(path).value);
    }
  }

  /**
   Creating a node adds exactly its path and those of its missing ancestors, replaces nothing, gives the node
   its own description and new ancestors the default one, and keeps the registry closed.
   */
  lemma {:induction false} GetOrCreateAdds(reg: Registry, description: Description)
    requires Closed(reg.Keys)
    ensures var r, path := GetOrCreate(reg, description), ValidPath(description.path);
            && r.Keys == reg.Keys + {path} + Ancestors(path)
            && Closed(r.Keys)
            && (forall k <- reg :: r[k] == reg[k])
            && (path !in reg ==> r[path] == RegisteredNode(description, Parent(path)))
            && (forall k <- Ancestors(path) ::
                  k !in reg && k != path ==> r[k] == RegisteredNode(DefaultDescription(k), Parent(k)))
    decreases |Segments(ValidPath(description.path))|
  {
    var path := ValidPath(description.path);
    if path in reg {
      ClosedHasAncestors(reg.Keys, path);
    } else if Parent(path).Some? {
      var parent := Parent(path).value;
      ParentIsShallower(path);
      if parent in reg {
        ClosedHasAncestors(reg.Keys, parent);
      } else {
        GetOrCreateAdds(reg, DefaultDescription(parent));
      }
    }
  }

  lemma {:induction false} AncestorsCanonical(path: string)
    requires Canonical(path)
    ensures AllCanonical(Ancestors(path))
    decreases |path|
  {
    if Parent(path).Some? {
      CanonicalParent(path);
      AncestorsCanonical(Parent(path).value);
    }
  }

  lemma GetOrCreateKeepsCanonical(reg: Registry, description: Description)
    requires Closed(reg.Keys) && AllCanonical(reg.Keys) && Canonical(ValidPath(description.path))
    ensures AllCanonical(GetOrCreate(reg, description).Keys)
  {
    GetOrCreateAdds(reg, description);
    AncestorsCanonical(ValidPath(description.path));
  }

  /** Removal by substring takes every descendant along, so no parent is missing afterwards. */
  lemma RemoveKeepsClosed(reg: Registry, p: string)
    requires Closed(reg.Keys) && AllCanonical(reg.Keys)
    ensures Closed(RemoveNode(reg, p).Keys) && AllCanonical(RemoveNode(reg, p).Keys)
    ensures forall k <- reg :: k == ValidPath(p) || ValidPath(p) in Ancestors(k) ==> k !in RemoveNode(reg, p)
  {
    var r, path := RemoveNode(reg, p), ValidPath(p);
    forall k <- r.Keys | Parent(k).Some? ensures Parent(k).value in r.Keys {
      CanonicalParent(k);
      if Contains(Parent(k).value, path) {
        PrefixContains(Parent(k).value, k, path);
      }
    }
    forall k <- reg | k == path || path in Ancestors(k) ensures k !in r {
      if k == path {
        ContainsItself(path);
      } else {
        AncestorsArePrefixes(k, path);
        PrefixIsContained(path, k);
      }
    }
  }

  /** The path of every node contains its parent's path, as canonical paths do. */
  ghost predicate ContainsParents(keys: set<string>) {
    forall k <- keys :: Parent(k).Some? ==> Contains(k, Parent(k).value)
  }

  /**
   A registry is safe from removals, of whatever path, if and only if the path of each of its nodes contains
   the path of its parent.
   */
  lemma EveryRemovalKeepsClosedIff(reg: Registry)
    requires Closed(reg.Keys)
    ensures (forall p :: Closed(RemoveNode(reg, p).Keys)) <==> ContainsParents(reg.Keys)
  {
    if ContainsParents(reg.Keys) {
      forall p ensures Closed(RemoveNode(reg, p).Keys) {
        RemovalTakesChildren(reg, p);
      }
    } else {
      var k :| k in reg.Keys && Parent(k).Some? && !Contains(k, Parent(k).value);
      OrphanedByRemoval(reg, k);
    }
  }

  lemma RemovalTakesChildren(reg: Registry, p: string)
    requires Closed(reg.Keys) && ContainsParents(reg.Keys)
    ensures Closed(RemoveNode(reg, p).Keys)
  {
    forall k <- RemoveNode(reg, p).Keys | Parent(k).Some? ensures Parent(k).value in RemoveNode(reg, p).Keys {
      if Contains(Parent(k).value, ValidPath(p)) {
        ContainsTransitive(k, Parent(k).value, ValidPath(p));
      }
    }
  }

  /** A node whose path does not contain its parent's stays when the parent goes. */
  lemma OrphanedByRemoval(reg: Registry, k: string)
    requires k in reg && Parent(k).Some? && !Contains(k, Parent(k).value)
    ensures k in RemoveNode(reg, Parent(k).value) && Parent(k).value !in RemoveNode(reg, Parent(k).value)
    ensures !Closed(RemoveNode(reg, Parent(k).value).Keys)
  {
    ParentIsShallower(k);
    ContainsItself(Parent(k).value);
    assert k in RemoveNode(reg, Parent(k).value).Keys;
  }

  /** Canonical paths are of that kind. */
  lemma CanonicalContainsParents(keys: set<string>)
    requires AllCanonical(keys)
    ensures ContainsParents(keys)
  {
    forall k <- keys | Parent(k).Some? ensures Contains(k, Parent(k).value) {
      CanonicalParent(k);
      PrefixIsContained(Parent(k).value, k);
    }
  }

  /** A path with a doubled slash stays when its parent goes. */
  lemma DoubledSlashOrphan(reg: Registry)
    requires Closed(reg.Keys) && "/x//a/b" in reg
    ensures !Closed(RemoveNode(reg, "/x/a").Keys)
  {
    DoubledSlashParent();
    DoubledSlashLacksParent();
    OrphanedByRemoval(reg, "/x//a/b");
  }

  lemma DoubledSlashLacksParent()
    ensures !Contains("/x//a/b", "/x/a")
  {
    var k := "/x//a/b";
    forall i | 0 <= i <= |k| ensures !OccursAt(k, "/x/a", i) {
      OccursMeans(k, "/x/a", i, 1);
      OccursMeans(k, "/x/a", i, 3);
    }
  }

  lemma OccursMeans(s: string, t: string, i: nat, j: nat)
    requires j < |t|
    ensures OccursAt(s, t, i) ==> i + |t| <= |s| && s[i + j] == t[j]
  {
    assert OccursAt(s, t, i) ==> s[i..i + |t|][j] == s[i + j];
  }

  lemma DoubledSlashParent()
    ensures Parent("/x//a/b") == Some("/x/a")
  {
    ParentMeaning("/x//a/b");
    DoubledSlashSegments();
    assert ["x", "a", "b"][..2] == ["x", "a"];
    JoinConcat(["x"], ["a"]);
    assert ["x"] + ["a"] == ["x", "a"] && ("/" + "x") + ("/" + "a") == "/x/a";
    JoinOne("x");
    JoinOne("a");
  }

  lemma JoinOne(s: string)
    ensures Join([s]) == "/" + s
  {
    assert [s][..0] == [];
  }

  lemma DoubledSlashSegments()
    ensures Segments("/x//a/b") == ["x", "a", "b"]
  {
    AfterSlash("x//a/b");
    assert "/" + "x//a/b" == "/x//a/b" && "x" + "//a/b" == "x//a/b";
    OneSegment("x", "//a/b");
    AfterSlash("/a/b");
    AfterSlash("a/b");
    assert "/" + "/a/b" == "//a/b" && "/" + "a/b" == "/a/b";
    EndOfDoubledSlash();
  }

  lemma EndOfDoubledSlash()
    ensures Segments("a/b") == ["a", "b"]
  {
    OneSegment("a", "/b");
    AfterSlash("b");
    OneSegment("b", "");
    assert "a" + "/b" == "a/b" && "/" + "b" == "/b" && "b" + "" == "b";
  }

  lemma AfterSlash(path: string)
    ensures Segments("/" + path) == Segments(path)
  {
    assert ("/" + path)[1..] == path;
  }

  lemma OneSegment(s: string, rest: string)
    requires IsSegment(s) && (rest == "" || rest[0] == '/')
    ensures Segments(s + rest) == [s] + Segments(rest)
  {
    FirstSegment(s, rest);
    assert (s + rest)[..|s|] == s && (s + rest)[|s|..] == rest;
  }

  // ---- A gossiped change ----

  type Entries = map<string, Description>

  /** The registry writes each description under its own path. */
  predicate WellKeyed(data: Entries) {
    forall k <- data :: k == ValidPath(data[k].path)
  }

  function AddAll(reg: Registry, descriptions: seq<Description>): Registry {
    if descriptions == [] then reg
    else GetOrCreate(AddAll(reg, descriptions[..|descriptions| - 1]), descriptions[|descriptions| - 1])
  }

  function RemoveAll(reg: Registry, paths: seq<string>): Registry {
    if paths == [] then reg else RemoveNode(RemoveAll(reg, paths[..|paths| - 1]), paths[|paths| - 1])
  }

  /** A listing of the entries that are new to the registry, by increasing path length. */
  ghost predicate IsToAdd(reg: Registry, data: Entries, toAdd: seq<string>) {
    && (forall k :: k in toAdd <==> k in data && k !in reg)
    && (forall i, j :: 0 <= i < j < |toAdd| ==> |toAdd[i]| <= |toAdd[j]|)
  }

  function Descriptions(data: Entries, paths: seq<string>): seq<Description>
    requires forall k <- paths :: k in data
  {
    seq(|paths|, i requires 0 <= i < |paths| => data[paths[i]])
  }

  /** The registry with the first n new entries, each under its own description. */
  function WithOwn(reg: Registry, data: Entries, paths: seq<string>): Registry
    requires forall k <- paths :: k in data
  {
    reg + map k | k in paths && k !in reg :: RegisteredNode(data[k], Parent(k))
  }

  /** With its parent present, a node is added alone. */
  lemma AddsAlone(reg: Registry, description: Description)
    requires Parent(ValidPath(description.path)).Some? ==> Parent(ValidPath(description.path)).value in reg
    ensures var path := ValidPath(description.path);
            GetOrCreate(reg, description)
            == if path in reg then reg else reg[path := RegisteredNode(description, Parent(path))]
  {}

  /**
   With an ancestor-closed key set, adding by path length creates every new node with its own description,
   and no node with a default one.
   */
  lemma {:induction false} GossipAddsOwnDescriptions(reg: Registry, data: Entries, toAdd: seq<string>, n: nat)
    requires Closed(data.Keys) && AllCanonical(data.Keys) && WellKeyed(data)
    requires IsToAdd(reg, data, toAdd) && n <= |toAdd|
    ensures AddAll(reg, Descriptions(data, toAdd[..n])) == WithOwn(reg, data, toAdd[..n])
  {
    if n == 0 {
      assert toAdd[..0] == [];
    } else {
      GossipAddsOwnDescriptions(reg, data, toAdd, n - 1);
      ParentAddedBefore(reg, data, toAdd, n - 1);
      AddNext(reg, data, toAdd, n - 1);
    }
  }

  lemma AddNext(reg: Registry, data: Entries, toAdd: seq<string>, i: nat)
    requires WellKeyed(data) && i < |toAdd| && toAdd[i] !in reg && forall k <- toAdd :: k in data
    requires AddAll(reg, Descriptions(data, toAdd[..i])) == WithOwn(reg, data, toAdd[..i])
    requires Parent(toAdd[i]).Some? ==> Parent(toAdd[i]).value in reg || Parent(toAdd[i]).value in toAdd[..i]
    ensures AddAll(reg, Descriptions(data, toAdd[..i + 1])) == WithOwn(reg, data, toAdd[..i + 1])
  {
    assert toAdd[..i + 1] == toAdd[..i] + [toAdd[i]];
    AddOne(reg, data, toAdd[..i], toAdd[i]);
  }

  lemma AddOne(reg: Registry, data: Entries, front: seq<string>, k: string)
    requires WellKeyed(data) && k in data && k !in reg && forall p <- front :: p in data
    requires AddAll(reg, Descriptions(data, front)) == WithOwn(reg, data, front)
    requires Parent(k).Some? ==> Parent(k).value in reg || Parent(k).value in front
    ensures AddAll(reg, Descriptions(data, front + [k])) == WithOwn(reg, data, front + [k])
  {
    var before := WithOwn(reg, data, front);
    assert Descriptions(data, front + [k]) == Descriptions(data, front) + [data[k]];
    AddAllThenOne(reg, Descriptions(data, front), data[k]);
    WithOwnHas(reg, data, front, Parent(k));
    AddsAlone(before, data[k]);
    WithOwnStep(reg, data, front, k);
  }

  lemma AddAllThenOne(reg: Registry, descriptions: seq<Description>, d: Description)
    ensures AddAll(reg, descriptions + [d]) == GetOrCreate(AddAll(reg, descriptions), d)
  {
    assert (descriptions + [d])[..|descriptions|] == descriptions;
  }

  lemma WithOwnHas(reg: Registry, data: Entries, paths: seq<string>, parent: Option<string>)
    requires forall p <- paths :: p in data
    requires parent.Some? ==> parent.value in reg || parent.value in paths
    ensures parent.Some? ==> parent.value in WithOwn(reg, data, paths)
  {}

  lemma WithOwnStep(reg: Registry, data: Entries, front: seq<string>, k: string)
    requires k in data && k !in reg && forall p <- front :: p in data
    ensures forall p <- front + [k] :: p in data
    ensures var before := WithOwn(reg, data, front);
            WithOwn(reg, data, front + [k])
            == if k in before then before else before[k := RegisteredNode(data[k], Parent(k))]
  {}

  lemma ParentAddedBefore(reg: Registry, data: Entries, toAdd: seq<string>, i: nat)
    requires Closed(data.Keys) && AllCanonical(data.Keys)
    requires IsToAdd(reg, data, toAdd) && i < |toAdd|
    ensures Parent(toAdd[i]).Some? ==> Parent(toAdd[i]).value in reg || Parent(toAdd[i]).value in toAdd[..i]
  {
    var k := toAdd[i];
    assert k in toAdd && k in data;
    if Parent(k).Some? && Parent(k).value !in reg {
      var parent := Parent(k).value;
      CanonicalParent(k);
      assert parent in data && parent in toAdd;
      var j :| 0 <= j < |toAdd| && toAdd[j] == parent;
      assert j < i;
      assert toAdd[..i][j] == parent;
    }
  }

  /** No removed path is a substring of this one. */
  ghost predicate Untouched(k: string, removed: seq<string>) {
    forall r <- removed :: !Contains(k, r)
  }

  /** What is left after removing several paths: the keys that contain none of them. */
  lemma {:induction false} RemoveAllKeys(reg: Registry, paths: seq<string>, k: string)
    ensures k in RemoveAll(reg, paths) <==> k in reg && forall p <- paths :: !Contains(k, ValidPath(p))
  {
    if paths != [] {
      RemoveAllKeys(reg, paths[..|paths| - 1], k);
      assert paths == paths[..|paths| - 1] + [paths[|paths| - 1]];
    }
  }

  /** The registry after a change: first the additions, then the removals. */
  function Change(reg: Registry, data: Entries, toAdd: seq<string>, toRemove: seq<string>): Registry
    requires forall k <- toAdd :: k in data
  {
    RemoveAll(AddAll(reg, Descriptions(data, toAdd)), toRemove)
  }

  /**
   After a change with an ancestor-closed key set, the registry has exactly the gossiped keys if and only if
   no removed path is a substring of a kept one.
   */
  lemma ChangeFollowsGossip(reg: Registry, data: Entries, toAdd: seq<string>, toRemove: seq<string>)
    requires AllCanonical(reg.Keys)
    requires Closed(data.Keys) && AllCanonical(data.Keys) && WellKeyed(data)
    requires IsToAdd(reg, data, toAdd)
    requires forall k :: k in toRemove <==> k in reg && k !in data
    ensures Change(reg, data, toAdd, toRemove).Keys == data.Keys
            <==> forall k <- data :: Untouched(k, toRemove)
  {
    AdditionsOfChange(reg, data, toAdd);
    KeysOfGossip(reg.Keys, data.Keys, AddAll(reg, Descriptions(data, toAdd)), toRemove);
  }

  lemma KeysOfGossip(before: set<string>, data: set<string>, added: Registry, toRemove: seq<string>)
    requires AllCanonical(before) && added.Keys == before + data
    requires forall k :: k in toRemove <==> k in before && k !in data
    ensures RemoveAll(added, toRemove).Keys == data <==> forall k <- data :: Untouched(k, toRemove)
  {
    KeysAfterRemovals(added, toRemove);
    KeptExactly(before, data, RemoveAll(added, toRemove).Keys, toRemove);
  }

  /** A change never replaces a node it keeps, and every node it adds has its own gossiped description. */
  lemma ChangeKeepsNodes(reg: Registry, data: Entries, toAdd: seq<string>, toRemove: seq<string>)
    requires Closed(data.Keys) && AllCanonical(data.Keys) && WellKeyed(data)
    requires IsToAdd(reg, data, toAdd)
    ensures var after := Change(reg, data, toAdd, toRemove);
            forall k <- after ::
              if k in reg then after[k] == reg[k] else k in data && after[k] == RegisteredNode(data[k], Parent(k))
  {
    AdditionsOfChange(reg, data, toAdd);
    RemovalsKeepNodes(AddAll(reg, Descriptions(data, toAdd)), toRemove);
  }

  lemma KeysAfterRemovals(added: Registry, toRemove: seq<string>)
    requires forall r <- toRemove :: Canonical(r)
    ensures forall k :: k in RemoveAll(added, toRemove).Keys <==> k in added.Keys && Untouched(k, toRemove)
  {
    forall k ensures k in RemoveAll(added, toRemove).Keys <==> k in added.Keys && Untouched(k, toRemove) {
      KeysOfChange(added, toRemove, k);
    }
  }

  lemma AdditionsOfChange(reg: Registry, data: Entries, toAdd: seq<string>)
    requires Closed(data.Keys) && AllCanonical(data.Keys) && WellKeyed(data)
    requires IsToAdd(reg, data, toAdd)
    ensures var added := AddAll(reg, Descriptions(data, toAdd));
            && added.Keys == reg.Keys + data.Keys
            && forall k <- added :: added[k] == if k in reg then reg[k] else RegisteredNode(data[k], Parent(k))
  {
    assert toAdd[..|toAdd|] == toAdd;
    GossipAddsOwnDescriptions(reg, data, toAdd, |toAdd|);
  }

  lemma KeysOfChange(added: Registry, toRemove: seq<string>, k: string)
    requires forall r <- toRemove :: Canonical(r)
    ensures k in RemoveAll(added, toRemove) <==> k in added && Untouched(k, toRemove)
  {
    forall r <- toRemove ensures ValidPath(r) == r {
      CanonicalStartsWithSlash(r);
    }
    RemoveAllKeys(added, toRemove, k);
  }

  lemma KeptExactly(before: set<string>, data: set<string>, after: set<string>, toRemove: seq<string>)
    requires forall k :: k in after <==> k in before + data && Untouched(k, toRemove)
    requires forall k :: k in toRemove <==> k in before && k !in data
    ensures after == data <==> forall k <- data :: Untouched(k, toRemove)
    ensures after <= data
  {
    forall k <- after ensures k in data {
      ContainsItself(k);
    }
  }

  lemma {:induction false} RemovalsKeepNodes(reg: Registry, paths: seq<string>)
    ensures forall k <- RemoveAll(reg, paths) :: k in reg && RemoveAll(reg, paths)[k] == reg[k]
  {
    if paths != [] {
      RemovalsKeepNodes(reg, paths[..|paths| - 1]);
    }
  }
}
