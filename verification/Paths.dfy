/** Node paths: sequences of segments separated by '/'. */
module Paths {
  import opened Collections

  /** The length of the leading run of characters other than '/'. */
  function SegmentLength(path: string): (n: nat)
    ensures n <= |path|
    ensures forall k :: 0 <= k < n ==> path[k] != '/'
    ensures n < |path| ==> path[n] == '/'
  {
    if path == "" || path[0] == '/' then 0 else 1 + SegmentLength(path[1..])
  }

  /** The non-empty segments of a path. */
  function Segments(path: string): seq<string>
    decreases |path|
  {
    if path == "" then []
    else if path[0] == '/' then Segments(path[1..])
    else
      var n := SegmentLength(path);
      [path[..n]] + Segments(path[n..])
  }

  /** path.split("/").last: splitting drops empty parts at the end, and finds none in a path of slashes only. */
  function LastSegment(path: string): Option<string> {
    if path == "" then Some("")
    else
      var segments := Segments(path);
      if segments == [] then None else Some(segments[|segments| - 1])
  }

  predicate IsSegment(s: string) {
    s != "" && forall k :: 0 <= k < |s| ==> s[k] != '/'
  }

  predicate AreSegments(segments: seq<string>) {
    forall s <- segments :: IsSegment(s)
  }

  function Join(segments: seq<string>): string {
    if segments == [] then "" else Join(segments[..|segments| - 1]) + "/" + segments[|segments| - 1]
  }

  lemma {:induction false} SegmentsAreSegments(path: string)
    ensures AreSegments(Segments(path))
    decreases |path|
  {
    if path != "" {
      if path[0] == '/' {
        SegmentsAreSegments(path[1..]);
      } else {
        var n := SegmentLength(path);
        SegmentsAreSegments(path[n..]);
        assert IsSegment(path[..n]);
      }
    }
  }

  lemma {:induction false} JoinConcat(a: seq<string>, b: seq<string>)
    ensures Join(a + b) == Join(a) + Join(b)
  {
    if b == [] {
      assert a + b == a;
    } else {
      assert (a + b)[..|a + b| - 1] == a + b[..|b| - 1];
      JoinConcat(a, b[..|b| - 1]);
      assert Join(a + b) == Join(a) + Join(b[..|b| - 1]) + "/" + b[|b| - 1];
    }
  }

  lemma FirstSegment(s: string, rest: string)
    requires IsSegment(s) && (rest == "" || rest[0] == '/')
    ensures SegmentLength(s + rest) == |s|
  {
    assert forall k :: 0 <= k < |s| ==> (s + rest)[k] == s[k];
    assert rest != "" ==> (s + rest)[|s|] == '/';
  }

  lemma JoinStartsWithSlash(segments: seq<string>)
    requires segments != []
    ensures Join(segments) != "" && Join(segments)[0] == '/'
  {
    if |segments| > 1 {
      JoinStartsWithSlash(segments[..|segments| - 1]);
    }
  }

  /** Splitting a joined path gives its segments back. */
  lemma {:induction false} SegmentsOfJoin(segments: seq<string>)
    requires AreSegments(segments)
    ensures Segments(Join(segments)) == segments
  {
    if segments != [] {
      var head, tail := segments[0], segments[1..];
      assert segments == [head] + tail;
      JoinConcat([head], tail);
      assert Join([head]) == "/" + head by { assert [head][..0] == []; }
      if tail != [] {
        JoinStartsWithSlash(tail);
      }
      var path := Join(segments);
      assert path[1..] == head + Join(tail);
      FirstSegment(head, Join(tail));
      assert path[1..][..|head|] == head && path[1..][|head|..] == Join(tail);
      SegmentsOfJoin(tail);
    }
  }

  function Slashes(n: nat): (r: string)
    ensures |r| == n && forall c <- r :: c == '/'
  {
    if n == 0 then "" else "/" + Slashes(n - 1)
  }

  lemma {:induction false} SegmentsOfSlashes(n: nat)
    ensures Segments(Slashes(n)) == []
  {
    if n > 0 {
      SegmentsOfSlashes(n - 1);
    }
  }

  /** Slashes behind a joined path add no segment. */
  lemma {:induction false} SegmentsBeforeSlashes(segments: seq<string>, n: nat)
    requires AreSegments(segments)
    ensures Segments(Join(segments) + Slashes(n)) == segments
  {
    if segments == [] {
      SegmentsOfSlashes(n);
      assert Join(segments) + Slashes(n) == Slashes(n);
    } else {
      var head, tail := segments[0], segments[1..];
      SegmentsBeforeSlashes(tail, n);
      JoinHead(head, tail, Slashes(n));
      HeadSegment(head, Join(tail) + Slashes(n));
      assert segments == [head] + tail;
    }
  }

  lemma JoinHead(head: string, tail: seq<string>, slashes: string)
    requires slashes == "" || slashes[0] == '/'
    ensures Join([head] + tail) + slashes == "/" + (head + (Join(tail) + slashes))
    ensures var rest := Join(tail) + slashes; rest == "" || rest[0] == '/'
  {
    JoinConcat([head], tail);
    assert Join([head]) == "/" + head by { assert [head][..0] == []; }
    if tail != [] {
      JoinStartsWithSlash(tail);
    }
  }

  lemma HeadSegment(head: string, rest: string)
    requires IsSegment(head) && (rest == "" || rest[0] == '/')
    ensures Segments("/" + (head + rest)) == [head] + Segments(rest)
  {
    FirstSegment(head, rest);
    assert ("/" + (head + rest))[1..] == head + rest;
    assert (head + rest)[..|head|] == head && (head + rest)[|head|..] == rest;
  }

  /** The name that a request's path ends in is its last segment, whatever slashes follow; slashes alone end in none. */
  lemma LastSegmentMeaning(segments: seq<string>, n: nat)
    requires AreSegments(segments) && segments != []
    ensures LastSegment(Join(segments) + Slashes(n)) == Some(segments[|segments| - 1])
  {
    SegmentsBeforeSlashes(segments, n);
    JoinStartsWithSlash(segments);
  }

  lemma NoLastSegment(n: nat)
    ensures LastSegment(Slashes(n)) == if n == 0 then Some("") else None
  {
    SegmentsOfSlashes(n);
  }

  // ---- Parents ----

  function AggregateParent(parent: Option<string>, tail: seq<string>): (Option<string>, string)
    decreases |tail|
  {
    if tail == [] then (parent, "")
    else if |tail| == 1 then (parent, tail[0])
    else AggregateParent(Some((if parent.Some? then parent.value else "") + "/" + tail[0]), tail[1..])
  }

  /** The parent's path, if there is one, and the node's own name. */
  function ParentPath(path: string): (Option<string>, string) {
    AggregateParent(None, Segments(path))
  }

  function Parent(path: string): Option<string> {
    ParentPath(path).0
  }

  lemma {:induction false} AggregateParentMeaning(parent: Option<string>, tail: seq<string>)
    requires tail != []
    ensures var n := |tail| - 1;
            AggregateParent(parent, tail) ==
            (if n == 0 then parent else Some((if parent.Some? then parent.value else "") + Join(tail[..n])), tail[n])
    decreases |tail|
  {
    if |tail| > 1 {
      var n := |tail| - 1;
      var head := (if parent.Some? then parent.value else "") + "/" + tail[0];
      AggregateParentMeaning(Some(head), tail[1..]);
      assert tail[..n] == [tail[0]] + tail[1..][..n - 1];
      JoinConcat([tail[0]], tail[1..][..n - 1]);
      assert Join([tail[0]]) == "/" + tail[0] by { assert [tail[0]][..0] == []; }
      var before := if parent.Some? then parent.value else "";
      assert head == before + ("/" + tail[0]);
      assert head + Join(tail[1..][..n - 1]) == before + Join(tail[..n]);
      assert n == 1 ==> tail[1..][..n - 1] == [] && head + "" == head;
    }
  }

  lemma ParentIsFront(path: string)
    ensures var segments := Segments(path);
            Parent(path) == if |segments| <= 1 then None else Some(Join(segments[..|segments| - 1]))
  {
    var segments := Segments(path);
    if segments != [] {
      AggregateParentMeaning(None, segments);
      assert "" + Join(segments[..|segments| - 1]) == Join(segments[..|segments| - 1]);
    }
  }

  lemma SegmentsOfFront(path: string)
    requires Segments(path) != []
    ensures var front := Segments(path)[..|Segments(path)| - 1]; Segments(Join(front)) == front
  {
    SegmentsAreSegments(path);
    SegmentsOfJoin(Segments(path)[..|Segments(path)| - 1]);
  }

  /** The parent is the path of all segments but the last; paths of at most one segment have none. */
  lemma ParentMeaning(path: string)
    ensures var segments := Segments(path);
            Parent(path) == if |segments| <= 1 then None else Some(Join(segments[..|segments| - 1]))
    ensures Parent(path).Some? ==> Segments(Parent(path).value) == Segments(path)[..|Segments(path)| - 1]
  {
    ParentIsFront(path);
    if Segments(path) != [] {
      SegmentsOfFront(path);
    }
  }

  /** The name that goes with the parent is the last segment, and empty for a path without any. */
  lemma NameMeaning(path: string)
    ensures var segments := Segments(path);
            ParentPath(path).1 == if segments == [] then "" else segments[|segments| - 1]
  {
    if Segments(path) != [] {
      AggregateParentMeaning(None, Segments(path));
    }
  }

  /** The paths of a node's ancestors. */
  function Ancestors(path: string): set<string>
    decreases |Segments(path)|
  {
    ParentMeaning(path);
    if Parent(path).None? then {} else {Parent(path).value} + Ancestors(Parent(path).value)
  }

  /** A path in its normal form: the root, or '/' before every segment and nothing else. */
  predicate Canonical(path: string) {
    path == "/" || (Segments(path) != [] && path == Join(Segments(path)))
  }

  predicate IsPrefix(a: string, b: string) {
    |a| <= |b| && b[..|a|] == a
  }

  lemma CanonicalParent(path: string)
    requires Canonical(path) && Parent(path).Some?
    ensures var parent := Parent(path).value;
            Canonical(parent) && IsPrefix(parent, path) && |parent| < |path| && Parent(path).value[0] == '/'
  {
    ParentMeaning(path);
    assert path != "/" by { assert Segments("/") == Segments("") by { assert "/"[1..] == ""; } }
    var front := Segments(path)[..|Segments(path)| - 1];
    assert path == Join(front) + "/" + Segments(path)[|Segments(path)| - 1];
    JoinStartsWithSlash(front);
  }

  lemma CanonicalStartsWithSlash(path: string)
    requires Canonical(path)
    ensures path != "" && path[0] == '/'
  {
    if path != "/" {
      JoinStartsWithSlash(Segments(path));
    }
  }

  // ---- Substrings ----

  predicate OccursAt(s: string, t: string, i: int) {
    0 <= i <= |s| - |t| && s[i..i + |t|] == t
  }

  predicate Contains(s: string, t: string) {
    exists i :: 0 <= i <= |s| && OccursAt(s, t, i)
  }

  lemma ContainsItself(s: string)
    ensures Contains(s, s)
  {
    assert OccursAt(s, s, 0);
  }

  /** What a prefix contains, the whole contains. */
  lemma PrefixContains(prefix: string, s: string, t: string)
    requires IsPrefix(prefix, s) && Contains(prefix, t)
    ensures Contains(s, t)
  {
    var i :| 0 <= i <= |prefix| && OccursAt(prefix, t, i);
    assert s[i..i + |t|] == s[..|prefix|][i..i + |t|];
    assert OccursAt(s, t, i);
  }

  lemma SliceOfSlice<T>(s: seq<T>, i: nat, n: nat, j: nat, m: nat)
    requires i + n <= |s| && j + m <= n
    ensures s[i..i + n][j..j + m] == s[i + j..i + j + m]
  {
    var slice, direct := s[i..i + n][j..j + m], s[i + j..i + j + m];
    forall k | 0 <= k < m ensures slice[k] == direct[k] {
      assert s[i..i + n][j + k] == s[i + j + k];
    }
  }

  lemma ContainsTransitive(s: string, t: string, u: string)
    requires Contains(s, t) && Contains(t, u)
    ensures Contains(s, u)
  {
    var i :| 0 <= i <= |s| && OccursAt(s, t, i);
    var j :| 0 <= j <= |t| && OccursAt(t, u, j);
    SliceOfSlice(s, i, |t|, j, |u|);
    assert OccursAt(s, u, i + j);
  }

  lemma PrefixIsContained(prefix: string, s: string)
    requires IsPrefix(prefix, s)
    ensures Contains(s, prefix)
  {
    ContainsItself(prefix);
    PrefixContains(prefix, s, prefix);
  }

  /** Every ancestor of a canonical path is a canonical, strictly shorter prefix of it. */
  lemma {:induction false} AncestorsArePrefixes(path: string, ancestor: string)
    requires Canonical(path) && ancestor in Ancestors(path)
    ensures Canonical(ancestor) && IsPrefix(ancestor, path) && |ancestor| < |path|
    decreases |path|
  {
    CanonicalParent(path);
    var parent := Parent(path).value;
    if ancestor != parent {
      AncestorsArePrefixes(parent, ancestor);
      assert path[..|ancestor|] == path[..|parent|][..|ancestor|];
    }
  }
}
