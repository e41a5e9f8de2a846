/**
 The order in which a snapshot is walked.  Directories are sorted by a comparison under which two
 different names may tie, so the order of tied names is up to the file system; when that matters to
 the digest of a restored snapshot is stated here exactly.
 */
module SnapshotOrder {
  import opened Options
  import opened Bytes
  import opened Snapshots
  import Digests

  // An order on names, as `localeCompare` gives one.
  type Order = (Name, Name) -> bool

  ghost predicate Strict(lt: Order) {
    && (forall a :: !lt(a, a))
    && (forall a, b, c :: lt(a, b) && lt(b, c) ==> lt(a, c))
  }

  ghost predicate AllAfter(lt: Order, name: Name, es: Entries) {
    es.Entry? ==> lt(name, es.name) && AllAfter(lt, name, es.rest)
  }

  // Every directory is visited in strictly increasing order: no two names in it compare equal.
  ghost predicate Ordered(lt: Order, es: Entries) {
    es.Entry? ==>
      AllAfter(lt, es.name, es.rest) && Ordered(lt, es.rest) && (es.node.Dir? ==> Ordered(lt, es.node.entries))
  }

  ghost predicate PathLt(lt: Order, p: Path, q: Path) {
    p != [] && q != [] && (lt(p[0], q[0]) || (p[0] == q[0] && PathLt(lt, p[1..], q[1..])))
  }

  lemma {:induction false} PathLtIsAsymmetric(lt: Order, p: Path, q: Path)
    requires Strict(lt) && PathLt(lt, p, q)
    ensures !PathLt(lt, q, p)
    decreases |p|
  {
    if PathLt(lt, q, p) && p[0] == q[0] {
      PathLtIsAsymmetric(lt, p[1..], q[1..]);
    }
  }

  lemma {:induction false} PathLtBelow(lt: Order, prefix: Path, p: Path, q: Path)
    requires PathLt(lt, p, q)
    ensures PathLt(lt, prefix + p, prefix + q)
  {
    if prefix == [] {
      assert prefix + p == p && prefix + q == q;
    } else {
      PathLtBelow(lt, prefix[1..], p, q);
      assert (prefix + p)[1..] == prefix[1..] + p && (prefix + q)[1..] == prefix[1..] + q;
    }
  }

  ghost predicate Increasing(lt: Order, files: seq<SourceFile>) {
    forall i, j :: 0 <= i < j < |files| ==> PathLt(lt, files[i].path, files[j].path)
  }

  // Two increasing lists with the same members are equal.
  lemma {:induction false} IncreasingIsUnique(lt: Order, a: seq<SourceFile>, b: seq<SourceFile>)
    requires Strict(lt) && Increasing(lt, a) && Increasing(lt, b)
    requires forall f :: f in a <==> f in b
    ensures a == b
  {
    assert a == [] || a[0] in b;
    assert b == [] || b[0] in a;
    if a != [] {
      SameFirst(lt, a, b);
      forall f ensures f in a[1..] <==> f in b[1..] {
        NotLater(lt, a, f);
        NotLater(lt, b, f);
        assert f in a <==> f in b;
      }
      IncreasingIsUnique(lt, a[1..], b[1..]);
    }
  }

  lemma SameFirst(lt: Order, a: seq<SourceFile>, b: seq<SourceFile>)
    requires Strict(lt) && Increasing(lt, a) && Increasing(lt, b) && a != [] && b != []
    requires a[0] in b && b[0] in a
    ensures a[0] == b[0]
  {
    var i :| 0 <= i < |b| && b[i] == a[0];
    var j :| 0 <= j < |a| && a[j] == b[0];
    if i > 0 && j > 0 { PathLtIsAsymmetric(lt, a[0].path, a[j].path); }
  }

  // The first file is not listed again.
  lemma NotLater(lt: Order, a: seq<SourceFile>, f: SourceFile)
    requires Strict(lt) && Increasing(lt, a) && a != []
    ensures f in a[1..] <==> f in a && f != a[0]
  {
    assert a == [a[0]] + a[1..];
    if a[0] in a[1..] {
      var i :| 0 <= i < |a[1..]| && a[1..][i] == a[0];
      assert a[i + 1] == a[0];
      PathLtIsAsymmetric(lt, a[0].path, a[i + 1].path);
    }
  }

  // ---- Directories without ties ----

  lemma {:induction false} NamesComeAfter(lt: Order, name: Name, es: Entries, p: Path, c: seq<Byte>)
    requires AllAfter(lt, name, es) && Has(es, p, c)
    ensures lt(name, p[0])
  {
    if es.name != p[0] { NamesComeAfter(lt, name, es.rest, p, c); }
  }

  lemma {:induction false} ListingIncreases(lt: Order, prefix: Path, es: Entries)
    requires Strict(lt) && Ordered(lt, es)
    ensures Increasing(lt, Listing(prefix, es))
    decreases es
  {
    if es.Entry? {
      ListingIncreases(lt, prefix, es.rest);
      if es.node.Dir? { ListingIncreases(lt, prefix + [es.name], es.node.entries); }
      var here, later := Below(prefix, es.name, es.node), Listing(prefix, es.rest);
      assert Increasing(lt, here);
      forall f, g | f in here && g in later ensures PathLt(lt, f.path, g.path) {
        SiblingsIncrease(lt, prefix, es, f, g);
      }
      JoinedIncreases(lt, here, later);
    }
  }

  lemma JoinedIncreases(lt: Order, a: seq<SourceFile>, b: seq<SourceFile>)
    requires Increasing(lt, a) && Increasing(lt, b)
    requires forall f, g :: f in a && g in b ==> PathLt(lt, f.path, g.path)
    ensures Increasing(lt, a + b)
  {
    var s := a + b;
    forall i, j | 0 <= i < j < |s| ensures PathLt(lt, s[i].path, s[j].path) {
      if i < |a| <= j { assert s[i] in a && s[j] in b; }
    }
  }

  lemma SiblingsIncrease(lt: Order, prefix: Path, es: Entries, f: SourceFile, g: SourceFile)
    requires es.Entry? && AllAfter(lt, es.name, es.rest)
    requires f in Below(prefix, es.name, es.node) && g in Listing(prefix, es.rest)
    ensures PathLt(lt, f.path, g.path)
  {
    BelowLists(prefix, es.name, es.node, f);
    ListingLists(prefix, es.rest, g);
    var n := |prefix|;
    var p, q := f.path[n..], g.path[n..];
    NamesComeAfter(lt, es.name, es.rest, q, g.content);
    assert p[0] == (prefix + [es.name])[n] == es.name;
    assert PathLt(lt, p, q);
    PathLtBelow(lt, prefix, p, q);
    assert f.path == prefix + p && g.path == prefix + q;
  }

  // ---- Directories as they are sorted ----

  // What a comparison function that sorts must be: ties are transitive.
  ghost predicate Weak(lt: Order) {
    Strict(lt) && (forall a, b, c :: lt(a, b) ==> lt(a, c) || lt(c, b))
  }

  ghost predicate NoneBefore(lt: Order, name: Name, es: Entries) {
    es.Entry? ==> !lt(es.name, name) && NoneBefore(lt, name, es.rest)
  }

  // Every directory is visited in an order that a sort may produce.
  ghost predicate Sorted(lt: Order, es: Entries) {
    es.Entry? ==>
      && NoneBefore(lt, es.name, es.rest) && Sorted(lt, es.rest)
      && (es.node.Dir? ==> Sorted(lt, es.node.entries))
  }

  // Two paths part at position `i`: there they go through two different names of one directory.
  predicate Part(p: Path, q: Path, i: nat) {
    i < |p| && i < |q| && p[..i] == q[..i] && p[i] != q[i]
  }

  // Where two listed files part, the two names do not tie.
  ghost predicate Comparable(lt: Order, files: seq<SourceFile>) {
    forall f, g, i: nat :: f in files && g in files && Part(f.path, g.path, i) ==>
      lt(f.path[i], g.path[i]) || lt(g.path[i], f.path[i])
  }

  lemma {:induction false} NamesComeNotBefore(lt: Order, name: Name, es: Entries, p: Path, c: seq<Byte>)
    requires NoneBefore(lt, name, es) && Has(es, p, c)
    ensures !lt(p[0], name)
  {
    if es.name != p[0] { NamesComeNotBefore(lt, name, es.rest, p, c); }
  }

  lemma SiblingsCompare(lt: Order, prefix: Path, es: Entries, f: SourceFile, g: SourceFile)
    requires es.Entry? && NoneBefore(lt, es.name, es.rest) && NotAmong(es.name, es.rest)
    requires f in Below(prefix, es.name, es.node) && g in Listing(prefix, es.rest)
    requires Comparable(lt, Listing(prefix, es))
    ensures PathLt(lt, f.path, g.path)
  {
    BelowLists(prefix, es.name, es.node, f);
    ListingLists(prefix, es.rest, g);
    var n := |prefix|;
    var p, q := f.path[n..], g.path[n..];
    NamesComeNotBefore(lt, es.name, es.rest, q, g.content);
    NamesDiffer(es.name, es.rest, q, g.content);
    assert f.path[n] == (prefix + [es.name])[n] == es.name == p[0] && g.path[n] == q[0];
    assert f.path[..n] == prefix == g.path[..n];
    assert Part(f.path, g.path, n) && f in Listing(prefix, es) && g in Listing(prefix, es);
    assert PathLt(lt, p, q);
    PathLtBelow(lt, prefix, p, q);
    assert f.path == prefix + p && g.path == prefix + q;
  }

  lemma {:induction false} SortedListingIncreases(lt: Order, prefix: Path, es: Entries)
    requires Distinct(es) && Sorted(lt, es) && Comparable(lt, Listing(prefix, es))
    ensures Increasing(lt, Listing(prefix, es))
    decreases es
  {
    if es.Entry? {
      var here, later := Below(prefix, es.name, es.node), Listing(prefix, es.rest);
      assert forall f :: f in here ==> f in Listing(prefix, es);
      assert forall f :: f in later ==> f in Listing(prefix, es);
      SortedListingIncreases(lt, prefix, es.rest);
      if es.node.Dir? && es.name != MARKER && es.name !in IGNORED {
        SortedListingIncreases(lt, prefix + [es.name], es.node.entries);
      }
      forall f, g | f in here && g in later ensures PathLt(lt, f.path, g.path) {
        SiblingsCompare(lt, prefix, es, f, g);
      }
      JoinedIncreases(lt, here, later);
    }
  }

  // ---- Copies of a source ----

  // A tree that holds what the snapshot of `source` holds, in some order a sort may produce.
  ghost predicate SortedCopy(lt: Order, source: Entries, copy: Entries, marker: seq<Byte>) {
    Distinct(copy) && Sorted(lt, copy) && Represents(copy, AsMap(Listing([], source))[[MARKER] := marker])
  }

  lemma CopyHoldsTheSame(source: Entries, copy: Entries, marker: seq<Byte>, f: SourceFile)
    requires Distinct(source) && Represents(copy, AsMap(Listing([], source))[[MARKER] := marker])
    ensures f in Listing([], copy) <==> f in Listing([], source)
  {
    ListingIsSeparate([], source);
    ListedAtTheRoot(copy, f);
    ListedAtTheRoot(source, f);
    AsMapHolds(Listing([], source), f);
    if f.path == [MARKER] { assert f.path[0] == MARKER; }
  }

  // Without ties the walk over a snapshot lists what the walk over its source listed, in the same order.
  lemma CopyListsTheSame(lt: Order, source: Entries, copy: Entries, marker: seq<Byte>)
    requires Strict(lt) && Distinct(source) && Sorted(lt, source) && SortedCopy(lt, source, copy, marker)
    requires Comparable(lt, Listing([], source))
    ensures Listing([], copy) == Listing([], source)
  {
    forall f ensures f in Listing([], copy) <==> f in Listing([], source) {
      CopyHoldsTheSame(source, copy, marker, f);
    }
    assert Comparable(lt, Listing([], copy));
    SortedListingIncreases(lt, [], source);
    SortedListingIncreases(lt, [], copy);
    IncreasingIsUnique(lt, Listing([], copy), Listing([], source));
  }
}
