/**
 Names that tie.  From any source in which two files part at tied names, two copies can be built
 that sort differently, so one of them is walked in another order than the source.
 */
module SnapshotTies {
  import opened Options
  import opened Bytes
  import opened Snapshots
  import opened SnapshotOrder
  import Digests

  // ---- Two orders that break ties in opposite ways ----

  ghost predicate NameLt(a: Name, b: Name) {
    b != [] && (a == [] || a[0] < b[0] || (a[0] == b[0] && NameLt(a[1..], b[1..])))
  }

  lemma {:induction false} NameLtTotal(a: Name, b: Name)
    ensures a == b || NameLt(a, b) || NameLt(b, a)
    ensures !(NameLt(a, b) && NameLt(b, a)) && !NameLt(a, a)
    decreases |a| + |b|
  {
    if a != [] && b != [] {
      NameLtTotal(a[1..], b[1..]);
      assert a == [a[0]] + a[1..] && b == [b[0]] + b[1..];
    }
    if a != [] { NameLtIrreflexive(a); }
  }

  lemma {:induction false} NameLtIrreflexive(a: Name)
    ensures !NameLt(a, a)
  {
    if a != [] { NameLtIrreflexive(a[1..]); }
  }

  lemma {:induction false} NameLtTransitive(a: Name, b: Name, c: Name)
    requires NameLt(a, b) && NameLt(b, c)
    ensures NameLt(a, c)
    decreases |a|
  {
    if a != [] && a[0] == b[0] == c[0] { NameLtTransitive(a[1..], b[1..], c[1..]); }
  }

  ghost function Breaking(lt: Order, forward: bool): (ord: Order) {
    (a, b) => lt(a, b) || (!lt(b, a) && (if forward then NameLt(a, b) else NameLt(b, a)))
  }

  // A strict order in which no two names tie.
  ghost predicate Total(ord: Order) {
    Strict(ord) && (forall a, b :: a == b || ord(a, b) || ord(b, a))
  }

  lemma BreakingIsTotal(lt: Order, forward: bool)
    requires Weak(lt)
    ensures Total(Breaking(lt, forward))
  {
    var ord := Breaking(lt, forward);
    forall a ensures !ord(a, a) { NameLtIrreflexive(a); }
    forall a, b, c | ord(a, b) && ord(b, c) ensures ord(a, c) {
      if forward && NameLt(a, b) && NameLt(b, c) { NameLtTransitive(a, b, c); }
      if !forward && NameLt(c, b) && NameLt(b, a) { NameLtTransitive(c, b, a); }
    }
    forall a, b ensures a == b || ord(a, b) || ord(b, a) { NameLtTotal(a, b); }
  }

  // ---- Sorting a tree ----

  ghost function Insert(ord: Order, name: Name, node: Node, es: Entries): (r: Entries) {
    if es.Nothing? || ord(name, es.name) then Entry(name, node, es)
    else Entry(es.name, es.node, Insert(ord, name, node, es.rest))
  }

  ghost function Arrange(ord: Order, es: Entries): (r: Entries)
    decreases es
  {
    if es.Nothing? then Nothing
    else Insert(ord, es.name, ArrangeNode(ord, es.node), Arrange(ord, es.rest))
  }

  ghost function ArrangeNode(ord: Order, node: Node): (r: Node)
    decreases node
  {
    if node.Dir? then Dir(Arrange(ord, node.entries)) else node
  }

  lemma {:induction false} InsertHas(ord: Order, name: Name, node: Node, es: Entries, p: Path, c: seq<Byte>)
    ensures Has(Insert(ord, name, node, es), p, c) <==> Has(Entry(name, node, es), p, c)
  {
    if es.Entry? && !ord(name, es.name) { InsertHas(ord, name, node, es.rest, p, c); }
  }

  lemma {:induction false} ArrangeHas(ord: Order, es: Entries, p: Path, c: seq<Byte>)
    ensures Has(Arrange(ord, es), p, c) <==> Has(es, p, c)
    decreases es
  {
    if es.Entry? {
      InsertHas(ord, es.name, ArrangeNode(ord, es.node), Arrange(ord, es.rest), p, c);
      ArrangeHas(ord, es.rest, p, c);
      if es.node.Dir? && |p| > 1 { ArrangeHas(ord, es.node.entries, p[1..], c); }
    }
  }

  lemma {:induction false} InsertNames(ord: Order, name: Name, node: Node, es: Entries, other: Name)
    ensures NotAmong(other, Insert(ord, name, node, es)) <==> other != name && NotAmong(other, es)
    ensures AllAfter(ord, other, Insert(ord, name, node, es)) <==> ord(other, name) && AllAfter(ord, other, es)
  {
    if es.Entry? && !ord(name, es.name) { InsertNames(ord, name, node, es.rest, other); }
  }

  lemma {:induction false} ArrangeNames(ord: Order, es: Entries, other: Name)
    ensures NotAmong(other, Arrange(ord, es)) <==> NotAmong(other, es)
  {
    if es.Entry? {
      InsertNames(ord, es.name, ArrangeNode(ord, es.node), Arrange(ord, es.rest), other);
      ArrangeNames(ord, es.rest, other);
    }
  }

  lemma {:induction false} AfterAll(ord: Order, a: Name, b: Name, es: Entries)
    requires Strict(ord) && ord(a, b) && AllAfter(ord, b, es)
    ensures AllAfter(ord, a, es)
  {
    if es.Entry? { AfterAll(ord, a, b, es.rest); }
  }

  lemma {:induction false} InsertOrdered(ord: Order, name: Name, node: Node, es: Entries)
    requires Total(ord) && Ordered(ord, es) && NotAmong(name, es) && (node.Dir? ==> Ordered(ord, node.entries))
    ensures Ordered(ord, Insert(ord, name, node, es))
  {
    if es.Entry? {
      if ord(name, es.name) {
        AfterAll(ord, name, es.name, es.rest);
      } else {
        InsertOrdered(ord, name, node, es.rest);
        InsertNames(ord, name, node, es.rest, es.name);
      }
    }
  }

  lemma {:induction false} ArrangeOrdered(ord: Order, es: Entries)
    requires Total(ord) && Distinct(es)
    ensures Ordered(ord, Arrange(ord, es))
    decreases es
  {
    if es.Entry? {
      ArrangeOrdered(ord, es.rest);
      if es.node.Dir? { ArrangeOrdered(ord, es.node.entries); }
      ArrangeNames(ord, es.rest, es.name);
      InsertOrdered(ord, es.name, ArrangeNode(ord, es.node), Arrange(ord, es.rest));
    }
  }

  lemma {:induction false} InsertPlain(ord: Order, name: Name, node: Node, es: Entries)
    requires Plain(es) && (node.File? || (node.Dir? && Plain(node.entries)))
    ensures Plain(Insert(ord, name, node, es))
  {
    if es.Entry? && !ord(name, es.name) { InsertPlain(ord, name, node, es.rest); }
  }

  lemma {:induction false} ArrangePlain(ord: Order, es: Entries)
    requires Plain(es)
    ensures Plain(Arrange(ord, es))
    decreases es
  {
    if es.Entry? {
      ArrangePlain(ord, es.rest);
      if es.node.Dir? { ArrangePlain(ord, es.node.entries); }
      InsertPlain(ord, es.name, ArrangeNode(ord, es.node), Arrange(ord, es.rest));
    }
  }

  lemma {:induction false} AllAfterNotBefore(lt: Order, forward: bool, name: Name, es: Entries)
    requires Strict(lt) && AllAfter(Breaking(lt, forward), name, es)
    ensures NoneBefore(lt, name, es) && NotAmong(name, es)
  {
    if es.Entry? {
      AllAfterNotBefore(lt, forward, name, es.rest);
      NameLtIrreflexive(name);
    }
  }

  // What is in order without ties is sorted.
  lemma {:induction false} OrderedIsSorted(lt: Order, forward: bool, es: Entries)
    requires Strict(lt) && Ordered(Breaking(lt, forward), es)
    ensures Sorted(lt, es) && Distinct(es)
    decreases es
  {
    if es.Entry? {
      AllAfterNotBefore(lt, forward, es.name, es.rest);
      OrderedIsSorted(lt, forward, es.rest);
      if es.node.Dir? { OrderedIsSorted(lt, forward, es.node.entries); }
    }
  }

  // ---- What a snapshot keeps of a tree ----

  function Pruned(es: Entries): (r: Entries)
    decreases es
  {
    if es.Nothing? then Nothing
    else
      var rest := Pruned(es.rest);
      if es.name == MARKER then rest
      else match es.node
        case File(_) => Entry(es.name, es.node, rest)
        case Dir(inner) =>
          if es.name in IGNORED || Pruned(inner).Nothing? then rest else Entry(es.name, Dir(Pruned(inner)), rest)
        case _ => rest
  }

  lemma {:induction false} PrunedShape(es: Entries)
    requires Distinct(es)
    ensures Plain(Pruned(es)) && Distinct(Pruned(es)) && NotAmong(MARKER, Pruned(es))
    ensures forall name :: NotAmong(name, es) ==> NotAmong(name, Pruned(es))
    decreases es
  {
    if es.Entry? {
      PrunedShape(es.rest);
      if es.node.Dir? { PrunedShape(es.node.entries); }
    }
  }

  lemma {:induction false} PrunedHas(es: Entries, p: Path, c: seq<Byte>)
    ensures Has(Pruned(es), p, c) <==> Kept(p) && Has(es, p, c)
    decreases es
  {
    if es.Entry? && p != [] {
      PrunedHas(es.rest, p, c);
      if |p| > 1 {
        assert p == [p[0]] + p[1..];
        KeptBelow(p[0], p[1..]);
        if es.node.Dir? { PrunedHas(es.node.entries, p[1..], c); }
      } else {
        assert p == [p[0]];
        KeptBelow(p[0], [p[0]]);
      }
    }
  }

  ghost function CopyIn(lt: Order, forward: bool, source: Entries, marker: seq<Byte>): (copy: Entries) {
    Arrange(Breaking(lt, forward), Entry(MARKER, File(marker), Pruned(source)))
  }

  lemma CopyInIsSortedCopy(lt: Order, forward: bool, source: Entries, marker: seq<Byte>)
    requires Weak(lt) && Distinct(source)
    ensures SortedCopy(lt, source, CopyIn(lt, forward, source, marker), marker)
    ensures Ordered(Breaking(lt, forward), CopyIn(lt, forward, source, marker))
  {
    var ord := Breaking(lt, forward);
    var es := Entry(MARKER, File(marker), Pruned(source));
    var copy, files := Arrange(ord, es), AsMap(Listing([], source))[[MARKER] := marker];
    BreakingIsTotal(lt, forward);
    PrunedShape(source);
    ArrangeOrdered(ord, es);
    OrderedIsSorted(lt, forward, copy);
    ArrangePlain(ord, es);
    ListingKeepsExactly(source);
    forall p, c ensures Has(copy, p, c) <==> p in files && files[p] == c {
      ArrangeHas(ord, es, p, c);
      PrunedHas(source, p, c);
      assert Keeps(source, p, c) <==> p in AsMap(Listing([], source)) && AsMap(Listing([], source))[p] == c;
      if p != [] && p[0] == MARKER && |p| == 1 { assert p == [MARKER]; }
    }
  }

  // ---- A tie is visible ----

  lemma {:induction false} OrderedWhereTheyPart(ord: Order, p: Path, q: Path, i: nat)
    requires Strict(ord) && PathLt(ord, p, q) && Part(p, q, i)
    ensures ord(p[i], q[i])
  {
    if i > 0 {
      assert p[0] == p[..i][0] == q[..i][0] == q[0];
      assert p[1..][..i - 1] == p[..i][1..] && q[1..][..i - 1] == q[..i][1..];
      OrderedWhereTheyPart(ord, p[1..], q[1..], i - 1);
    }
  }

  // Two tied names are listed one way by one of the copies and the other way by the other.
  lemma CopiesDisagree(lt: Order, files: seq<SourceFile>, x: nat, y: nat, i: nat)
    requires Weak(lt) && x < y < |files| && Part(files[x].path, files[y].path, i)
    requires !lt(files[x].path[i], files[y].path[i]) && !lt(files[y].path[i], files[x].path[i])
    ensures !Increasing(Breaking(lt, true), files) || !Increasing(Breaking(lt, false), files)
  {
    var p, q := files[x].path, files[y].path;
    BreakingIsTotal(lt, true);
    BreakingIsTotal(lt, false);
    NameLtTotal(p[i], q[i]);
    if Increasing(Breaking(lt, true), files) {
      OrderedWhereTheyPart(Breaking(lt, true), p, q, i);
      if Increasing(Breaking(lt, false), files) { OrderedWhereTheyPart(Breaking(lt, false), p, q, i); }
    }
  }

  lemma CopyInIncreases(lt: Order, forward: bool, source: Entries, marker: seq<Byte>)
    requires Weak(lt) && Distinct(source)
    ensures Increasing(Breaking(lt, forward), Listing([], CopyIn(lt, forward, source, marker)))
  {
    BreakingIsTotal(lt, forward);
    CopyInIsSortedCopy(lt, forward, source, marker);
    ListingIncreases(Breaking(lt, forward), [], CopyIn(lt, forward, source, marker));
  }

  // If two files part at tied names, some sorted copy is walked in another order than the source.
  lemma TiesReorderACopy(lt: Order, source: Entries, marker: seq<Byte>) returns (copy: Entries)
    requires Weak(lt) && Distinct(source) && !Comparable(lt, Listing([], source))
    ensures SortedCopy(lt, source, copy, marker) && Listing([], copy) != Listing([], source)
  {
    var files := Listing([], source);
    TiesDisagree(lt, files);
    hide Comparable, Weak, Distinct, SortedCopy, CopyIn, Breaking, Increasing;
    CopyInIncreases(lt, true, source, marker);
    CopyInIncreases(lt, false, source, marker);
    CopyInIsSortedCopy(lt, true, source, marker);
    CopyInIsSortedCopy(lt, false, source, marker);
    var one := CopyIn(lt, true, source, marker);
    copy := if Listing([], one) != files then one else CopyIn(lt, false, source, marker);
  }

  lemma TiesDisagree(lt: Order, files: seq<SourceFile>)
    requires Weak(lt) && !Comparable(lt, files)
    ensures !Increasing(Breaking(lt, true), files) || !Increasing(Breaking(lt, false), files)
  {
    var f, g, i: nat :| f in files && g in files && Part(f.path, g.path, i)
      && !lt(f.path[i], g.path[i]) && !lt(g.path[i], f.path[i]);
    var x :| 0 <= x < |files| && files[x] == f;
    var y :| 0 <= y < |files| && files[y] == g;
    hide Comparable, Weak, Breaking, Increasing;
    if x < y {
      CopiesDisagree(lt, files, x, y, i);
    } else {
      PartsBothWays(f.path, g.path, i);
      CopiesDisagree(lt, files, y, x, i);
    }
  }

  lemma PartsBothWays(p: Path, q: Path, i: nat)
    requires Part(p, q, i)
    ensures Part(q, p, i)
  {}

  // ---- The digest tells listings apart ----

  predicate NameOk(name: Name) { 0 !in name && 47 !in name }
  predicate PathOk(p: Path) { forall i :: 0 <= i < |p| ==> NameOk(p[i]) }

  // Names as a file system has them: no NUL and no slash.
  predicate NamesOk(es: Entries) {
    es.Entry? ==> NameOk(es.name) && NamesOk(es.rest) && (es.node.Dir? ==> NamesOk(es.node.entries))
  }

  lemma {:induction false} HasPathOk(es: Entries, p: Path, c: seq<Byte>)
    requires NamesOk(es) && Has(es, p, c)
    ensures PathOk(p)
    decreases es
  {
    if es.name == p[0] && |p| > 1 && es.node.Dir? && Has(es.node.entries, p[1..], c) {
      HasPathOk(es.node.entries, p[1..], c);
      assert p == [p[0]] + p[1..];
    } else if !(es.name == p[0] && |p| == 1 && es.node == File(c)) {
      HasPathOk(es.rest, p, c);
    }
  }

  lemma {:induction false} JoinedNulFree(p: Path)
    requires PathOk(p)
    ensures Digests.NulFree(Joined(p))
  {
    if |p| > 1 { JoinedNulFree(p[1..]); }
  }

  lemma {:induction false} FirstSlash(a: Name, b: Name, x: seq<Byte>, y: seq<Byte>)
    requires 47 !in a && 47 !in b && a + [47] + x == b + [47] + y
    ensures a == b && x == y
  {
    var s, t := a + [47] + x, b + [47] + y;
    assert s[|a|] == 47 && s[|b|] == t[|b|] == 47;
    assert forall i :: 0 <= i < |a| ==> s[i] == a[i] && s[i] in a;
    assert forall i :: 0 <= i < |b| ==> t[i] == b[i] && t[i] in b;
    assert a == s[..|a|] && b == t[..|b|] && x == s[|a| + 1..] && y == t[|b| + 1..];
  }

  // A joined path can be split again in one way only.
  lemma {:induction false} JoinedIsInjective(p: Path, q: Path)
    requires PathOk(p) && PathOk(q) && p != [] && q != [] && Joined(p) == Joined(q)
    ensures p == q
  {
    JoinedSlash(p);
    JoinedSlash(q);
    if |p| > 1 {
      FirstSlash(p[0], q[0], Joined(p[1..]), Joined(q[1..]));
      JoinedIsInjective(p[1..], q[1..]);
      assert p == [p[0]] + p[1..] && q == [q[0]] + q[1..];
    }
  }

  lemma JoinedSlash(p: Path)
    requires PathOk(p) && p != []
    ensures 47 in Joined(p) <==> |p| > 1
  {}

  predicate FilesOk(files: seq<SourceFile>) {
    forall i :: 0 <= i < |files| ==> files[i].path != [] && PathOk(files[i].path)
  }

  lemma PreimageIsInjective(a: seq<SourceFile>, b: seq<SourceFile>)
    requires FilesOk(a) && FilesOk(b) && Preimage(a) == Preimage(b)
    ensures a == b
  {
    forall i | 0 <= i < |a| ensures Digests.NulFree(Items(a)[i].name) { JoinedNulFree(a[i].path); }
    forall i | 0 <= i < |b| ensures Digests.NulFree(Items(b)[i].name) { JoinedNulFree(b[i].path); }
    Digests.SourceStreamIsInjective(Items(a), Items(b));
    forall i | 0 <= i < |a| ensures a[i] == b[i] {
      assert Items(a)[i] == Items(b)[i];
      JoinedIsInjective(a[i].path, b[i].path);
    }
  }

  lemma ListingOk(es: Entries)
    requires NamesOk(es)
    ensures FilesOk(Listing([], es))
  {
    var files := Listing([], es);
    forall i | 0 <= i < |files| ensures files[i].path != [] && PathOk(files[i].path) {
      ListedAtTheRoot(es, files[i]);
      HasPathOk(es, files[i].path, files[i].content);
    }
  }

  // ---- When a snapshot can be restored ----

  ghost predicate Injective<D(!new)>(hash: seq<Byte> -> D) {
    forall x, y :: hash(x) == hash(y) ==> x == y
  }

  // Siblings on the way to two kept files never tie.
  ghost predicate TieFree(lt: Order, source: Entries) {
    forall p, q, c, d, i: nat :: Keeps(source, p, c) && Keeps(source, q, d) && Part(p, q, i) ==>
      lt(p[i], q[i]) || lt(q[i], p[i])
  }

  lemma TieFreeIsComparable(lt: Order, source: Entries)
    ensures TieFree(lt, source) <==> Comparable(lt, Listing([], source))
  {
    var files := Listing([], source);
    forall f ensures f in files <==> Keeps(source, f.path, f.content) { ListedAtTheRoot(source, f); }
    if Comparable(lt, files) {
      forall p, q, c, d, i: nat | Keeps(source, p, c) && Keeps(source, q, d) && Part(p, q, i)
        ensures lt(p[i], q[i]) || lt(q[i], p[i])
      {
        var f, g := SourceFile(p, c), SourceFile(q, d);
        assert f in files && g in files && Part(f.path, g.path, i);
      }
    }
  }

  // Restoring into an empty workspace asks of a sorted copy exactly that it is listed like its source.
  lemma RestorableIffListedAlike<D(!new)>(
    lt: Order, source: Entries, copy: Entries, markerBytes: seq<Byte>, marker: Marker<D>, expected: Option<D>,
    hash: seq<Byte> -> D)
    requires Distinct(source) && NamesOk(source) && Within(Listing([], source)) && Injective(hash)
    requires marker.version == 1 && marker.digest == hash(Preimage(Listing([], source)))
    requires expected.None? || expected.value == marker.digest
    requires SortedCopy(lt, source, copy, markerBytes)
    ensures Restorable(copy, marker, expected, hash, map[], {}) <==> Listing([], copy) == Listing([], source)
  {
    PlainIsClean(copy);
    NothingInTheWay(Listing([], copy));
    ListingOk(source);
    var files := Listing([], copy);
    forall i | 0 <= i < |files| ensures files[i].path != [] && PathOk(files[i].path) {
      CopyHoldsTheSame(source, copy, markerBytes, files[i]);
      var j :| 0 <= j < |Listing([], source)| && Listing([], source)[j] == files[i];
    }
    if Restorable(copy, marker, expected, hash, map[], {}) { PreimageIsInjective(files, Listing([], source)); }
  }

  // A snapshot can be restored from every copy that the file system may present exactly when no siblings on the way
  // to two kept files tie.
  lemma RestoresIffTieFree<D(!new)>(
    lt: Order, source: Entries, markerBytes: seq<Byte>, marker: Marker<D>, expected: Option<D>, hash: seq<Byte> -> D)
    requires Weak(lt) && Distinct(source) && Sorted(lt, source) && NamesOk(source)
    requires Within(Listing([], source)) && Injective(hash)
    requires marker.version == 1 && marker.digest == hash(Preimage(Listing([], source)))
    requires expected.None? || expected.value == marker.digest
    ensures TieFree(lt, source) <==>
              (forall copy :: SortedCopy(lt, source, copy, markerBytes) ==>
                  Restorable(copy, marker, expected, hash, map[], {}))
  {
    TieFreeIsComparable(lt, source);
    hide Weak, Distinct, Sorted, NamesOk, Within, Comparable, TieFree, SortedCopy, Restorable, Injective;
    if Comparable(lt, Listing([], source)) {
      forall copy | SortedCopy(lt, source, copy, markerBytes)
        ensures Restorable(copy, marker, expected, hash, map[], {})
      {
        WeakIsStrict(lt);
        CopyListsTheSame(lt, source, copy, markerBytes);
        RestorableIffListedAlike(lt, source, copy, markerBytes, marker, expected, hash);
      }
    } else {
      var copy := TiesReorderACopy(lt, source, markerBytes);
      RestorableIffListedAlike(lt, source, copy, markerBytes, marker, expected, hash);
    }
  }

  lemma WeakIsStrict(lt: Order)
    requires Weak(lt)
    ensures Strict(lt)
  {}

  // What is restored is exactly what is worth keeping, from every copy that is accepted.
  lemma RestoredIsExactlyTheKept(lt: Order, source: Entries, copy: Entries, markerBytes: seq<Byte>)
    requires Distinct(source) && SortedCopy(lt, source, copy, markerBytes)
    ensures KeepsExactly(AsMap(Listing([], copy)), source)
  {
    ListingKeepsExactly(copy);
    var m := AsMap(Listing([], copy));
    forall p, c ensures Keeps(source, p, c) <==> p in m && m[p] == c {
      CopyHoldsTheSame(source, copy, markerBytes, SourceFile(p, c));
      ListedAtTheRoot(source, SourceFile(p, c));
      ListedAtTheRoot(copy, SourceFile(p, c));
      assert Keeps(copy, p, c) <==> p in m && m[p] == c;
    }
  }

  // Two files whose names tie: the snapshot is created, and some copy of it is refused.
  lemma TiedNamesAreRefused<D(!new)>(
    lt: Order, a: Name, b: Name, x: seq<Byte>, y: seq<Byte>, markerBytes: seq<Byte>, marker: Marker<D>,
        hash: seq<Byte> -> D)
    returns (copy: Entries)
    requires Weak(lt) && Injective(hash) && a != b && !lt(a, b) && !lt(b, a)
    requires a != MARKER && b != MARKER && NameOk(a) && NameOk(b) && |x| + |y| <= BYTE_LIMIT
    requires var source := Entry(a, File(x), Entry(b, File(y), Nothing));
             marker.version == 1 && marker.digest == hash(Preimage(Listing([], source)))
    ensures var source := Entry(a, File(x), Entry(b, File(y), Nothing));
            && Clean(source) && Within(Listing([], source)) && SortedCopy(lt, source, copy, markerBytes)
            && !Restorable(copy, marker, None, hash, map[], {})
  {
    var source := Entry(a, File(x), Entry(b, File(y), Nothing));
    TwoFiles(lt, a, b, x, y);
    hide *;
    copy := TiesReorderACopy(lt, source, markerBytes);
    RestorableIffListedAlike(lt, source, copy, markerBytes, marker, None, hash);
  }

  lemma TwoFiles(lt: Order, a: Name, b: Name, x: seq<Byte>, y: seq<Byte>)
    requires a != b && !lt(a, b) && !lt(b, a) && a != MARKER && b != MARKER && NameOk(a) && NameOk(b)
    requires |x| + |y| <= BYTE_LIMIT
    ensures var source := Entry(a, File(x), Entry(b, File(y), Nothing));
            && Distinct(source) && NamesOk(source) && Clean(source) && Within(Listing([], source))
            && !Comparable(lt, Listing([], source))
  {
    var last := Entry(b, File(y), Nothing);
    var source := Entry(a, File(x), last);
    var f, g := SourceFile([a], x), SourceFile([b], y);
    ListingOfTwo(a, b, x, y);
    assert NotAmong(b, Nothing) && NotAmong(a, last) && Distinct(last) && NamesOk(last) && Clean(last);
    assert Distinct(source) && NamesOk(source) && Clean(source);
    WithinOneMore([f], g);
    WithinOneMore([], f);
    assert [f] + [g] == [f, g] && [] + [f] == [f];
    assert f.path[0] == a && g.path[0] == b && f.path[..0] == g.path[..0];
    assert f in Listing([], source) && g in Listing([], source) && Part(f.path, g.path, 0);
  }

  lemma ListingOfTwo(a: Name, b: Name, x: seq<Byte>, y: seq<Byte>)
    requires a != MARKER && b != MARKER
    ensures Listing([], Entry(a, File(x), Entry(b, File(y), Nothing))) == [SourceFile([a], x), SourceFile([b], y)]
  {
    var none: Path := [];
    var last := Entry(b, File(y), Nothing);
    assert none + [a] == [a] && none + [b] == [b];
    assert Below([], b, File(y)) == [SourceFile([b], y)];
    assert Listing([], last) == Below([], b, File(y)) + Listing([], Nothing);
    assert Listing([], last) == [SourceFile([b], y)];
    assert Below([], a, File(x)) == [SourceFile([a], x)];
  }
}
