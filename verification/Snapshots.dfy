/**
 * Source snapshots: a walk over a directory tree lists the files worth keeping, a snapshot is a
 * copy of them beside a marker, and a restore walks the copy and writes it to a workspace.
 * A directory is given by its entries in the order in which the walk visits them.
 */
module Snapshots {
  import opened Options
  import opened Bytes
  import Digests

  type Name = seq<Byte>
  type Path = seq<Name>

  datatype Node = File(content: seq<Byte>) | Dir(entries: Entries) | Link | Special
  datatype Entries = Nothing | Entry(name: Name, node: Node, rest: Entries)
  datatype SourceFile = SourceFile(path: Path, content: seq<Byte>)

  const FILE_LIMIT: nat := 50_000
  const BYTE_LIMIT: nat := 64 * 1024 * 1024

  function Ascii(s: string): (b: seq<Byte>)
    requires forall i :: 0 <= i < |s| ==> s[i] as int < 128
  {
    seq(|s|, i requires 0 <= i < |s| => s[i] as int as Byte)
  }

  const MARKER: Name := Ascii(".piwork-source-snapshot.json")
  const GITKEEP: Name := Ascii(".gitkeep")
  const IGNORED: set<Name> :=
    {Ascii(".git"), Ascii(".wrangler"), Ascii(".cache"), Ascii("node_modules"), Ascii("build"), Ascii("dist")}

  // ---- What is worth keeping ----

  // A file with this content is at this path.
  predicate Has(es: Entries, p: Path, c: seq<Byte>)
    decreases es
  {
    && p != [] && es.Entry?
    && (|| (es.name == p[0] && |p| == 1 && es.node == File(c))
        || (es.name == p[0] && |p| > 1 && es.node.Dir? && Has(es.node.entries, p[1..], c))
        || Has(es.rest, p, c))
  }

  // Outside every ignored directory, and no part of the path is called like the marker.
  predicate Kept(p: Path) {
    && (forall i :: 0 <= i < |p| ==> p[i] != MARKER)
    && (forall i :: 0 <= i < |p| - 1 ==> p[i] !in IGNORED)
  }

  // Nothing that the walk visits is a link or a special file.
  predicate Clean(es: Entries)
    decreases es
  {
    es.Entry? ==> Clean(es.rest) && CleanNode(es.name, es.node)
  }

  predicate CleanNode(name: Name, node: Node)
    decreases node
  {
    name == MARKER || node.File? || (node.Dir? && (name in IGNORED || Clean(node.entries)))
  }

  predicate Plain(es: Entries) {
    es.Entry? ==> Plain(es.rest) && (es.node.File? || (es.node.Dir? && Plain(es.node.entries)))
  }

  function Listing(prefix: Path, es: Entries): (files: seq<SourceFile>)
    decreases es
  {
    if es.Nothing? then [] else Below(prefix, es.name, es.node) + Listing(prefix, es.rest)
  }

  function Below(prefix: Path, name: Name, node: Node): (files: seq<SourceFile>)
    decreases node
  {
    if name == MARKER then []
    else match node
      case File(c) => [SourceFile(prefix + [name], c)]
      case Dir(es) => if name in IGNORED then [] else Listing(prefix + [name], es)
      case _ => []
  }

  function Total(files: seq<SourceFile>): (n: nat) {
    if files == [] then 0 else Total(files[..|files| - 1]) + |files[|files| - 1].content|
  }

  predicate Within(files: seq<SourceFile>) {
    |files| <= FILE_LIMIT && Total(files) <= BYTE_LIMIT
  }

  lemma {:induction false} TotalSplits(a: seq<SourceFile>, b: seq<SourceFile>)
    ensures Total(a + b) == Total(a) + Total(b)
  {
    if b == [] {
      assert a + b == a;
    } else {
      assert (a + b)[..|a + b| - 1] == a + b[..|b| - 1];
      TotalSplits(a, b[..|b| - 1]);
    }
  }

  lemma WithinPrefix(a: seq<SourceFile>, b: seq<SourceFile>)
    requires Within(a + b)
    ensures Within(a)
  {
    TotalSplits(a, b);
  }

  // ---- The walk ----

  class SourceWalk {
    var files: seq<SourceFile>
    var sourceBytes: nat

    ghost predicate Valid() reads this {
      sourceBytes == Total(files) && Within(files)
    }

    constructor ()
      ensures Valid() && files == []
    {
      files, sourceBytes := [], 0;
    }

    // The walk succeeds exactly when everything visited is a file or a directory and both limits hold.
    method Walk(prefix: Path, directory: Entries) returns (ok: bool)
      requires Valid()
      modifies this
      ensures ok <==> Clean(directory) && Within(old(files) + Listing(prefix, directory))
      ensures ok ==> Valid() && files == old(files) + Listing(prefix, directory)
      decreases directory, 1
    {
      hide Within, Total, CleanNode, Below;
      var es := directory;
      ghost var done: seq<SourceFile> := [];
      assert old(files) + [] == old(files);
      while es.Entry?
        invariant Valid() && files == old(files) + done
        invariant done + Listing(prefix, es) == Listing(prefix, directory)
        invariant Clean(directory) <==> Clean(es)
        invariant es == directory || es < directory
        decreases es
      {
        ghost var here, later := Below(prefix, es.name, es.node), Listing(prefix, es.rest);
        WithinSplits(old(files), done, here, later);
        ok := Visit(prefix, es.name, es.node);
        if !ok { return; }
        done := done + here;
        es := es.rest;
      }
      assert done + [] == done;
      ok := true;
    }

    method Visit(prefix: Path, name: Name, node: Node) returns (ok: bool)
      requires Valid()
      modifies this
      ensures ok <==> CleanNode(name, node) && Within(old(files) + Below(prefix, name, node))
      ensures ok ==> Valid() && files == old(files) + Below(prefix, name, node)
      decreases node, 0
    {
      hide Within, Total, Clean, Listing;
      assert files + [] == files;
      if name == MARKER { return true; }
      match node
      case Link => return false;
      case Special => return false;
      case Dir(inner) =>
        if name in IGNORED { return true; }
        ok := Walk(prefix + [name], inner);
      case File(content) =>
        WithinOneMore(files, SourceFile(prefix + [name], content));
        if |files| >= FILE_LIMIT { return false; }
        if sourceBytes + |content| > BYTE_LIMIT { return false; }
        sourceBytes := sourceBytes + |content|;
        files := files + [SourceFile(prefix + [name], content)];
        ok := true;
    }
  }

  lemma WithinSplits(start: seq<SourceFile>, done: seq<SourceFile>, here: seq<SourceFile>, later: seq<SourceFile>)
    ensures Within(start + (done + (here + later))) ==> Within(start + done + here)
    ensures start + (done + here) == start + done + here && done + here + later == done + (here + later)
  {
    assert start + (done + (here + later)) == (start + done + here) + later;
    if Within(start + (done + (here + later))) { WithinPrefix(start + done + here, later); }
  }

  lemma WithinOneMore(files: seq<SourceFile>, f: SourceFile)
    ensures Total(files + [f]) == Total(files) + |f.content|
    ensures Within(files) ==>
              (Within(files + [f]) <==> |files| < FILE_LIMIT && Total(files) + |f.content| <= BYTE_LIMIT)
  {
    assert (files + [f])[..|files|] == files;
  }

  // ---- What is listed ----

  // `f` is a kept file below `prefix`.
  ghost predicate Listed(prefix: Path, es: Entries, f: SourceFile) {
    && prefix <= f.path
    && Kept(f.path[|prefix|..]) && Has(es, f.path[|prefix|..], f.content)
  }

  ghost predicate ListedNode(prefix: Path, name: Name, node: Node, f: SourceFile) {
    && prefix + [name] <= f.path && name != MARKER
    && (|| (node == File(f.content) && |f.path| == |prefix| + 1)
        || (node.Dir? && name !in IGNORED && |f.path| > |prefix| + 1 && Listed(prefix + [name], node.entries, f)))
  }

  lemma KeptBelow(name: Name, p: Path)
    requires p != []
    ensures Kept([name] + p) <==> name != MARKER && name !in IGNORED && Kept(p)
    ensures Kept([name]) <==> name != MARKER
  {
    var q := [name] + p;
    assert q[0] == name && q[1..] == p;
    assert forall i :: 0 <= i < |p| ==> p[i] == q[i + 1];
  }

  lemma {:induction false} ListingLists(prefix: Path, es: Entries, f: SourceFile)
    ensures f in Listing(prefix, es) <==> Listed(prefix, es, f)
    decreases es, 1
  {
    if es.Entry? {
      BelowLists(prefix, es.name, es.node, f);
      ListingLists(prefix, es.rest, f);
      ListedSplits(prefix, es, f);
    }
  }

  lemma {:induction false} BelowLists(prefix: Path, name: Name, node: Node, f: SourceFile)
    ensures f in Below(prefix, name, node) <==> ListedNode(prefix, name, node, f)
    decreases node, 0
  {
    if node.Dir? {
      ListingLists(prefix + [name], node.entries, f);
      if Listed(prefix + [name], node.entries, f) { assert f.path[|prefix + [name]|..] != []; }
    } else if node.File? && prefix + [name] <= f.path && |f.path| == |prefix| + 1 {
      assert f.path == prefix + [name];
    }
  }

  lemma ListedSplits(prefix: Path, es: Entries, f: SourceFile)
    requires es.Entry?
    ensures Listed(prefix, es, f) <==> ListedNode(prefix, es.name, es.node, f) || Listed(prefix, es.rest, f)
  {
    var n := |prefix|;
    if prefix <= f.path && |f.path| > n {
      var p := f.path[n..];
      assert p[1..] == f.path[n + 1..] && p == [p[0]] + p[1..];
      assert prefix + [p[0]] == f.path[..n + 1];
      if |p| > 1 { KeptBelow(p[0], p[1..]); } else { assert p == [p[0]]; KeptBelow(p[0], [p[0]]); }
      assert prefix + [es.name] <= f.path <==> es.name == p[0];
      if |p| == 1 { assert f.path[n + 1..] == []; }
    }
  }

  // ---- Names in one directory differ ----

  predicate NotAmong(name: Name, es: Entries) {
    es.Entry? ==> es.name != name && NotAmong(name, es.rest)
  }

  predicate Distinct(es: Entries) {
    es.Entry? ==> NotAmong(es.name, es.rest) && Distinct(es.rest) && (es.node.Dir? ==> Distinct(es.node.entries))
  }

  lemma {:induction false} NamesDiffer(name: Name, es: Entries, p: Path, c: seq<Byte>)
    requires NotAmong(name, es) && Has(es, p, c)
    ensures p[0] != name
  {
    if es.name != p[0] { NamesDiffer(name, es.rest, p, c); }
  }

  // No path in the list leads to or through another.
  ghost predicate Separate(list: seq<SourceFile>) {
    forall i, j :: 0 <= i < |list| && 0 <= j < |list| && i != j ==> !(list[i].path <= list[j].path)
  }

  lemma SiblingsAreSeparate(prefix: Path, es: Entries, f: SourceFile, g: SourceFile)
    requires es.Entry? && NotAmong(es.name, es.rest)
    requires f in Below(prefix, es.name, es.node) && g in Listing(prefix, es.rest)
    ensures !(f.path <= g.path) && !(g.path <= f.path)
  {
    BelowLists(prefix, es.name, es.node, f);
    ListingLists(prefix, es.rest, g);
    var n := |prefix|;
    NamesDiffer(es.name, es.rest, g.path[n..], g.content);
    assert f.path[n] == (prefix + [es.name])[n] == es.name;
    assert g.path[n] == g.path[n..][0];
  }

  lemma JoinedIsSeparate(a: seq<SourceFile>, b: seq<SourceFile>)
    requires Separate(a) && Separate(b)
    requires forall f, g :: f in a && g in b ==> !(f.path <= g.path) && !(g.path <= f.path)
    ensures Separate(a + b)
  {
    var s := a + b;
    forall i, j | 0 <= i < |s| && 0 <= j < |s| && i != j ensures !(s[i].path <= s[j].path) {
      if i < |a| <= j { assert s[i] in a && s[j] in b; }
      if j < |a| <= i { assert s[j] in a && s[i] in b; }
    }
  }

  lemma {:induction false} ListingIsSeparate(prefix: Path, es: Entries)
    requires Distinct(es)
    ensures Separate(Listing(prefix, es))
    decreases es
  {
    if es.Entry? {
      ListingIsSeparate(prefix, es.rest);
      if es.node.Dir? { ListingIsSeparate(prefix + [es.name], es.node.entries); }
      var here, later := Below(prefix, es.name, es.node), Listing(prefix, es.rest);
      forall f, g | f in here && g in later ensures !(f.path <= g.path) && !(g.path <= f.path) {
        SiblingsAreSeparate(prefix, es, f, g);
      }
      JoinedIsSeparate(here, later);
    }
  }

  // ---- Writing the files out ----

  function AsMap(files: seq<SourceFile>): (m: map<Path, seq<Byte>>) {
    if files == [] then map[]
    else AsMap(files[..|files| - 1])[files[|files| - 1].path := files[|files| - 1].content]
  }

  // A file can be created at `p`: no file is there, on the way to it or below it, and no directory is there.
  predicate Free(files: map<Path, seq<Byte>>, folders: set<Path>, p: Path) {
    && (forall q :: q in files ==> !(q <= p) && !(p <= q))
    && (forall q :: q in folders ==> !(p <= q))
  }

  class Volume {
    var files: map<Path, seq<Byte>>
    const folders: set<Path>             // directories that were there from the start, empty ones included

    constructor (files: map<Path, seq<Byte>>, folders: set<Path>)
      ensures this.files == files && this.folders == folders
    {
      this.files, this.folders := files, folders;
    }

    // Creating a file never replaces one.
    method WriteNew(p: Path, content: seq<Byte>) returns (ok: bool)
      modifies this
      ensures ok <==> Free(old(files), folders, p)
      ensures files == if ok then old(files)[p := content] else old(files)
    {
      ok := Free(files, folders, p);
      if ok { files := files[p := content]; }
    }

    // Every file in turn, until one cannot be created.
    method CopyFiles(list: seq<SourceFile>) returns (ok: bool)
      requires Separate(list)
      modifies this
      ensures ok <==> forall i :: 0 <= i < |list| ==> Free(old(files), folders, list[i].path)
      ensures ok ==> files == old(files) + AsMap(list)
      ensures !ok ==> StoppedAt(old(files), folders, list, files)
    {
      hide Free, Separate;
      var i := 0;
      while i < |list|
        invariant 0 <= i <= |list|
        invariant files == old(files) + AsMap(list[..i])
        invariant forall j :: 0 <= j < i ==> Free(old(files), folders, list[j].path)
      {
        assert list[..i + 1][..i] == list[..i];
        FreeOfTheRest(old(files), folders, list, i);
        ok := WriteNew(list[i].path, list[i].content);
        if !ok {
          assert CopiedUpTo(old(files), list, i, files) && i < |list|;
          return;
        }
        i := i + 1;
      }
      assert list[..i] == list;
      ok := true;
    }
  }

  predicate CopiedUpTo(before: map<Path, seq<Byte>>, list: seq<SourceFile>, n: nat, after: map<Path, seq<Byte>>) {
    n <= |list| && after == before + AsMap(list[..n])
  }

  // The files before the first that cannot be created are written, and nothing else.
  ghost predicate StoppedAt(
    before: map<Path, seq<Byte>>, folders: set<Path>, list: seq<SourceFile>, after: map<Path, seq<Byte>>)
  {
    exists n: nat :: CopiedUpTo(before, list, n, after) && n < |list| && !Free(before, folders, list[n].path)
                     && forall j :: 0 <= j < n ==> Free(before, folders, list[j].path)
  }

  lemma {:induction false} AsMapKeys(list: seq<SourceFile>, q: Path)
    ensures q in AsMap(list) ==> exists j :: 0 <= j < |list| && list[j].path == q
  {
    if list != [] && q in AsMap(list) && q != list[|list| - 1].path {
      var init := list[..|list| - 1];
      AsMapKeys(init, q);
      var j :| 0 <= j < |init| && init[j].path == q;
      assert list[j].path == q;
    }
  }

  lemma FreeOfTheRest(files: map<Path, seq<Byte>>, folders: set<Path>, list: seq<SourceFile>, i: nat)
    requires Separate(list) && i < |list|
    ensures Free(files + AsMap(list[..i]), folders, list[i].path) <==> Free(files, folders, list[i].path)
  {
    var done := AsMap(list[..i]);
    forall q | q in done ensures !(q <= list[i].path) && !(list[i].path <= q) {
      AsMapKeys(list[..i], q);
      var j :| 0 <= j < i && list[..i][j].path == q;
      assert list[j].path == q;
    }
    if Free(files + done, folders, list[i].path) {
      forall q | q in files ensures !(q <= list[i].path) && !(list[i].path <= q) {
        assert q in files + done;
      }
    }
  }

  lemma {:induction false} AsMapHolds(list: seq<SourceFile>, f: SourceFile)
    requires Separate(list)
    ensures f in list <==> f.path in AsMap(list) && AsMap(list)[f.path] == f.content
  {
    if list != [] {
      var n := |list| - 1;
      var init := list[..n];
      assert list == init + [list[n]];
      assert Separate(init) by {
        forall i, j | 0 <= i < n && 0 <= j < n && i != j ensures !(init[i].path <= init[j].path) {
          assert init[i] == list[i] && init[j] == list[j];
        }
      }
      AsMapHolds(init, f);
      if f in init {
        var i :| 0 <= i < n && init[i] == f;
        assert list[i] == f;
        assert f.path != list[n].path;
      }
    }
  }

  // ---- The digest of a listing ----

  function Joined(p: Path): (b: seq<Byte>) {
    if p == [] then [] else if |p| == 1 then p[0] else p[0] + [47] + Joined(p[1..])
  }

  function Items(files: seq<SourceFile>): (items: seq<Digests.Item>)
    ensures |items| == |files|
  {
    seq(|files|, i requires 0 <= i < |files| => Digests.Item(Joined(files[i].path), files[i].content))
  }

  function Preimage(files: seq<SourceFile>): (b: seq<Byte>) {
    Digests.Encoded(Items(files))
  }

  method SourceDigest(files: seq<SourceFile>) returns (preimage: seq<Byte>, sourceBytes: nat)
    ensures preimage == Preimage(files) && sourceBytes == Total(files)
  {
    preimage, sourceBytes := [], 0;
    var i := 0;
    while i < |files|
      invariant 0 <= i <= |files|
      invariant preimage == Preimage(files[..i]) && sourceBytes == Total(files[..i])
    {
      var content := files[i].content;
      sourceBytes := sourceBytes + |content|;
      PreimageGrows(files[..i], files[i]);
      assert files[..i + 1] == files[..i] + [files[i]] && files[..i + 1][..i] == files[..i];
      preimage := preimage + (Joined(files[i].path) + [0] + Digests.Decimal(|content|) + [0]);
      preimage := preimage + content;
      i := i + 1;
    }
    assert files[..i] == files;
  }

  lemma PreimageGrows(files: seq<SourceFile>, f: SourceFile)
    ensures Preimage(files + [f]) ==
              Preimage(files) + (Joined(f.path) + [0] + Digests.Decimal(|f.content|) + [0]) + f.content
  {
    var item := Digests.Item(Joined(f.path), f.content);
    assert Items(files + [f]) == Items(files) + [item];
    Digests.EncodedAppends(Items(files), [item]);
    Digests.OneEncoded(item);
  }

  // ---- Creating and restoring ----

  datatype Marker<D> = Marker(version: nat, digest: D, fileCount: nat, sourceBytes: nat)

  // What `createAppSourceSnapshot` answers; `None` is a refusal.
  method CreateSnapshot<D(==)>(
    source: Entries, existing: Option<Marker<D>>, expected: Option<D>, hash: seq<Byte> -> D, staging: Volume)
    returns (r: Option<Marker<D>>)
    requires Distinct(source) && staging.files == map[] && staging.folders == {}
    modifies staging
    ensures existing.Some? ==>
              && staging.files == map[]
              && r == (if existing.value.version == 1 && (expected.None? || expected.value == existing.value.digest)
                       then existing else None)
    ensures existing.None? ==>
              (r.Some? <==>
                && Clean(source) && Within(Listing([], source))
                && (expected.None? || expected.value == hash(Preimage(Listing([], source)))))
    ensures existing.None? && r.Some? ==>
              && staging.files == AsMap(Listing([], source))
              && r.value == Marker(1, hash(Preimage(Listing([], source))), |Listing([], source)|,
                  Total(Listing([], source)))
  {
    hide Distinct, Clean, Within, Listing, Preimage, AsMap, Separate, Free, Total;
    if existing.Some? {
      var same := existing.value.version == 1 && (expected.None? || existing.value.digest == expected.value);
      return if same then existing else None;
    }
    var walk := new SourceWalk();
    var ok := walk.Walk([], source);
    assert [] + Listing([], source) == Listing([], source);
    if !ok { return None; }
    var preimage, sourceBytes := SourceDigest(walk.files);
    if expected.Some? && expected.value != hash(preimage) { return None; }
    ListingIsSeparate([], source);
    NothingInTheWay(walk.files);
    ok := staging.CopyFiles(walk.files);
    assert map[] + AsMap(walk.files) == AsMap(walk.files);
    return Some(Marker(1, hash(preimage), |walk.files|, sourceBytes));
  }

  lemma NothingInTheWay(files: seq<SourceFile>)
    ensures forall i :: 0 <= i < |files| ==> Free(map[], {}, files[i].path)
  {}

  // Nothing is in the workspace, or only what is called `.gitkeep`; an empty directory counts.
  predicate OnlyGitkeep(files: map<Path, seq<Byte>>, folders: set<Path>) {
    && (forall p :: p in files ==> p != [] && p[0] == GITKEEP)
    && (forall p :: p in folders ==> p != [] && p[0] == GITKEEP)
  }

  // What a restore asks of the copy, its marker and the workspace.
  predicate Restorable<D(==)>(
    copy: Entries, marker: Marker<D>, expected: Option<D>, hash: seq<Byte> -> D,
    workspace: map<Path, seq<Byte>>, folders: set<Path>)
  {
    var files := Listing([], copy);
    && marker.version == 1 && (expected.None? || expected.value == marker.digest)
    && OnlyGitkeep(workspace, folders)
    && Clean(copy) && Within(files)
    && hash(Preimage(files)) == marker.digest
    && (forall i :: 0 <= i < |files| ==> Free(workspace, folders, files[i].path))
  }

  method RestoreSnapshot<D(==)>(
    copy: Entries, marker: Marker<D>, expected: Option<D>, hash: seq<Byte> -> D, workspace: Volume)
    returns (ok: bool)
    requires Distinct(copy)
    modifies workspace
    ensures ok <==> Restorable(copy, marker, expected, hash, old(workspace.files), workspace.folders)
    ensures ok ==> workspace.files == old(workspace.files) + AsMap(Listing([], copy))
    ensures !ok && workspace.files != old(workspace.files) ==>
              StoppedAt(old(workspace.files), workspace.folders, Listing([], copy), workspace.files)
  {
    hide Distinct, Clean, Within, Listing, Preimage, AsMap, Separate, Free, Total, OnlyGitkeep;
    if marker.version != 1 || (expected.Some? && expected.value != marker.digest) { return false; }
    if !OnlyGitkeep(workspace.files, workspace.folders) { return false; }
    var walk := new SourceWalk();
    ok := walk.Walk([], copy);
    assert [] + Listing([], copy) == Listing([], copy);
    if !ok { return; }
    var preimage, _ := SourceDigest(walk.files);
    if hash(preimage) != marker.digest { return false; }
    ListingIsSeparate([], copy);
    ok := workspace.CopyFiles(walk.files);
  }

  // The tree that holds exactly these files.
  ghost predicate Represents(es: Entries, files: map<Path, seq<Byte>>) {
    && Plain(es)
    && (forall p, c :: Has(es, p, c) <==> p in files && files[p] == c)
  }

  lemma {:induction false} PlainIsClean(es: Entries)
    requires Plain(es)
    ensures Clean(es)
  {
    if es.Entry? {
      PlainIsClean(es.rest);
      if es.node.Dir? { PlainIsClean(es.node.entries); }
    }
  }

  lemma ListedAtTheRoot(es: Entries, f: SourceFile)
    ensures f in Listing([], es) <==> Kept(f.path) && Has(es, f.path, f.content)
  {
    ListingLists([], es, f);
    assert f.path[0..] == f.path;
  }

  // Exactly the files of the tree that are worth keeping.
  ghost predicate KeepsExactly(files: map<Path, seq<Byte>>, source: Entries) {
    forall p, c :: Keeps(source, p, c) <==> p in files && files[p] == c
  }

  ghost predicate Keeps(source: Entries, p: Path, c: seq<Byte>) {
    Kept(p) && Has(source, p, c)
  }

  lemma ListingKeepsExactly(source: Entries)
    requires Distinct(source)
    ensures KeepsExactly(AsMap(Listing([], source)), source)
  {
    var files := Listing([], source);
    ListingIsSeparate([], source);
    var m := AsMap(files);
    forall p, c ensures Keeps(source, p, c) <==> p in m && m[p] == c {
      var f := SourceFile(p, c);
      ListedAtTheRoot(source, f);
      AsMapHolds(files, f);
    }
  }
}
