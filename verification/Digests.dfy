/**
 * The bytes fed to the source hash and the artifact hash: names, lengths and contents framed by
 * NUL bytes. A decoder that reads them back shows that different inputs give different bytes.
 * Names are UTF-8 bytes.
 */
module Digests {
  import opened Options
  import opened Bytes

  datatype Item = Item(name: seq<Byte>, content: seq<Byte>)

  const SOURCE_BYTE_LIMIT: nat := 64 * 1024 * 1024
  const MODULE: seq<Byte> := [109, 111, 100, 117, 108, 101]
  const ASSET: seq<Byte> := [97, 115, 115, 101, 116]

  // ---- Decimal lengths ----

  function Decimal(n: nat): (s: seq<Byte>)
    ensures s != []
  {
    if n < 10 then [(48 + n) as Byte] else Decimal(n / 10) + [(48 + n % 10) as Byte]
  }

  function Value(s: seq<Byte>): (n: int) {
    if s == [] then 0 else Value(s[..|s| - 1]) * 10 + (s[|s| - 1] as int - 48)
  }

  lemma {:induction false} DecimalReadsBack(n: nat)
    ensures Value(Decimal(n)) == n && NulFree(Decimal(n))
  {
    if n < 10 {
      assert Decimal(n)[..0] == [];
    } else {
      DecimalReadsBack(n / 10);
      assert Decimal(n)[..|Decimal(n)| - 1] == Decimal(n / 10);
    }
  }

  // ---- Framing ----

  predicate NulFree(s: seq<Byte>) {
    forall i :: 0 <= i < |s| ==> s[i] != 0
  }

  function Framed(f: Item): (s: seq<Byte>) {
    f.name + [0] + Decimal(|f.content|) + [0] + f.content
  }

  function Encoded(files: seq<Item>): (s: seq<Byte>) {
    if files == [] then [] else Framed(files[0]) + Encoded(files[1..])
  }

  // The position of the first NUL.
  function Nul(s: seq<Byte>): (i: nat)
    ensures i <= |s| && NulFree(s[..i]) && (i < |s| ==> s[i] == 0)
  {
    if s == [] || s[0] == 0 then 0
    else
      var i := Nul(s[1..]);
      assert s[..i + 1] == [s[0]] + s[1..][..i];
      i + 1
  }

  // One framed item and what follows it.
  function Unframed(s: seq<Byte>): (r: Option<(Item, seq<Byte>)>)
    ensures r.Some? ==> |r.value.1| < |s|
  {
    var i := Nul(s);
    if i == |s| then None
    else
      var rest := s[i + 1..];
      var j := Nul(rest);
      if j == |rest| then None
      else
        var n := Value(rest[..j]);
        var body := rest[j + 1..];
        if 0 <= n <= |body| then Some((Item(s[..i], body[..n]), body[n..])) else None
  }

  function Decoded(s: seq<Byte>): (r: Option<seq<Item>>)
    decreases |s|
  {
    if s == [] then Some([])
    else
      var one := Unframed(s);
      if one.None? then None
      else
        var more := Decoded(one.value.1);
        if more.None? then None else Some([one.value.0] + more.value)
  }

  predicate NamesNulFree(files: seq<Item>) {
    forall i :: 0 <= i < |files| ==> NulFree(files[i].name)
  }

  lemma {:induction false} NulAfter(a: seq<Byte>, rest: seq<Byte>)
    requires NulFree(a)
    ensures Nul(a + [0] + rest) == |a|
    ensures (a + [0] + rest)[..|a|] == a && (a + [0] + rest)[|a| + 1..] == rest
  {
    var s := a + [0] + rest;
    if a != [] {
      NulAfter(a[1..], rest);
      assert s[1..] == a[1..] + [0] + rest;
      assert s[0] == a[0];
    }
  }

  lemma FrameReadsBack(f: Item, rest: seq<Byte>)
    requires NulFree(f.name)
    ensures Unframed(Framed(f) + rest) == Some((f, rest))
  {
    var len := Decimal(|f.content|);
    var tail := f.content + rest;
    var s := Framed(f) + rest;
    assert s == f.name + [0] + (len + [0] + tail);
    NulAfter(f.name, len + [0] + tail);
    DecimalReadsBack(|f.content|);
    NulAfter(len, tail);
    assert tail[..|f.content|] == f.content && tail[|f.content|..] == rest;
  }

  lemma {:induction false} StreamReadsBack(files: seq<Item>)
    requires NamesNulFree(files)
    ensures Decoded(Encoded(files)) == Some(files)
  {
    if files != [] {
      FrameReadsBack(files[0], Encoded(files[1..]));
      StreamReadsBack(files[1..]);
      hide Framed, Unframed;
      assert Encoded(files) != [] by { assert Unframed(Encoded(files)).Some?; }
      assert files == [files[0]] + files[1..];
    }
  }

  // Two file lists with the same hash input are the same list.
  lemma SourceStreamIsInjective(a: seq<Item>, b: seq<Item>)
    requires NamesNulFree(a) && NamesNulFree(b) && Encoded(a) == Encoded(b)
    ensures a == b
  {
    StreamReadsBack(a);
    StreamReadsBack(b);
  }

  lemma {:induction false} EncodedAppends(a: seq<Item>, b: seq<Item>)
    ensures Encoded(a + b) == Encoded(a) + Encoded(b)
  {
    if a == [] {
      assert a + b == b;
    } else {
      assert (a + b)[1..] == a[1..] + b;
      EncodedAppends(a[1..], b);
    }
  }

  lemma NothingEncoded()
    ensures Encoded([]) == []
  {}

  lemma OneEncoded(f: Item)
    ensures Encoded([f]) == Framed(f)
  {
    assert Encoded([f]) == Framed(f) + Encoded([]);
  }

  function Total(files: seq<Item>): (n: nat) {
    if files == [] then 0 else Total(files[..|files| - 1]) + |files[|files| - 1].content|
  }

  lemma {:induction false} TotalGrows(files: seq<Item>, i: nat)
    requires i <= |files|
    ensures Total(files[..i]) <= Total(files)
  {
    if i < |files| {
      TotalGrows(files[..|files| - 1], i);
      assert files[..|files| - 1][..i] == files[..i];
    } else {
      assert files[..i] == files;
    }
  }

  // The loop of `inspectAppSource`: the size of a file is seen before and after it is read.
  method SourcePreimage(files: seq<Item>, sizes: seq<nat>) returns (r: Option<seq<Byte>>, bytes: nat)
    requires |sizes| == |files|
    ensures r.Some? ==> r.value == Encoded(files) && bytes == Total(files) <= SOURCE_BYTE_LIMIT
    ensures Total(files) > SOURCE_BYTE_LIMIT ==> r.None?
    ensures (forall i :: 0 <= i < |files| ==> sizes[i] == |files[i].content|) ==>
              (r.Some? <==> Total(files) <= SOURCE_BYTE_LIMIT)
  {
    hide Encoded;
    var digest: seq<Byte> := [];
    bytes := 0;
    NothingEncoded();
    var i := 0;
    while i < |files|
      invariant 0 <= i <= |files|
      invariant digest == Encoded(files[..i]) && bytes == Total(files[..i]) <= SOURCE_BYTE_LIMIT
    {
      assert files[..i + 1] == files[..i] + [files[i]];
      assert files[..i + 1][..i] == files[..i];
      TotalGrows(files, i + 1);
      if bytes + sizes[i] > SOURCE_BYTE_LIMIT { return None, bytes; }
      var content := files[i].content;
      if bytes + |content| > SOURCE_BYTE_LIMIT { return None, bytes; }
      bytes := bytes + |content|;
      EncodedAppends(files[..i], [files[i]]);
      OneEncoded(files[i]);
      digest := digest + (files[i].name + [0] + Decimal(|content|) + [0]);
      digest := digest + content;
      i := i + 1;
    }
    assert files[..i] == files;
    r := Some(digest);
  }

  // ---- The artifact: a JSON header, then modules, then assets ----

  function Tagged(tag: seq<Byte>, files: seq<Item>): (s: seq<Byte>) {
    if files == [] then [] else tag + [0] + Framed(files[0]) + Tagged(tag, files[1..])
  }

  function Artifact(header: seq<Byte>, modules: seq<Item>, assets: seq<Item>): (s: seq<Byte>) {
    header + Tagged(MODULE, modules) + Tagged(ASSET, assets)
  }

  // Tagged entries after the header.
  function Entries(s: seq<Byte>): (r: Option<(seq<Item>, seq<Item>)>)
    decreases |s|
  {
    if s == [] then Some(([], []))
    else
      var i := Nul(s);
      var tag := s[..i];
      if i == |s| || (tag != MODULE && tag != ASSET) then None
      else
        var one := Unframed(s[i + 1..]);
        if one.None? then None
        else
          var more := Entries(one.value.1);
          if more.None? then None
          else if tag == MODULE then Some(([one.value.0] + more.value.0, more.value.1))
          else if more.value.0 != [] then None
          else Some(([], [one.value.0] + more.value.1))
  }

  // Where the header ends: at the tag before the first NUL, or at the end if there is no NUL.
  function HeaderLength(s: seq<Byte>): (n: int) {
    var i := Nul(s);
    if i == |s| then i
    else if i > 0 && s[i - 1] == 101 then i - |MODULE|
    else i - |ASSET|
  }

  lemma TagsNulFree()
    ensures NulFree(MODULE) && NulFree(ASSET)
  {}

  // Decoding one tagged entry, when the rest is already decoded.
  lemma EntryDecodes(tag: seq<Byte>, f: Item, rest: seq<Byte>, modules: seq<Item>, assets: seq<Item>)
    requires NulFree(f.name) && Entries(rest) == Some((modules, assets))
    requires tag == MODULE || (tag == ASSET && modules == [])
    ensures Entries(tag + [0] + (Framed(f) + rest)) ==
            Some(if tag == MODULE then ([f] + modules, assets) else ([], [f] + assets))
  {
    TagsNulFree();
    EntryReadsBack(tag, f, rest);
    hide Framed, Unframed, Nul;
    assert MODULE != ASSET by { assert |MODULE| != |ASSET|; }
    assert (tag + [0] + (Framed(f) + rest))[|tag|] == 0;
  }

  lemma {:induction false} EntriesReadBack(modules: seq<Item>, assets: seq<Item>)
    requires NamesNulFree(modules) && NamesNulFree(assets)
    ensures Entries(Tagged(MODULE, modules) + Tagged(ASSET, assets)) == Some((modules, assets))
    decreases |modules| + |assets|
  {
    hide Framed, Entries;
    if modules != [] {
      var rest := Tagged(MODULE, modules[1..]) + Tagged(ASSET, assets);
      EntriesReadBack(modules[1..], assets);
      EntryDecodes(MODULE, modules[0], rest, modules[1..], assets);
      assert Tagged(MODULE, modules) + Tagged(ASSET, assets) == MODULE + [0] + (Framed(modules[0]) + rest);
      assert modules == [modules[0]] + modules[1..];
    } else {
      AssetsReadBack(assets);
      assert Tagged(MODULE, []) + Tagged(ASSET, assets) == Tagged(ASSET, assets);
    }
  }

  lemma {:induction false} AssetsReadBack(assets: seq<Item>)
    requires NamesNulFree(assets)
    ensures Entries(Tagged(ASSET, assets)) == Some(([], assets))
  {
    if assets != [] {
      hide Framed, Entries;
      var rest := Tagged(ASSET, assets[1..]);
      AssetsReadBack(assets[1..]);
      EntryDecodes(ASSET, assets[0], rest, [], assets[1..]);
      assert Tagged(ASSET, assets) == ASSET + [0] + (Framed(assets[0]) + rest);
      assert assets == [assets[0]] + assets[1..];
      assert MODULE != ASSET by { assert |MODULE| != |ASSET|; }
    }
  }

  lemma EntryReadsBack(tag: seq<Byte>, f: Item, rest: seq<Byte>)
    requires NulFree(tag) && NulFree(f.name)
    ensures var s := tag + [0] + (Framed(f) + rest);
            Nul(s) == |tag| && s[..|tag|] == tag && Unframed(s[|tag| + 1..]) == Some((f, rest))
  {
    NulAfter(tag, Framed(f) + rest);
    FrameReadsBack(f, rest);
  }

  lemma HeaderEndsAtTag(header: seq<Byte>, tag: seq<Byte>, rest: seq<Byte>)
    requires NulFree(header) && (tag == MODULE || tag == ASSET)
    ensures HeaderLength(header + tag + [0] + rest) == |header|
  {
    TagsNulFree();
    var s := header + tag + [0] + rest;
    NulAfter(header + tag, rest);
    assert s[|header + tag| - 1] == tag[|tag| - 1];
  }

  lemma HeaderReadsBack(header: seq<Byte>, modules: seq<Item>, assets: seq<Item>)
    requires NulFree(header)
    ensures HeaderLength(Artifact(header, modules, assets)) == |header|
  {
    hide Framed;
    var s := Artifact(header, modules, assets);
    if modules != [] {
      var rest := Framed(modules[0]) + Tagged(MODULE, modules[1..]) + Tagged(ASSET, assets);
      assert s == header + MODULE + [0] + rest;
      HeaderEndsAtTag(header, MODULE, rest);
    } else if assets != [] {
      var rest := Framed(assets[0]) + Tagged(ASSET, assets[1..]);
      assert s == header + ASSET + [0] + rest;
      HeaderEndsAtTag(header, ASSET, rest);
    } else {
      assert s == header;
      assert Nul(header) == |header|;
    }
  }

  // Header, modules and assets can all be read back from the hash input.
  lemma ArtifactStreamIsInjective(h: seq<Byte>, m: seq<Item>, a: seq<Item>, h2: seq<Byte>, m2: seq<Item>, a2: seq<Item>)
    requires NulFree(h) && NulFree(h2)
    requires NamesNulFree(m) && NamesNulFree(a) && NamesNulFree(m2) && NamesNulFree(a2)
    requires Artifact(h, m, a) == Artifact(h2, m2, a2)
    ensures h == h2 && m == m2 && a == a2
  {
    hide Tagged, Entries, HeaderLength, NulFree, NamesNulFree;
    HeaderReadsBack(h, m, a);
    HeaderReadsBack(h2, m2, a2);
    assert Artifact(h, m, a)[..|h|] == h && Artifact(h2, m2, a2)[..|h2|] == h2;
    assert Artifact(h, m, a)[|h|..] == Tagged(MODULE, m) + Tagged(ASSET, a);
    assert Artifact(h2, m2, a2)[|h2|..] == Tagged(MODULE, m2) + Tagged(ASSET, a2);
    EntriesReadBack(m, a);
    EntriesReadBack(m2, a2);
  }

  lemma {:induction false} TaggedAppends(tag: seq<Byte>, a: seq<Item>, f: Item)
    ensures Tagged(tag, a + [f]) == Tagged(tag, a) + (tag + [0] + Framed(f))
  {
    if a == [] {
      assert Tagged(tag, [f]) == tag + [0] + Framed(f) + Tagged(tag, []);
      assert a + [f] == [f];
    } else {
      assert (a + [f])[1..] == a[1..] + [f];
      TaggedAppends(tag, a[1..], f);
    }
  }

  method ArtifactPreimage(header: seq<Byte>, modules: seq<Item>, assets: seq<Item>) returns (hash: seq<Byte>)
    ensures hash == Artifact(header, modules, assets)
  {
    hash := header;
    hash := Feed(hash, MODULE, modules);
    hash := Feed(hash, ASSET, assets);
  }

  lemma NothingTagged(tag: seq<Byte>)
    ensures Tagged(tag, []) == []
  {}

  lemma FedInTwo(s: seq<Byte>, tag: seq<Byte>, f: Item)
    ensures s + (tag + [0] + f.name + [0] + Decimal(|f.content|) + [0]) + f.content == s + (tag + [0] + Framed(f))
  {}

  method Feed(start: seq<Byte>, tag: seq<Byte>, files: seq<Item>) returns (hash: seq<Byte>)
    ensures hash == start + Tagged(tag, files)
  {
    hide Tagged, Framed, Decimal;
    hash := start;
    var i := 0;
    NothingTagged(tag);
    while i < |files|
      invariant 0 <= i <= |files| && hash == start + Tagged(tag, files[..i])
    {
      assert files[..i + 1] == files[..i] + [files[i]];
      TaggedAppends(tag, files[..i], files[i]);
      ghost var before := hash;
      hash := hash + (tag + [0] + files[i].name + [0] + Decimal(|files[i].content|) + [0]);
      hash := hash + files[i].content;
      FedInTwo(before, tag, files[i]);
      i := i + 1;
    }
    assert files[..i] == files;
  }
}
