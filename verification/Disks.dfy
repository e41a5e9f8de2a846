/**
 * Crash-safe JSON persistence. A commit is a sequence of file system operations, each of which may
 * fail, and the machine may stop between any two of them. The disk keeps a ghost trace of every
 * state it passed through; a file that was written and not synced may hold anything after a stop.
 */
module Disks {
  import opened Options
  import opened Bytes

  datatype Path = Dest | Backup | Temp(name: nat) | Quarantine(name: nat)
  datatype File = File(bytes: seq<Byte>, synced: bool)
  type Files = map<Path, File>

  // ---- Disk use ----

  ghost function Pick(files: Files): (p: Path)
    requires files != map[]
    ensures p in files
  {
    var p :| p in files; p
  }

  ghost function Use(files: Files): (n: nat) {
    if files == map[] then 0 else |files[Pick(files)].bytes| + Use(files - {Pick(files)})
  }

  lemma {:induction false} UseWithout(files: Files, p: Path)
    requires p in files
    ensures Use(files) == |files[p].bytes| + Use(files - {p})
    decreases |files|
  {
    var q := Pick(files);
    if q != p {
      UseWithout(files - {q}, p);
      UseWithout(files - {p}, q);
      assert files - {q} - {p} == files - {p} - {q};
    }
  }

  lemma UsePut(files: Files, p: Path, f: File)
    ensures Use(files[p := f]) == |f.bytes| + Use(files - {p})
    ensures Use(files) == (if p in files then |files[p].bytes| else 0) + Use(files - {p})
  {
    UseWithout(files[p := f], p);
    assert files[p := f] - {p} == files - {p};
    if p in files { UseWithout(files, p); } else { assert files - {p} == files; }
  }

  // ---- What a stop can leave behind ----

  // `c` may be found at `p` after a stop in state `files`.
  predicate Survives(files: Files, p: Path, c: Option<seq<Byte>>) {
    if p !in files then c == None
    else c.Some? && (files[p].synced ==> c.value == files[p].bytes)
  }

  function Found(files: Files, p: Path): (c: Option<seq<Byte>>) {
    if p in files then Some(files[p].bytes) else None
  }

  /** A directory. Every operation may fail, and what it did until then is in the trace. */
  class Disk {
    var files: Files
    ghost var trace: seq<Files>

    constructor (files: Files)
      ensures this.files == files && trace == [files]
    {
      this.files, trace := files, [files];
    }

    method Put(p: Path, f: File)
      modifies this
      ensures files == old(files)[p := f] && trace == old(trace) + [files]
    {
      files := files[p := f];
      trace := trace + [files];
    }

    // Data reaches the disk piece by piece, and may stop reaching it at any point.
    method Write(p: Path, content: seq<Byte>) returns (ok: bool)
      modifies this
      ensures old(trace) <= trace
      ensures forall i :: |old(trace)| <= i < |trace| ==> Partial(old(files), trace[i], p, content)
      ensures files == old(files) || Partial(old(files), files, p, content)
      ensures ok ==> files == old(files)[p := File(content, false)]
    {
      if * { return false; }
      var n := 0;
      Put(p, File(content[..0], false));
      assert Partial(old(files), files, p, content);
      while n < |content|
        invariant 0 <= n <= |content| && files == old(files)[p := File(content[..n], false)]
        invariant old(trace) <= trace && Partial(old(files), files, p, content)
        invariant forall i :: |old(trace)| <= i < |trace| ==> Partial(old(files), trace[i], p, content)
      {
        if * { return false; }
        var chunk: int := *;
        n := if chunk <= 0 || n + chunk > |content| then |content| else n + chunk;
        Put(p, File(content[..n], false));
        assert Partial(old(files), files, p, content);
      }
      assert content[..n] == content;
      ok := true;
    }

    method Sync(p: Path) returns (ok: bool)
      modifies this
      ensures trace == old(trace) + [files]
      ensures files == if ok && p in old(files) then old(files)[p := old(files)[p].(synced := true)] else old(files)
    {
      ok := *;
      if ok && p in files { files := files[p := files[p].(synced := true)]; }
      trace := trace + [files];
    }

    method Rename(p: Path, q: Path) returns (ok: bool)
      requires p in files && p != q
      modifies this
      ensures trace == old(trace) + [files]
      ensures files == if ok then old(files)[q := old(files)[p]] - {p} else old(files)
    {
      ok := *;
      if ok { files := files[q := files[p]] - {p}; }
      trace := trace + [files];
    }

    method Remove(p: Path) returns (ok: bool)
      modifies this
      ensures trace == old(trace) + [files]
      ensures files == if ok then old(files) - {p} else old(files)
    {
      ok := *;
      if ok { files := files - {p}; }
      trace := trace + [files];
    }
  }

  ghost predicate Partial(start: Files, files: Files, p: Path, content: seq<Byte>) {
    exists n :: 0 <= n <= |content| && files == start[p := File(content[..n], false)]
  }
}
