/**
 * The commit of a prepared write: back up a legacy file once, write and sync a temporary file, and
 * rename it over the destination; and the store that reads, prepares and commits.
 */
module AtomicStore {
  import opened Options
  import opened Bytes
  import opened Disks

  // ---- What every state of a commit satisfies ----

  // After a stop in this state the destination holds the old bytes or the new ones, and the disk
  // holds no more than the reservation on top of what it held at the start.
  ghost predicate Safe(start: Files, s: Files, next: seq<Byte>, reserve: nat) {
    && (forall c :: Survives(s, Dest, c) ==> c == Found(start, Dest) || c == Some(next))
    && Use(s) <= Use(start) + reserve
  }

  // The bytes that were at the destination can still be read there or from the backup.
  ghost predicate Recoverable(start: Files, s: Files) {
    forall c, b :: Survives(s, Dest, c) && Survives(s, Backup, b) ==>
      c == Found(start, Dest) || b == Found(start, Dest)
  }

  predicate DestSynced(files: Files) {
    Dest in files ==> files[Dest].synced
  }

  // A backup that is already there is the whole destination and has reached the disk.
  predicate BackupWhole(files: Files) {
    Backup in files ==> Dest in files && files[Backup] == files[Dest]
  }

  // What the backup step can add: nothing, or a copy that is complete only once it is synced.
  ghost predicate BackedUp(start: Files, s: Files) {
    || s == start
    || (Dest in start && Backup !in start && CopyOf(start, s))
  }

  ghost predicate CopyOf(start: Files, s: Files)
    requires Dest in start
  {
    exists n, synced ::
      0 <= n <= |start[Dest].bytes|
      && (synced ==> n == |start[Dest].bytes|)
      && s == start[Backup := File(start[Dest].bytes[..n], synced)]
  }

  ghost predicate BackupReady(start: Files, s: Files) {
    || (s == start && (Backup in start || Dest !in start))
    || (Dest in start && Backup !in start && s == start[Backup := File(start[Dest].bytes, true)])
  }

  function BackupCost(start: Files): (n: nat) {
    if Dest in start && Backup !in start then |start[Dest].bytes| else 0
  }

  // What the temporary file can hold until it is renamed.
  ghost predicate Staged(base: Files, s: Files, tmp: nat, next: seq<Byte>) {
    || s == base
    || s == base - {Temp(tmp)}
    || (exists n, synced :: 0 <= n <= |next| && s == base[Temp(tmp) := File(next[..n], synced)])
  }

  lemma BackupIsCheap(start: Files, s: Files)
    requires BackedUp(start, s)
    ensures Use(s) <= Use(start) + BackupCost(start)
    ensures Found(s, Dest) == Found(start, Dest) && (DestSynced(start) ==> DestSynced(s))
  {
    if s != start {
      var n, synced :|
        0 <= n <= |start[Dest].bytes|
        && (synced ==> n == |start[Dest].bytes|)
        && s == start[Backup := File(start[Dest].bytes[..n], synced)];
      UsePut(start, Backup, s[Backup]);
    }
  }

  lemma BackingUpIsSafe(start: Files, s: Files, next: seq<Byte>)
    requires BackedUp(start, s) && DestSynced(start)
    ensures Safe(start, s, next, |next| + BackupCost(start))
    ensures Recoverable(start, s)
  {
    BackupIsCheap(start, s);
  }

  lemma StagingIsCheap(base: Files, s: Files, tmp: nat, next: seq<Byte>)
    requires Staged(base, s, tmp, next)
    ensures Use(s) <= Use(base) + |next|
    ensures Found(s, Dest) == Found(base, Dest) && Found(s, Backup) == Found(base, Backup)
  {
    UsePut(base, Temp(tmp), File([], false));
    if s != base && s != base - {Temp(tmp)} {
      var n, synced :| 0 <= n <= |next| && s == base[Temp(tmp) := File(next[..n], synced)];
      UsePut(base, Temp(tmp), s[Temp(tmp)]);
    }
  }

  lemma StagingIsSafe(start: Files, base: Files, s: Files, tmp: nat, next: seq<Byte>, reserve: nat)
    requires DestSynced(start) && (base == start || BackedUp(start, base))
    requires Staged(base, s, tmp, next)
    requires reserve >= |next| + (if base == start then 0 else BackupCost(start))
    ensures Safe(start, s, next, reserve) && Recoverable(start, s)
  {
    BackupIsCheap(start, base);
    StagingIsCheap(base, s, tmp, next);
  }

  // Once renamed, the new bytes are in place; the old ones are in the backup if there is a whole one.
  lemma RenamedIsSafe(start: Files, base: Files, s: Files, tmp: nat, next: seq<Byte>, reserve: nat)
    requires base == start || BackupReady(start, base)
    requires s == base[Temp(tmp) := File(next, true)][Dest := File(next, true)] - {Temp(tmp)}
    requires reserve >= |next| + (if base == start then 0 else BackupCost(start))
    ensures Safe(start, s, next, reserve)
    ensures Backup in base && Found(base, Backup) == Found(start, Dest) && base[Backup].synced ==> Recoverable(start, s)
  {
    BackupIsCheap(start, base) by { if base != start { BackupReadyIsBackedUp(start, base); } }
    UsePut(base, Dest, File(next, true));
    UsePut(base[Dest := File(next, true)], Temp(tmp), File(next, true));
    assert s == base[Dest := File(next, true)] - {Temp(tmp)};
  }

  // A backup torn by an earlier stop is never repaired: the next commit drops the only whole copy.
  lemma TornBackupLosesTheFile(start: Files, s: Files, next: seq<Byte>)
    requires Dest in start && Backup in start && DestSynced(start) && !BackupWhole(start)
    requires Dest in s && s[Dest] == File(next, true) && next != start[Dest].bytes
    requires Backup in s && s[Backup] == start[Backup]
    ensures !Recoverable(start, s)
  {
    var bytes := start[Dest].bytes;
    var b := if start[Backup].bytes == bytes then bytes + [0] else start[Backup].bytes;
    assert Survives(s, Dest, Some(next)) && Survives(s, Backup, Some(b));
  }

  lemma BackupReadyIsBackedUp(start: Files, s: Files)
    requires BackupReady(start, s)
    ensures BackedUp(start, s)
  {
    if s != start {
      assert start[Dest].bytes[..|start[Dest].bytes|] == start[Dest].bytes;
    }
  }

  // ---- Reading and writing values ----

  datatype Envelope<T> = Envelope(schemaVersion: nat, revision: nat, updatedAt: nat, data: T)
  datatype Parsed<U> = Corrupt | Enveloped(revision: nat, data: U) | Bare(data: U)
  datatype Reading<T> = Reading(value: T, revision: Option<nat>, legacy: bool)

  // What a store is configured with. `U` is unchecked JSON, `None` from `normalize` is a throw.
  datatype Codec<!T(!new), !U(!new)> = Codec(
    parse: seq<Byte> -> Parsed<U>, serialize: Envelope<T> -> seq<Byte>,
    normalize: U -> Option<T>, embed: T -> U, defaultValue: Option<T>,
    schemaVersion: nat, quarantineCorrupt: bool, backupLegacy: bool)
  {
    function Default(): (r: Option<Reading<T>>) {
      if defaultValue.Some? then Some(Reading(defaultValue.value, None, false)) else None
    }

    predicate Readable(bytes: seq<Byte>) {
      !parse(bytes).Corrupt? && normalize(parse(bytes).data).Some?
    }

    // What the destination says, for every content it can have.
    function Meaning(dest: Option<seq<Byte>>): (r: Option<Reading<T>>) {
      if dest.None? || !Readable(dest.value) then Default()
      else
        var p := parse(dest.value);
        Some(Reading(normalize(p.data).value, if p.Bare? then None else Some(p.revision), p.Bare?))
    }

    // A normalized value comes back unchanged from its own serialized form.
    ghost predicate Storable(v: T) {
      && normalize(embed(v)) == Some(v)
      && (forall rev, t :: parse(serialize(Envelope(schemaVersion, rev, t, v))) == Enveloped(rev, embed(v)))
    }

    ghost predicate Faithful() {
      forall u :: normalize(u).Some? ==> Storable(normalize(u).value)
    }
  }

  lemma WrittenIsRead<T(!new), U(!new)>(c: Codec<T, U>, e: Envelope<T>)
    requires c.Storable(e.data) && e.schemaVersion == c.schemaVersion
    ensures c.Meaning(Some(c.serialize(e))) == Some(Reading(e.data, Some(e.revision), false))
  {}

  ghost predicate SafeSince(start: Files, trace: seq<Files>, since: nat, next: seq<Byte>, reserve: nat) {
    forall i :: since <= i < |trace| ==> Safe(start, trace[i], next, reserve)
  }

  ghost predicate RecoverableSince(start: Files, trace: seq<Files>, since: nat) {
    forall i :: since <= i < |trace| ==> Recoverable(start, trace[i])
  }

  // The disk once a commit is done: a first backup if one is due, the new file in place, no temporary file.
  function Committed(start: Files, backup: bool, tmp: nat, next: seq<Byte>): (files: Files)
    ensures Found(files, Dest) == Some(next)
    ensures backup && Dest in start && Backup !in start ==> Found(files, Backup) == Some(start[Dest].bytes)
    ensures !backup || Dest !in start || Backup in start ==> Found(files, Backup) == Found(start, Backup)
    ensures Temp(tmp) !in files
    ensures forall p :: p != Dest && p != Backup && p != Temp(tmp) ==> Found(files, p) == Found(start, p)
  {
    var base := if backup && Dest in start && Backup !in start
                then start[Backup := File(start[Dest].bytes, true)] else start;
    base[Dest := File(next, true)] - {Temp(tmp)}
  }

  /** `prepareWrite` fixes the bytes; `commit` may be called once. */
  class PreparedWrite<T(!new)> {
    const disk: Disk
    const serialized: seq<Byte>
    const shouldBackup: bool
    const legacyBackupBytes: nat
    const envelope: Envelope<T>
    var committed: bool

    constructor (disk: Disk, serialized: seq<Byte>, shouldBackup: bool, legacyBackupBytes: nat, envelope: Envelope<T>)
      ensures this.disk == disk && this.serialized == serialized && this.shouldBackup == shouldBackup
      ensures this.legacyBackupBytes == legacyBackupBytes && this.envelope == envelope && !committed
    {
      this.disk, this.serialized, this.shouldBackup := disk, serialized, shouldBackup;
      this.legacyBackupBytes, this.envelope, committed := legacyBackupBytes, envelope, false;
    }

    function ReservationBytes(): (n: nat) {
      |serialized| + legacyBackupBytes
    }

    // No other write came between the preparation and the commit.
    ghost predicate Current() reads disk {
      DestSynced(disk.files) && legacyBackupBytes == (if shouldBackup then BackupCost(disk.files) else 0)
    }

    method BackupLegacyFile() returns (ok: bool)
      requires DestSynced(disk.files)
      modifies disk
      ensures old(disk.trace) <= disk.trace
      ensures forall i :: |old(disk.trace)| <= i < |disk.trace| ==> BackedUp(old(disk.files), disk.trace[i])
      ensures BackedUp(old(disk.files), disk.files)
      ensures ok ==> BackupReady(old(disk.files), disk.files)
    {
      if Dest !in disk.files || Backup in disk.files { return true; }
      ghost var start := disk.files;
      ghost var bytes := start[Dest].bytes;
      ok := disk.Write(Backup, disk.files[Dest].bytes);
      forall s | Partial(start, s, Backup, bytes) ensures BackedUp(start, s) {
        var n :| 0 <= n <= |bytes| && s == start[Backup := File(bytes[..n], false)];
      }
      if !ok {
        var _ := disk.Remove(Backup);
        assert start[Backup := File([], false)] - {Backup} == start && start - {Backup} == start;
        return;
      }
      ok := disk.Sync(Backup);
      assert bytes[..|bytes|] == bytes;
      assert ok ==> disk.files == start[Backup := File(bytes, true)];
    }

    method WriteEnvelope(tmp: nat) returns (ok: bool)
      modifies disk
      ensures old(disk.trace) <= disk.trace
      ensures forall i :: |old(disk.trace)| <= i < |disk.trace| - (if ok then 1 else 0) ==>
                Staged(old(disk.files), disk.trace[i], tmp, serialized)
      ensures !ok ==> Staged(old(disk.files), disk.files, tmp, serialized)
      ensures ok ==>
                && |old(disk.trace)| < |disk.trace| && disk.trace[|disk.trace| - 1] == disk.files
                && disk.files == old(disk.files)[Temp(tmp) := File(serialized, true)]
                                 [Dest := File(serialized, true)] - {Temp(tmp)}
    {
      ghost var base := disk.files;
      if Temp(tmp) in disk.files {
        var _ := disk.Remove(Temp(tmp));
        return false;
      }
      ok := disk.Write(Temp(tmp), serialized);
      forall s | Partial(base, s, Temp(tmp), serialized) ensures Staged(base, s, tmp, serialized) {
        var n :| 0 <= n <= |serialized| && s == base[Temp(tmp) := File(serialized[..n], false)];
      }
      assert serialized[..|serialized|] == serialized;
      if ok {
        ok := disk.Sync(Temp(tmp));
        if ok {
          assert disk.files == base[Temp(tmp) := File(serialized, true)];
          ok := disk.Rename(Temp(tmp), Dest);
          if ok { return; }
        }
      }
      var _ := disk.Remove(Temp(tmp));
    }

    // Whatever happens, each state on the way is safe; a failed commit leaves the destination alone.
    method Commit(tmp: nat) returns (ok: bool)
      requires Current()
      modifies this, disk
      ensures committed && old(disk.trace) <= disk.trace
      ensures old(committed) ==> !ok && disk.files == old(disk.files)
      ensures SafeSince(old(disk.files), disk.trace, |old(disk.trace)|, serialized, ReservationBytes())
      ensures shouldBackup && BackupWhole(old(disk.files)) ==>
                RecoverableSince(old(disk.files), disk.trace, |old(disk.trace)|)
      ensures !ok ==> Found(disk.files, Dest) == Found(old(disk.files), Dest)
      ensures ok ==> disk.files == Committed(old(disk.files), shouldBackup, tmp, serialized)
      ensures ok && shouldBackup && Dest in old(disk.files) && serialized != old(disk.files)[Dest].bytes ==>
                (Recoverable(old(disk.files), disk.files) <==> BackupWhole(old(disk.files)))
      ensures DestSynced(disk.files)
    {
      if committed { return false; }
      committed := true;
      ghost var start, t0 := disk.files, |disk.trace|;
      if shouldBackup {
        ok := BackupLegacyFile();
        forall s | BackedUp(start, s) ensures Safe(start, s, serialized, ReservationBytes()) && Recoverable(start, s) {
          BackingUpIsSafe(start, s, serialized);
        }
        BackupIsCheap(start, disk.files);
        if !ok { return; }
      }
      ghost var base, t1 := disk.files, |disk.trace|;
      ok := WriteEnvelope(tmp);
      if base != start { BackupReadyIsBackedUp(start, base); }
      forall s | Staged(base, s, tmp, serialized)
        ensures Safe(start, s, serialized, ReservationBytes()) && Recoverable(start, s)
      {
        StagingIsSafe(start, base, s, tmp, serialized, ReservationBytes());
      }
      if ok {
        assert disk.files == Committed(start, shouldBackup, tmp, serialized);
        RenamedIsSafe(start, base, disk.files, tmp, serialized, ReservationBytes());
        if shouldBackup && Dest in start && serialized != start[Dest].bytes && !BackupWhole(start) {
          TornBackupLosesTheFile(start, disk.files, serialized);
        }
      } else {
        StagingIsCheap(base, disk.files, tmp, serialized);
      }
    }
  }

  datatype Outcome<T> = Done(envelope: Envelope<T>) | Conflict(expected: nat, actual: nat) | Invalid | Missing | IoError

  /** The store over one destination file. */
  class AtomicJsonStore<T(!new), U(!new)> {
    const disk: Disk
    const codec: Codec<T, U>

    constructor (disk: Disk, codec: Codec<T, U>)
      ensures this.disk == disk && this.codec == codec
    {
      this.disk, this.codec := disk, codec;
    }

    ghost function Holds(): (r: Option<Reading<T>>) reads disk {
      codec.Meaning(Found(disk.files, Dest))
    }

    // The file is JSON that the normalizer accepts.
    predicate IsValue(bytes: seq<Byte>) {
      match codec.parse(bytes)
      case Corrupt => false
      case Enveloped(_, data) => codec.normalize(data).Some?
      case Bare(data) => codec.normalize(data).Some?
    }

    // An envelope gives its data and revision, bare JSON is a legacy value without one, anything else the default.
    ghost predicate Reads(dest: Option<seq<Byte>>, r: Option<Reading<T>>) {
      if dest.Some? && IsValue(dest.value) then
        match codec.parse(dest.value)
        case Enveloped(revision, data) => r == Some(Reading(codec.normalize(data).value, Some(revision), false))
        case Bare(data) => r == Some(Reading(codec.normalize(data).value, None, true))
      else if codec.defaultValue.Some? then r == Some(Reading(codec.defaultValue.value, None, false))
      else r == None
    }

    // The file is a legacy value, and the caller wants those kept.
    ghost predicate BackupDue(files: Files, backup: bool) {
      backup && Dest in files && IsValue(files[Dest].bytes) && codec.parse(files[Dest].bytes).Bare?
    }

    // A file that cannot be read is moved aside, if that works; what the store holds is the same.
    method Read(stamp: nat) returns (r: Option<Reading<T>>)
      modifies disk
      ensures r == old(Holds()) && Holds() == r
      ensures Reads(Found(old(disk.files), Dest), r)
      ensures disk.files != old(disk.files) ==>
                && Dest in old(disk.files) && !IsValue(old(disk.files)[Dest].bytes) && codec.quarantineCorrupt
                && disk.files == old(disk.files)[Quarantine(stamp) := old(disk.files)[Dest]] - {Dest}
      ensures old(disk.trace) <= disk.trace
      ensures |disk.trace| > |old(disk.trace)| <==>
                Dest in old(disk.files) && !IsValue(old(disk.files)[Dest].bytes) && codec.quarantineCorrupt
      ensures DestSynced(old(disk.files)) ==> AtomicSince(codec, disk.trace, |old(disk.trace)|, r, r)
      ensures Use(disk.files) <= Use(old(disk.files))
      ensures DestSynced(old(disk.files)) ==> DestSynced(disk.files)
      ensures r.Some? && (r.value.legacy || r.value.revision.Some?) ==>
                disk.files == old(disk.files) && Dest in disk.files
    {
      if Dest !in disk.files { return codec.Default(); }
      var bytes := disk.files[Dest].bytes;
      if codec.Readable(bytes) { return codec.Meaning(Some(bytes)); }
      if codec.quarantineCorrupt {
        ghost var before := disk.files;
        var _ := disk.Rename(Dest, Quarantine(stamp));
        if disk.files != before { MovedIsNotMore(before, Dest, Quarantine(stamp)); }
      }
      return codec.Default();
    }

    method PrepareWrite(value: T, expected: Option<nat>, backup: bool, stamp: nat, clock: nat)
      returns (outcome: Outcome<T>, w: PreparedWrite?<T>)
      requires DestSynced(disk.files)
      modifies disk
      ensures Holds() == old(Holds()) && Use(disk.files) <= Use(old(disk.files)) && DestSynced(disk.files)
      ensures old(disk.trace) <= disk.trace
      ensures AtomicSince(codec, disk.trace, |old(disk.trace)|, Holds(), Holds())
      ensures outcome.Conflict? <==> expected.Some? && expected.value != Revision(Holds())
      ensures w != null <==> outcome.Done?
      ensures outcome.Conflict? || outcome.Done? || outcome.Invalid?
      ensures w != null ==>
                && fresh(w) && w.disk == disk && w.Current() && !w.committed
                && codec.normalize(codec.embed(value)) == Some(w.envelope.data)
                && w.envelope == Envelope(codec.schemaVersion, Revision(Holds()) + 1, clock, w.envelope.data)
                && w.serialized == codec.serialize(w.envelope) && outcome == Done(w.envelope)
                && (w.shouldBackup <==> BackupDue(old(disk.files), backup))
                && w.ReservationBytes() == |w.serialized|
                     + (if w.shouldBackup && Backup !in old(disk.files) then |old(disk.files)[Dest].bytes| else 0)
      ensures BackupDue(old(disk.files), backup) ==> disk.files == old(disk.files)
    {
      var current := Read(stamp);
      var actual := Revision(current);
      if expected.Some? && expected.value != actual { return Conflict(expected.value, actual), null; }
      var shouldBackup := current.Some? && current.value.legacy && backup;
      var legacyBytes := if shouldBackup && Backup !in disk.files then |disk.files[Dest].bytes| else 0;
      var data := codec.normalize(codec.embed(value));
      if data.None? { return Invalid, null; }
      var envelope := Envelope(codec.schemaVersion, actual + 1, clock, data.value);
      w := new PreparedWrite(disk, codec.serialize(envelope), shouldBackup, legacyBytes, envelope);
      return Done(envelope), w;
    }

    method Write(value: T, expected: Option<nat>, backup: bool, stamp: nat, clock: nat, tmp: nat)
      returns (outcome: Outcome<T>)
      requires DestSynced(disk.files) && codec.Faithful()
      modifies disk
      ensures DestSynced(disk.files) && !outcome.Missing?
      ensures outcome.Conflict? <==> expected.Some? && expected.value != Revision(old(Holds()))
      ensures outcome.Done? ==>
                && Holds() == Replaced(codec, old(Holds()), value)
                && Holds() == Some(Reading(outcome.envelope.data, Some(outcome.envelope.revision), false))
                && outcome.envelope.revision == Revision(old(Holds())) + 1
      ensures outcome.Done? && BackupDue(old(disk.files), backup) ==>
                disk.files == Committed(old(disk.files), true, tmp, codec.serialize(outcome.envelope))
      ensures !outcome.Done? ==> Holds() == old(Holds())
      ensures old(disk.trace) <= disk.trace
      ensures AtomicSince(codec, disk.trace, |old(disk.trace)|, old(Holds()), Replaced(codec, old(Holds()), value))
    {
      var w;
      outcome, w := PrepareWrite(value, expected, backup, stamp, clock);
      if w == null { return; }
      ghost var start, mid := disk.files, |disk.trace|;
      WrittenIsRead(codec, w.envelope);
      var ok := w.Commit(tmp);
      SafeIsAtomic(codec, start, disk.trace, |old(disk.trace)|, mid, w.serialized, w.ReservationBytes(),
                   old(Holds()), Replaced(codec, old(Holds()), value));
      if !ok { outcome := IoError; }
    }

    // An update that nothing overlaps never meets a revision conflict.
    method Update(mutator: T -> T, stamp: nat, clock: nat, tmp: nat) returns (outcome: Outcome<T>)
      requires DestSynced(disk.files) && codec.Faithful()
      modifies disk
      ensures DestSynced(disk.files) && !outcome.Conflict?
      ensures outcome.Missing? <==> old(Holds()).None?
      ensures outcome.Done? ==>
                && Holds() == Next(codec, old(Holds()), mutator)
                && outcome.envelope.revision == Revision(Holds()) == Revision(old(Holds())) + 1
      ensures outcome.Done? && BackupDue(old(disk.files), codec.backupLegacy) ==>
                disk.files == Committed(old(disk.files), true, tmp, codec.serialize(outcome.envelope))
      ensures !outcome.Done? ==> Holds() == old(Holds())
      ensures old(disk.trace) <= disk.trace
      ensures AtomicSince(codec, disk.trace, |old(disk.trace)|, old(Holds()), Next(codec, old(Holds()), mutator))
    {
      var current := Read(stamp);
      if current.None? { return Missing; }
      ghost var mid := disk.trace;
      outcome := Write(mutator(current.value.value), Some(Revision(current)), codec.backupLegacy, stamp, clock, tmp);
      AtomicJoins(codec, mid, disk.trace, |old(disk.trace)|, old(Holds()), Next(codec, old(Holds()), mutator));
    }

    // One update after another, some of which may fail.
    method UpdateAll(mutators: seq<T -> T>, tmp: nat) returns (done: seq<bool>)
      requires DestSynced(disk.files) && codec.Faithful()
      modifies disk
      ensures |done| == |mutators|
      ensures Holds() == Folded(codec, old(Holds()), mutators, done)
      ensures Revision(Holds()) == Revision(old(Holds())) + Count(done)
    {
      done := [];
      while |done| < |mutators|
        invariant |done| <= |mutators| && DestSynced(disk.files)
        invariant Holds() == Folded(codec, old(Holds()), mutators[..|done|], done)
        invariant Revision(Holds()) == Revision(old(Holds())) + Count(done)
      {
        var outcome := Update(mutators[|done|], 0, 0, tmp);
        ghost var was := done;
        done := done + [outcome.Done?];
        assert mutators[..|done|][..|was|] == mutators[..|was|] && done[..|was|] == was;
      }
      assert mutators[..|done|] == mutators;
    }
  }

  // Every stop since then leaves a file that means `a` or means `b`.
  ghost predicate AtomicSince<T(!new), U(!new)>(
    c: Codec<T, U>, trace: seq<Files>, since: nat, a: Option<Reading<T>>, b: Option<Reading<T>>)
  {
    forall i, bytes :: since <= i < |trace| && Survives(trace[i], Dest, bytes) ==>
      c.Meaning(bytes) == a || c.Meaning(bytes) == b
  }

  lemma AtomicJoins<T(!new), U(!new)>(
    c: Codec<T, U>, early: seq<Files>, trace: seq<Files>, since: nat, a: Option<Reading<T>>, b: Option<Reading<T>>)
    requires early <= trace && AtomicSince(c, early, since, a, a) && AtomicSince(c, trace, |early|, a, b)
    ensures AtomicSince(c, trace, since, a, b)
  {
    forall i, bytes | since <= i < |trace| && Survives(trace[i], Dest, bytes)
      ensures c.Meaning(bytes) == a || c.Meaning(bytes) == b
    {
      if i < |early| { assert trace[i] == early[i]; }
    }
  }

  lemma SafeIsAtomic<T(!new), U(!new)>(
    c: Codec<T, U>, start: Files, trace: seq<Files>, since: nat, mid: nat, next: seq<Byte>, reserve: nat,
    a: Option<Reading<T>>, b: Option<Reading<T>>)
    requires mid <= |trace| && AtomicSince(c, trace[..mid], since, a, b)
    requires SafeSince(start, trace, mid, next, reserve)
    requires c.Meaning(Found(start, Dest)) == a && c.Meaning(Some(next)) == b
    ensures AtomicSince(c, trace, since, a, b)
  {
    forall i, bytes | since <= i < |trace| && Survives(trace[i], Dest, bytes)
      ensures c.Meaning(bytes) == a || c.Meaning(bytes) == b
    {
      if i < mid { assert trace[i] == trace[..mid][i]; } else { assert Safe(start, trace[i], next, reserve); }
    }
  }

  function Revision<T>(r: Option<Reading<T>>): (n: nat) {
    if r.Some? && r.value.revision.Some? then r.value.revision.value else 0
  }

  // What one update makes of what the store holds, when its result is acceptable.
  function Next<T(!new), U(!new)>(c: Codec<T, U>, r: Option<Reading<T>>, m: T -> T): (s: Option<Reading<T>>) {
    if r.None? then None
    else Replaced(c, r, m(r.value.value))
  }

  // What the store holds once `value` is written over `r`; a value that is refused changes nothing.
  function Replaced<T(!new), U(!new)>(c: Codec<T, U>, r: Option<Reading<T>>, value: T): (s: Option<Reading<T>>) {
    var data := c.normalize(c.embed(value));
    if data.None? then r else Some(Reading(data.value, Some(Revision(r) + 1), false))
  }

  // The fold of the mutators whose update went through.
  function Folded<T(!new), U(!new)>(
    c: Codec<T, U>, r: Option<Reading<T>>, ms: seq<T -> T>, done: seq<bool>): (s: Option<Reading<T>>)
    requires |ms| == |done|
  {
    if ms == [] then r
    else
      var n := |ms| - 1;
      var before := Folded(c, r, ms[..n], done[..n]);
      if done[n] then Next(c, before, ms[n]) else before
  }

  function Count(done: seq<bool>): (n: nat) {
    if done == [] then 0 else Count(done[..|done| - 1]) + (if done[|done| - 1] then 1 else 0)
  }

  lemma MovedIsNotMore(files: Files, p: Path, q: Path)
    requires p in files && p != q
    ensures Use(files[q := files[p]] - {p}) <= Use(files)
  {
    UsePut(files, q, files[p]);
    UsePut(files, p, files[p]);
    UsePut(files[q := files[p]], p, files[p]);
    UsePut(files - {p}, q, files[p]);
    assert files[q := files[p]] - {p} == (files - {p})[q := files[p]];
    assert files - {p} - {q} == files - {q} - {p};
  }
}
