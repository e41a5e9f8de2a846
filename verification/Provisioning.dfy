/**
 * Cloud resources are created by calls that are not transactional: a create may succeed and its
 * response be lost. `prepareResources` therefore saves a receipt before every create, looks a
 * name up before creating it again, and marks what it touched for cleanup when it fails.
 * Provider calls, receipt writes and the abort signal are nondeterministic.
 */
module Provisioning {
  import opened Options

  datatype Kind = KV | D1 | R2 | DurableObject
  datatype Key = Key(kind: Kind, logical: string)
  datatype Ownership = Created | Adopted
  datatype StepStatus = Planned | InProgress | Ready | Failed | NeedsCleanup
  datatype Name = Generated(key: Key) | Given(text: string)
  datatype Resource = Resource(id: string, name: Name, jurisdiction: Option<string>)

  datatype Receipt = Receipt(
    key: Key, binding: string, ownership: Ownership, externalId: Option<string>,
    externalName: Option<Name>, jurisdiction: Option<string>, status: StepStatus)

  type StoreKind = k: Kind | k != DurableObject witness KV

  datatype Binding =
    | Store(kind: StoreKind, logical: string, binding: string, mode: Ownership,
            adoptId: Option<string>, adoptName: Option<string>, jurisdiction: Option<string>)
    | Objects(binding: string, className: string)
  {
    function Target(): (k: Key) {
      if Store? then Key(kind, logical) else Key(DurableObject, binding)
    }

    // The receipt saved before anything else happens for this binding.
    function Initial(): (r: Receipt)
      ensures r.key == Target() && r.status != NeedsCleanup
      ensures Store? ==> r.ownership == mode
      ensures r.binding == binding && (r.ownership == Created ==> r.externalName.Some?)
    {
      if Objects? then
        Receipt(Target(), binding, Created, None, Some(Given(className)), None, Planned)
      else
        var id := if adoptId.None? && kind == R2 then adoptName else adoptId;
        var name := if adoptName.Some? then Some(Given(adoptName.value))
                    else if mode == Created then Some(Generated(Target())) else None;
        Receipt(Target(), binding, mode, id, name, jurisdiction, InProgress)
    }

    // The answer of the provider must be the resource that was asked for.
    predicate Matches(r: Resource) requires Store? {
      && (mode == Adopted && adoptId.Some? && adoptId.value != "" ==> r.id == adoptId.value)
      && (mode == Adopted && adoptName.Some? && adoptName.value != "" ==> r.name == Given(adoptName.value))
      && (jurisdiction.Some? && jurisdiction.value != "" && r.jurisdiction.Some? && r.jurisdiction.value != "" ==>
            r.jurisdiction == jurisdiction)
    }

    function Finished(r: Resource): (receipt: Receipt)
      requires Store?
      ensures receipt.key == Target() && receipt.ownership == mode && receipt.status == Ready
      ensures receipt.externalName.Some?
    {
      Initial().(externalId := Some(r.id), externalName := Some(r.name), status := Ready,
                 jurisdiction := if r.jurisdiction.Some? then r.jurisdiction else jurisdiction)
    }
  }

  datatype Saving = Saved | Refused | Unavailable

  // What was made under each generated name, oldest first, and the receipts by key.
  type Account = map<Key, seq<Resource>>
  type Rows = map<Key, Receipt>

  function Made(account: Account, k: Key): (s: seq<Resource>)
  {
    if k in account then account[k] else []
  }

  predicate Owns(receipts: Rows, k: Key, o: Ownership) {
    k in receipts && receipts[k].ownership == o
  }

  // The row rule of the receipt table: an update may not change the owner.
  predicate Accepts(receipts: Rows, r: Receipt) {
    r.key in receipts ==> receipts[r.key].ownership == r.ownership
  }

  // The row says by name what has to be cleaned up.
  predicate Marked(receipts: Rows, k: Key) {
    Owns(receipts, k, Created) && receipts[k].status == NeedsCleanup && receipts[k].externalName.Some?
  }

  // Whatever was made is either found again by a retry or can no longer be created by one.
  ghost predicate Remembered(account: Account, prior: Rows, receipts: Rows) {
    forall k :: Made(account, k) != [] ==> Owns(prior + receipts, k, Created) || Owns(receipts, k, Adopted)
  }

  // Only names that had nothing behind them gained a resource, and only one.
  ghost predicate MadeOnce(before: Account, after: Account) {
    forall k :: Made(after, k) == Made(before, k) || (Made(before, k) == [] && |Made(after, k)| == 1)
  }

  // No owner changes, no row is lost, and no adopted row becomes marked.
  ghost predicate RowsKept(before: Rows, after: Rows) {
    && (forall k, o :: Owns(before, k, o) ==> Owns(after, k, o))
    && (forall k :: Owns(after, k, Adopted) && after[k].status == NeedsCleanup ==>
          k in before && before[k] == after[k])
  }

  /** The account, the receipt table and the caller's abort signal. */
  class World {
    var account: Account
    var receipts: Rows
    var aborted: bool
    ghost var lost: bool                 // some write of a receipt got no answer

    constructor ()
      ensures account == map[] && receipts == map[] && !aborted && !lost
    {
      account, receipts, aborted, lost := map[], map[], false, false;
    }

    // `throwIfAborted`: the signal can be raised at any moment and is never lowered.
    method Proceed() returns (ok: bool)
      modifies this`aborted
      ensures ok == !aborted && (old(aborted) ==> aborted)
    {
      if * { aborted := true; }
      ok := !aborted;
    }

    // A write of a receipt may be refused by the table, or be lost before or after it was stored.
    method OnReceipt(r: Receipt) returns (saved: Saving)
      modifies this`receipts, this`lost
      ensures lost <==> old(lost) || saved == Unavailable
      ensures saved == Saved ==> Accepts(old(receipts), r) && receipts == old(receipts)[r.key := r]
      ensures saved == Refused ==> !Accepts(old(receipts), r) && receipts == old(receipts)
      ensures saved == Unavailable ==>
                || receipts == old(receipts)
                || (Accepts(old(receipts), r) && receipts == old(receipts)[r.key := r])
    {
      if * { lost := true; return Unavailable; }
      if !Accepts(receipts, r) { return Refused; }
      receipts := receipts[r.key := r];
      if * { lost := true; return Unavailable; }
      return Saved;
    }

    // A lookup by generated name: `None` is a failed request.
    method Find(k: Key) returns (r: Option<Option<Resource>>)
      ensures r == Some(None) ==> Made(account, k) == []
      ensures r.Some? && r.value.Some? ==> r.value.value in Made(account, k)
    {
      if * { return None; }
      var there := Made(account, k);
      return Some(if there == [] then None else Some(there[0]));
    }

    // A create may take effect without its response arriving. Nothing may be created before a
    // receipt that owns it is stored. A bucket name that is taken is refused.
    method Create(k: Key) returns (r: Option<Resource>)
      requires Owns(receipts, k, Created)
      modifies this`account
      ensures account == old(account) || Grown(old(account), account, k)
      ensures r.Some? ==> Grown(old(account), account, k) && r.value in Made(account, k)
    {
      if * { return None; }
      if k.kind == R2 && Made(account, k) != [] { return None; }
      var made: Resource := *;
      made := made.(name := Generated(k));
      account := account[k := Made(account, k) + [made]];
      if * { return None; }
      return Some(made);
    }

    // What the provider answers about a resource it is asked for by identity is arbitrary, except
    // that a bucket under a generated name is reported only if it is there.
    method Get(b: Binding) returns (r: Option<Resource>)
      requires b.Store?
      ensures b.mode == Created && r.Some? ==> r.value in Made(account, b.Target())
    {
      if * { return None; }
      if b.mode == Created {
        var there := Made(account, b.Target());
        return if there == [] then None else Some(there[0]);
      }
      var answer: Resource := *;
      return Some(answer);
    }
  }

  // One more resource under the generated name of `k`, and nothing else.
  ghost predicate Grown(before: Account, after: Account, k: Key) {
    && (forall j :: j != k ==> Made(after, j) == Made(before, j))
    && |Made(after, k)| == |Made(before, k)| + 1
    && Made(before, k) == Made(after, k)[..|Made(before, k)|]
    && (k.kind == R2 ==> Made(before, k) == [])
  }

  // ---- What a run keeps, told on the maps alone ----

  // Everything this run made was touched, and a stored receipt owns it.
  ghost predicate Accounted(start: Account, account: Account, order: seq<Key>, receipts: Rows) {
    forall k :: Made(account, k) != Made(start, k) ==> k in order && Owns(receipts, k, Created)
  }

  // All receipts touched before position `n` are stored with this run as their owner.
  ghost predicate OwnedUpTo(order: seq<Key>, receipts: Rows, n: int) {
    forall i :: 0 <= i < |order| && i < n ==> Owns(receipts, order[i], Created)
  }

  ghost predicate SameOwners(a: Rows, b: Rows) {
    forall k, o :: Owns(a, k, o) <==> Owns(b, k, o)
  }

  ghost predicate Touches(order: seq<Key>, touched: Rows) {
    && (forall i, j :: 0 <= i < j < |order| ==> order[i] != order[j])
    && (forall k :: k in order <==> k in touched)
    && (forall k :: k in touched ==>
          touched[k].key == k && touched[k].ownership == Created && touched[k].externalName.Some?)
  }

  // A row marked by an earlier run stays marked unless this run touches it.
  ghost predicate StillMarked(start: Rows, receipts: Rows, order: seq<Key>) {
    forall k :: k !in order && Marked(start, k) ==> Marked(receipts, k)
  }

  function Enlisted(order: seq<Key>, r: Receipt): (s: seq<Key>) {
    if r.ownership == Adopted || r.key in order then order else order + [r.key]
  }

  function Noted(touched: Rows, r: Receipt): (m: Rows) {
    if r.ownership == Adopted then touched else touched[r.key := r]
  }

  lemma TouchedTogether(order: seq<Key>, touched: Rows)
    requires Touches(order, touched)
    ensures forall k :: k in order <==> k in touched
  {}

  lemma TouchingKeepsTouches(order: seq<Key>, touched: Rows, r: Receipt)
    requires Touches(order, touched)
    requires r.ownership == Created ==> r.externalName.Some?
    ensures Touches(Enlisted(order, r), Noted(touched, r))
  {}

  lemma TouchingKeepsTheRest(
    start: Account, account: Account, receipts0: Rows, receipts: Rows,
    order: seq<Key>, r: Receipt)
    requires Accounted(start, account, order, receipts) && OwnedUpTo(order, receipts, |order|)
    requires StillMarked(receipts0, receipts, order)
    ensures Accounted(start, account, Enlisted(order, r), receipts)
    ensures OwnedUpTo(Enlisted(order, r), receipts, |Enlisted(order, r)| - 1)
    ensures StillMarked(receipts0, receipts, Enlisted(order, r))
  {}

  lemma SavingKeepsTheRest(
    start: Account, account: Account, receipts0: Rows, receipts: Rows,
    order: seq<Key>, r: Receipt)
    requires Accounted(start, account, order, receipts) && OwnedUpTo(order, receipts, |order| - 1)
    requires StillMarked(receipts0, receipts, order)
    requires Accepts(receipts, r) && RowsKept(receipts0, receipts)
    requires r.ownership == Created ==> r.key in order
    ensures Accounted(start, account, order, receipts[r.key := r])
    ensures OwnedUpTo(order, receipts[r.key := r], |order| - 1)
    ensures StillMarked(receipts0, receipts[r.key := r], order)
  {
    var after := receipts[r.key := r];
    forall k, o | Owns(receipts, k, o) ensures Owns(after, k, o) {}
    forall k | k !in order && Marked(receipts0, k) ensures Marked(after, k) {
      assert Owns(receipts, k, Created);
    }
  }

  lemma SavedIsOwned(order: seq<Key>, receipts: Rows, r: Receipt)
    requires Accepts(receipts, r) && OwnedUpTo(order, receipts, |order|)
    ensures OwnedUpTo(Enlisted(order, r), receipts[r.key := r], |Enlisted(order, r)|)
  {}

  lemma SavedIsExisting(existing: Rows, prior: Rows, receipts: Rows, r: Receipt)
    requires SameOwners(existing, prior + receipts)
    ensures SameOwners(existing[r.key := r], prior + receipts[r.key := r])
  {
    var e, p := existing[r.key := r], prior + receipts[r.key := r];
    forall k, o ensures Owns(e, k, o) <==> Owns(p, k, o) {
      if k != r.key { assert Owns(existing, k, o) <==> Owns(prior + receipts, k, o); }
    }
  }

  // Writing a receipt whose owner is already stored does no harm even if the write is lost.
  lemma KnownIsHarmless(existing: Rows, prior: Rows, receipts: Rows, order: seq<Key>, r: Receipt)
    requires SameOwners(existing, prior + receipts) && OwnedUpTo(order, receipts, |order|)
    requires Owns(receipts, r.key, r.ownership)
    ensures SameOwners(existing[r.key := r], prior + receipts)
    ensures OwnedUpTo(Enlisted(order, r), receipts, |Enlisted(order, r)|)
    ensures Accepts(receipts, r)
  {
    var e, p := existing[r.key := r], prior + receipts;
    forall k, o ensures Owns(e, k, o) <==> Owns(p, k, o) {
      if k != r.key { assert Owns(existing, k, o) <==> Owns(p, k, o); }
    }
  }

  lemma CreatingIsAccounted(
    start: Account, before: Account, after: Account,
    order: seq<Key>, receipts: Rows, k: Key)
    requires Accounted(start, before, order, receipts) && Grown(before, after, k)
    requires k in order && Owns(receipts, k, Created)
    ensures Accounted(start, after, order, receipts)
  {}

  // Without a receipt to go by, nothing is behind the name yet, or the new receipt is refused.
  lemma UnknownIsUnmade(
    account: Account, existing: Rows, prior: Rows, receipts: Rows, r: Receipt)
    requires Remembered(account, prior, receipts) && SameOwners(existing, prior + receipts)
    requires r.ownership == Created && Accepts(receipts, r) && !Owns(existing, r.key, Created)
    ensures Made(account, r.key) == []
  {
    assert !Owns(prior + receipts, r.key, Created);
  }

  // ---- What a run delivers ----

  // The receipt is ready and names, by id and name, a resource that is what the binding asks for: one in the account
  // under the generated name, or the very one to adopt. A Durable Object is only planned, under its class name.
  ghost predicate Delivered(b: Binding, r: Receipt, account: Account) {
    && r.binding == b.binding
    && if b.Objects? then
         && r.key == Key(DurableObject, b.binding) && r.ownership == Created && r.status == Planned
         && r.externalId == None && r.externalName == Some(Given(b.className)) && r.jurisdiction == None
       else
         && r.key == Key(b.kind, b.logical) && r.ownership == b.mode && r.status == Ready
         && exists x :: Supplies(b, x, account) && Names(b, r, x)
  }

  ghost predicate Supplies(b: Binding, x: Resource, account: Account) requires b.Store? {
    && (b.mode == Created ==> x in Made(account, Key(b.kind, b.logical)))
    && (b.mode == Adopted && Requested(b.adoptId) ==> x.id == b.adoptId.value)
    && (b.mode == Adopted && Requested(b.adoptName) ==> x.name == Given(b.adoptName.value))
    && (Requested(b.jurisdiction) && Requested(x.jurisdiction) ==> x.jurisdiction == b.jurisdiction)
  }

  ghost predicate Names(b: Binding, r: Receipt, x: Resource) requires b.Store? {
    && r.externalId == Some(x.id) && r.externalName == Some(x.name)
    && r.jurisdiction == (if x.jurisdiction.Some? then x.jurisdiction else b.jurisdiction)
  }

  predicate Requested(text: Option<string>) {
    text.Some? && text.value != ""
  }

  ghost predicate LastOfItsKey(output: seq<Receipt>, i: nat)
    requires i < |output|
  {
    forall j :: i < j < |output| ==> output[j].key != output[i].key
  }

  // The table holds each delivered receipt, unless a later binding has the same key.
  ghost predicate AllStored(output: seq<Receipt>, receipts: Rows) {
    forall i :: 0 <= i < |output| && LastOfItsKey(output, i) ==>
      output[i].key in receipts && receipts[output[i].key] == output[i]
  }

  lemma LastBefore(output: seq<Receipt>, r: Receipt, i: nat)
    requires i < |output| && LastOfItsKey(output + [r], i)
    ensures LastOfItsKey(output, i) && output[i].key != r.key
  {
    var more := output + [r];
    assert more[|output|].key != more[i].key;
    forall j | i < j < |output| ensures output[j].key != output[i].key { assert more[j] == output[j]; }
  }

  lemma OneMoreStored(output: seq<Receipt>, r: Receipt, receipts: Rows)
    requires AllStored(output, receipts)
    ensures AllStored(output + [r], receipts[r.key := r])
  {
    var more, rows := output + [r], receipts[r.key := r];
    forall i | 0 <= i < |more| && LastOfItsKey(more, i)
      ensures more[i].key in rows && rows[more[i].key] == more[i]
    {
      if i < |output| { LastBefore(output, r, i); }
    }
  }

  ghost predicate Extends(before: Account, after: Account) {
    forall k, x :: x in Made(before, k) ==> x in Made(after, k)
  }

  ghost predicate AllDelivered(bindings: seq<Binding>, output: seq<Receipt>, account: Account) {
    && |output| == |bindings|
    && (forall i :: 0 <= i < |bindings| ==> Delivered(bindings[i], output[i], account))
  }

  // The receipt is the only row that changed.
  ghost predicate Recorded(before: Rows, after: Rows, r: Receipt) {
    after == before[r.key := r]
  }

  ghost predicate SameOwner(before: Rows, after: Rows) {
    forall k, o :: Owns(before, k, o) ==> Owns(after, k, o)
  }

  lemma OwnerStays(before: Rows, after: Rows, k: Key, o: Ownership)
    requires SameOwner(before, after) && Owns(before, k, o)
    ensures Owns(after, k, o)
  {}

  lemma SavingKeepsOwners(receipts: Rows, r: Receipt)
    ensures SameOwner(receipts, receipts) && (Accepts(receipts, r) ==> SameOwner(receipts, receipts[r.key := r]))
  {}

  lemma RecordedOwns(before: Rows, after: Rows, r: Receipt)
    requires Recorded(before, after, r)
    ensures Owns(after, r.key, r.ownership)
  {}

  lemma RecordedAgain(before: Rows, between: Rows, after: Rows, q: Receipt, r: Receipt)
    requires Recorded(before, between, q) && Recorded(between, after, r) && q.key == r.key
    ensures Recorded(before, after, r)
  {}

  lemma FinishedIsDelivered(b: Binding, x: Resource, account: Account)
    requires b.Store? && b.Matches(x) && (b.mode == Created ==> x in Made(account, b.Target()))
    ensures Delivered(b, b.Finished(x), account)
  {
    assert Supplies(b, x, account) && Names(b, b.Finished(x), x);
  }

  lemma StillDelivered(b: Binding, r: Receipt, before: Account, after: Account)
    requires Delivered(b, r, before) && Extends(before, after)
    ensures Delivered(b, r, after)
  {
    if b.Store? {
      var x :| Supplies(b, x, before) && Names(b, r, x);
      assert Supplies(b, x, after);
    }
  }

  lemma NothingToDeliver(account: Account, receipts: Rows)
    ensures AllDelivered([], [], account) && AllStored([], receipts)
  {}

  lemma PlannedIsDelivered(b: Binding, account: Account)
    requires b.Objects?
    ensures Delivered(b, b.Initial(), account) && Extends(account, account)
  {}

  lemma OneMoreDelivered(
    done: seq<Binding>, b: Binding, output: seq<Receipt>, r: Receipt, before: Account, after: Account)
    requires AllDelivered(done, output, before) && Extends(before, after) && Delivered(b, r, after)
    ensures AllDelivered(done + [b], output + [r], after)
  {
    forall i | 0 <= i < |done| ensures Delivered(done[i], output[i], after) {
      StillDelivered(done[i], output[i], before, after);
    }
  }

  // ---- What a failed run leaves ----

  // The row of a binding that was asked for and not delivered: what was asked for, and that it failed.
  ghost predicate SaysFailed(b: Binding, r: Receipt) requires b.Store? {
    && r.key == Key(b.kind, b.logical) && r.binding == b.binding && r.ownership == b.mode && r.status == Failed
    && r.jurisdiction == b.jurisdiction
    && r.externalId == (if b.kind == R2 && b.adoptId.None? then b.adoptName else b.adoptId)
    && (b.adoptName.Some? ==> r.externalName == Some(Given(b.adoptName.value)))
    && (b.adoptName.None? && b.mode == Created ==> r.externalName == Some(Generated(r.key)))
    && (b.adoptName.None? && b.mode == Adopted ==> r.externalName == None)
  }

  // A run that heard the end of every write leaves the row of the binding it stopped at as failed, or
  // leaves it alone because another owner has it.
  ghost predicate FailureRecorded(b: Binding, before: Rows, after: Rows) requires b.Store? {
    var k := Key(b.kind, b.logical);
    if k in before && before[k].ownership != b.mode then after == before
    else exists r :: SaysFailed(b, r) && Recorded(before, after, r)
  }

  // No row this run wrote is still in progress.
  ghost predicate AllSettled(before: Rows, after: Rows) {
    forall k :: k in after ==> (k in before && after[k] == before[k]) || after[k].status != InProgress
  }

  lemma NothingInProgress(rows: Rows)
    ensures AllSettled(rows, rows)
  {}

  lemma SavingSettles(before: Rows, after: Rows, r: Receipt)
    requires AllSettled(before, after) && r.status != InProgress
    ensures AllSettled(before, after[r.key := r])
  {}

  lemma SettledOnceMore(a: Rows, b: Rows, c: Rows)
    requires AllSettled(a, b) && AllSettled(b, c)
    ensures AllSettled(a, c)
  {}

  lemma FailingSettles(before: Rows, between: Rows, after: Rows, b: Binding)
    requires b.Store? && AllSettled(before, between) && FailureRecorded(b, between, after)
    ensures AllSettled(before, after)
  {
    if after != between {
      var r :| SaysFailed(b, r) && Recorded(between, after, r);
      SavingSettles(before, between, r);
    }
  }

  lemma FailureIsRecorded(b: Binding, before: Rows, between: Rows, after: Rows)
    requires b.Store? && Accepts(before, b.Initial())
    requires Recorded(before, between, b.Initial())
    requires Recorded(between, after, b.Initial().(status := Failed))
    ensures FailureRecorded(b, before, after)
  {
    var r := b.Initial().(status := Failed);
    RecordedAgain(before, between, after, b.Initial(), r);
    assert SaysFailed(b, r);
  }

  lemma RefusalIsRecorded(b: Binding, rows: Rows)
    requires b.Store? && !Accepts(rows, b.Initial())
    ensures FailureRecorded(b, rows, rows)
  {}

  lemma OwnedIsAccepted(rows: Rows, r: Receipt)
    requires Owns(rows, r.key, r.ownership)
    ensures Accepts(rows, r)
  {}

  lemma DeliveredIsSettled(b: Binding, r: Receipt, account: Account)
    requires Delivered(b, r, account)
    ensures r.status != InProgress
  {}

  // Every resource in the account is marked for cleanup.
  ghost predicate AllMarked(account: Account, receipts: Rows) {
    forall k :: Made(account, k) != [] ==> Marked(receipts, k)
  }

  // Everything this run made is marked for cleanup.
  ghost predicate MadeMarked(start: Account, account: Account, receipts: Rows) {
    forall k :: Made(account, k) != Made(start, k) ==> Marked(receipts, k)
  }

  // Everything that was made has a stored receipt that owns it.
  ghost predicate MadeOwned(start: Account, account: Account, receipts: Rows) {
    forall k :: Made(account, k) != Made(start, k) ==> Owns(receipts, k, Created)
  }

  lemma AccountedIsOwned(start: Account, account: Account, order: seq<Key>, receipts: Rows)
    requires Accounted(start, account, order, receipts)
    ensures MadeOwned(start, account, receipts)
  {}

  ghost predicate MarkedUpTo(order: seq<Key>, receipts: Rows, n: int) {
    forall i :: 0 <= i < |order| && i < n && Owns(receipts, order[i], Created) ==> Marked(receipts, order[i])
  }

  lemma NothingMarkedYet(order: seq<Key>, receipts: Rows)
    ensures MarkedUpTo(order, receipts, 0)
  {}

  lemma TouchedIsOurs(order: seq<Key>, touched: Rows, k: Key)
    requires Touches(order, touched) && k in order
    ensures k in touched && touched[k].key == k && touched[k].ownership == Created && touched[k].externalName.Some?
  {}

  lemma MarkingGoesOn(order: seq<Key>, receipts: Rows, r: Receipt, i: nat)
    requires MarkedUpTo(order, receipts, i) && i < |order| && r.key == order[i]
    requires r.ownership == Created && r.status == NeedsCleanup && r.externalName.Some?
    ensures MarkedUpTo(order, receipts[r.key := r], i + 1)
  {}

  // A cleanup receipt can be refused only for the last touched name, which then is not ours.
  lemma RefusedIsLast(order: seq<Key>, receipts: Rows, r: Receipt, i: nat)
    requires OwnedUpTo(order, receipts, |order| - 1) && MarkedUpTo(order, receipts, i)
    requires i < |order| && r.key == order[i] && r.ownership == Created && !Accepts(receipts, r)
    ensures MarkedUpTo(order, receipts, |order|)
  {
    assert i == |order| - 1;
  }

  lemma FailureIsMarked(
    start: Account, account: Account, receipts0: Rows, receipts: Rows,
    order: seq<Key>)
    requires RowsKept(receipts0, receipts) && Accounted(start, account, order, receipts)
    requires StillMarked(receipts0, receipts, order) && MarkedUpTo(order, receipts, |order|)
    ensures MadeMarked(start, account, receipts)
    ensures AllMarked(start, receipts0) ==> AllMarked(account, receipts)
  {
    forall k | k in order && Owns(receipts, k, Created) ensures Marked(receipts, k) {
      var i :| 0 <= i < |order| && order[i] == k;
    }
    if AllMarked(start, receipts0) {
      forall k | Made(account, k) != [] ensures Marked(receipts, k) {
        if Made(account, k) == Made(start, k) {
          assert Marked(receipts0, k);
          assert Owns(receipts, k, Created);
        }
      }
    }
  }

  lemma SavingKeepsRows(start: Rows, receipts: Rows, r: Receipt)
    requires RowsKept(start, receipts) && Accepts(receipts, r)
    requires r.ownership == Adopted ==> r.status != NeedsCleanup
    ensures RowsKept(start, receipts[r.key := r])
  {}

  lemma SavingKeepsMemory(account: Account, prior: Rows, receipts: Rows, r: Receipt)
    requires Remembered(account, prior, receipts) && Accepts(receipts, r)
    ensures Remembered(account, prior, receipts[r.key := r])
  {
    var after := receipts[r.key := r];
    forall k | Made(account, k) != []
      ensures Owns(prior + after, k, Created) || Owns(after, k, Adopted)
    {
      if k != r.key { assert Owns(prior + receipts, k, Created) ==> Owns(prior + after, k, Created); }
    }
  }

  lemma CreatingKeepsMemory(
    before: Account, after: Account, prior: Rows, receipts: Rows, k: Key)
    requires Remembered(before, prior, receipts) && Grown(before, after, k) && Owns(receipts, k, Created)
    ensures Remembered(after, prior, receipts)
  {
    forall j | Made(after, j) != []
      ensures Owns(prior + receipts, j, Created) || Owns(receipts, j, Adopted)
    {
      if j != k { assert Made(before, j) != []; }
    }
  }

  lemma CreatingOnce(start: Account, before: Account, after: Account, k: Key)
    requires MadeOnce(start, before) && Grown(before, after, k) && Made(before, k) == []
    ensures MadeOnce(start, after)
  {
    forall j ensures Made(after, j) == Made(start, j) || (Made(start, j) == [] && |Made(after, j)| == 1) {
      assert Made(before, j) == Made(start, j) || (Made(start, j) == [] && |Made(before, j)| == 1);
    }
  }

  /** One call of `prepareResources`. */
  class Preparation {
    const world: World
    var existing: Rows
    var touched: Rows
    var order: seq<Key>                  // insertion order of `touched`
    var output: seq<Receipt>

    ghost const prior: Rows
    ghost const account0: Account
    ghost const receipts0: Rows
    ghost const sure: bool               // everything in the account was remembered when the run began

    // Holds at every moment of a run.
    ghost predicate Kept() reads this, world {
      && RowsKept(receipts0, world.receipts)
      && (sure ==> MadeOnce(account0, world.account))
      && (sure ==> Remembered(world.account, prior, world.receipts))
      && Touches(order, touched)
      && Accounted(account0, world.account, order, world.receipts)
      && OwnedUpTo(order, world.receipts, |order| - 1)
      && StillMarked(receipts0, world.receipts, order)
    }

    // Holds until something goes wrong.
    ghost predicate Healthy() reads this, world {
      && Kept()
      && OwnedUpTo(order, world.receipts, |order|)
      && SameOwners(existing, prior + world.receipts)
    }

    // The coordinator passes the receipts of the deployment it replaces, overridden by the
    // receipts of this deployment.
    constructor (world: World, prior: Rows)
      ensures this.world == world && this.prior == prior && sure == Remembered(world.account, prior, world.receipts)
      ensures existing == prior + world.receipts
      ensures account0 == world.account && receipts0 == world.receipts
      ensures Healthy() && output == [] && order == []
    {
      this.world, this.prior := world, prior;
      account0, receipts0 := world.account, world.receipts;
      sure := Remembered(world.account, prior, world.receipts);
      existing := prior + world.receipts;
      touched, order, output := map[], [], [];
    }

    method Persist(r: Receipt) returns (ok: bool)
      requires Healthy() && r.status != NeedsCleanup && (r.ownership == Created ==> r.externalName.Some?)
      modifies this, world
      ensures Kept()
      ensures ok || Owns(old(world.receipts), r.key, r.ownership) ==> Healthy()
      ensures world.account == old(world.account) && output == old(output)
      ensures ok && r.ownership == Created ==> r.key in order
      ensures ok ==> Accepts(old(world.receipts), r) && Recorded(old(world.receipts), world.receipts, r)
      ensures SameOwner(old(world.receipts), world.receipts)
      ensures (old(world.aborted) ==> world.aborted) && (old(world.lost) ==> world.lost)
      ensures !ok && !world.aborted && !world.lost ==>
                !Accepts(old(world.receipts), r) && world.receipts == old(world.receipts)
    {
      hide RowsKept, MadeOnce, Remembered, Touches, Accounted, OwnedUpTo, StillMarked, SameOwners, Accepts, SameOwner;
      SavingKeepsOwners(world.receipts, r);
      var proceed := world.Proceed();
      if !proceed { return false; }
      ghost var order0, touched0 := order, touched;
      ghost var before := world.receipts;
      existing := existing[r.key := r];
      if r.ownership == Created {
        TouchedTogether(order, touched);
        if r.key !in touched { order := order + [r.key]; }
        touched := touched[r.key := r];
      }
      assert order == Enlisted(order0, r) && touched == Noted(touched0, r);
      TouchingKeepsTouches(order0, touched0, r);
      TouchingKeepsTheRest(account0, world.account, receipts0, before, order0, r);
      var saved := world.OnReceipt(r);
      if Accepts(before, r) {
        SavingKeepsRows(receipts0, before, r);
        if sure { SavingKeepsMemory(world.account, prior, before, r); }
        SavingKeepsTheRest(account0, world.account, receipts0, before, order, r);
        SavedIsOwned(order0, before, r);
        SavedIsExisting(old(existing), prior, before, r);
      }
      if Owns(before, r.key, r.ownership) { KnownIsHarmless(old(existing), prior, before, order0, r); }
      ok := saved == Saved;
    }

    // A name is created only when a lookup says that it is free, or when no receipt owns it.
    method Obtain(b: Binding, known: bool) returns (r: Option<Resource>)
      requires Healthy() && b.Store? && Owns(world.receipts, b.Target(), b.mode)
      requires b.mode == Created ==> b.Target() in order
      requires sure && b.mode == Created && !known ==> Made(world.account, b.Target()) == []
      modifies world`account
      ensures Healthy() && Extends(old(world.account), world.account)
      ensures r.Some? && b.mode == Created ==> r.value in Made(world.account, b.Target())
      ensures r.Some? && b.mode == Created && b.kind != R2 ==>
                if known && Made(old(world.account), b.Target()) != [] then world.account == old(world.account)
                else Grown(old(world.account), world.account, b.Target())
    {
      hide RowsKept, MadeOnce, Remembered, Touches, Accounted, OwnedUpTo, StillMarked, SameOwners;
      var k := b.Target();
      if b.mode == Adopted {
        var wanted := if b.kind == R2 then b.adoptName else b.adoptId;
        if wanted.None? || wanted.value == "" { return None; }
        r := world.Get(b);
        return;
      }
      if known {
        if b.kind == R2 {
          r := world.Get(b);
          if r.Some? { return; }
        } else {
          var found := world.Find(k);
          if found.None? { return None; }
          if found.value.Some? { return found.value; }
        }
      }
      r := world.Create(k);
      if world.account != old(world.account) {
        if sure {
          if k.kind == R2 || known { assert Made(old(world.account), k) == []; }
          CreatingOnce(account0, old(world.account), world.account, k);
          CreatingKeepsMemory(old(world.account), world.account, prior, world.receipts, k);
        }
        CreatingIsAccounted(account0, old(world.account), world.account, order, world.receipts, k);
      }
    }

    // The part that is tried once the first receipt is stored: get hold of the resource and say so.
    method Supply(b: Binding, known: bool) returns (ok: bool)
      requires Healthy() && b.Store? && Owns(world.receipts, b.Target(), b.mode)
      requires b.mode == Created ==> b.Target() in order
      requires sure && b.mode == Created && !known ==> Made(world.account, b.Target()) == []
      modifies this, world
      ensures Healthy() && Extends(old(world.account), world.account)
      ensures Owns(world.receipts, b.Target(), b.mode)
      ensures ok ==> |output| == |old(output)| + 1 && output[..|old(output)|] == old(output)
      ensures ok ==> output[|old(output)|].key == b.Target() && Delivered(b, output[|old(output)|], world.account)
      ensures ok ==> Recorded(old(world.receipts), world.receipts, output[|old(output)|])
      ensures (old(world.aborted) ==> world.aborted) && (old(world.lost) ==> world.lost)
      ensures !ok && !world.aborted && !world.lost ==> world.receipts == old(world.receipts)
      ensures ok && b.mode == Created && b.kind != R2 ==>
                if known && Made(old(world.account), b.Target()) != [] then world.account == old(world.account)
                else Grown(old(world.account), world.account, b.Target())
    {
      hide RowsKept, MadeOnce, Remembered, Touches, Accounted, OwnedUpTo, StillMarked, SameOwners, Delivered, Recorded;
      ok := world.Proceed();
      if !ok { return; }
      var found := Obtain(b, known);
      if found.None? || !b.Matches(found.value) { return false; }
      ok := world.Proceed();
      if !ok { return; }
      var ready := b.Finished(found.value);
      ghost var before := world.receipts;
      OwnedIsAccepted(before, ready);
      ok := Persist(ready);
      OwnerStays(before, world.receipts, b.Target(), b.mode);
      if ok {
        FinishedIsDelivered(b, found.value, world.account);
        output := output + [ready];
      }
    }

    method Provision(b: Binding) returns (ok: bool)
      requires Healthy() && b.Store?
      modifies this, world
      ensures Kept() && Extends(old(world.account), world.account)
      ensures ok ==> Healthy() && |output| == |old(output)| + 1 && output[..|old(output)|] == old(output)
      ensures ok ==> Delivered(b, output[|old(output)|], world.account)
      ensures ok ==> Recorded(old(world.receipts), world.receipts, output[|old(output)|])
      ensures (old(world.aborted) ==> world.aborted) && (old(world.lost) ==> world.lost)
      ensures !ok && !world.aborted && !world.lost ==> FailureRecorded(b, old(world.receipts), world.receipts)
      ensures ok && b.mode == Created && b.kind != R2 ==>
                if Owns(old(existing), b.Target(), Created) && Made(old(world.account), b.Target()) != []
                then world.account == old(world.account)
                else Grown(old(world.account), world.account, b.Target())
    {
      hide RowsKept, MadeOnce, Remembered, Touches, Accounted, OwnedUpTo, StillMarked, SameOwners, Delivered, Recorded;
      hide FailureRecorded;
      ok := world.Proceed();
      if !ok { return; }
      var k := b.Target();
      var known := k in existing && existing[k].ownership == Created;
      ghost var existing0, receipts1 := existing, world.receipts;
      ok := Persist(b.Initial());
      if !ok {
        if !world.aborted && !world.lost { RefusalIsRecorded(b, receipts1); }
        return;
      }
      if sure && b.mode == Created && !known {
        UnknownIsUnmade(world.account, existing0, prior, receipts1, b.Initial());
      }
      RecordedOwns(receipts1, world.receipts, b.Initial());
      ghost var receipts2 := world.receipts;
      ok := Supply(b, known);
      if ok {
        RecordedAgain(receipts1, receipts2, world.receipts, b.Initial(), output[|output| - 1]);
      } else {
        ghost var failed := b.Initial().(status := Failed);
        OwnedIsAccepted(world.receipts, failed);
        var saved := Persist(b.Initial().(status := Failed));
        if saved && !world.aborted && !world.lost { FailureIsRecorded(b, receipts1, receipts2, world.receipts); }
      }
    }

    method Plan(b: Binding) returns (ok: bool)
      requires Healthy() && b.Objects?
      modifies this, world
      ensures Kept() && world.account == old(world.account)
      ensures ok ==> Healthy() && output == old(output) + [b.Initial()]
      ensures ok ==> Recorded(old(world.receipts), world.receipts, b.Initial())
      ensures (old(world.aborted) ==> world.aborted) && (old(world.lost) ==> world.lost)
      ensures !ok && !world.aborted && !world.lost ==> world.receipts == old(world.receipts)
    {
      hide RowsKept, MadeOnce, Remembered, Touches, Accounted, OwnedUpTo, StillMarked, SameOwners;
      ok := Persist(b.Initial());
      if ok { output := output + [b.Initial()]; }
    }

    // Everything touched is marked, in the order it was touched, until a write fails.
    method MarkTouchedCreatedForCleanup() returns (saved: Saving)
      requires Kept()
      modifies this, world
      ensures Kept() && world.account == old(world.account)
      ensures saved != Unavailable ==> MarkedUpTo(order, world.receipts, |order|)
      ensures world.aborted == old(world.aborted) && (world.lost <==> old(world.lost) || saved == Unavailable)
      ensures AllSettled(old(world.receipts), world.receipts)
    {
      hide RowsKept, MadeOnce, Remembered, Touches, Accounted, OwnedUpTo, StillMarked, SameOwners;
      hide MarkedUpTo, AllSettled;
      saved := Saved;
      var i := 0;
      NothingMarkedYet(order, world.receipts);
      NothingInProgress(world.receipts);
      while i < |order|
        invariant 0 <= i <= |order| && order == old(order)
        invariant Kept() && world.account == old(world.account)
        invariant saved == Saved && MarkedUpTo(order, world.receipts, i)
        invariant world.aborted == old(world.aborted) && world.lost == old(world.lost)
        invariant AllSettled(old(world.receipts), world.receipts)
      {
        ghost var before, touched0 := world.receipts, touched;
        TouchedTogether(order, touched);
        TouchedIsOurs(order, touched, order[i]);
        assert order[i] in order;
        var cleanup := touched[order[i]].(status := NeedsCleanup);
        existing := existing[order[i] := cleanup];
        touched := touched[order[i] := cleanup];
        TouchingKeepsTouches(order, touched0, cleanup);
        SavingSettles(old(world.receipts), before, cleanup);
        saved := world.OnReceipt(cleanup);
        if Accepts(before, cleanup) {
          SavingKeepsRows(receipts0, before, cleanup);
          if sure { SavingKeepsMemory(world.account, prior, before, cleanup); }
          SavingKeepsTheRest(account0, world.account, receipts0, before, order, cleanup);
        }
        if saved != Saved {
          if saved == Refused { RefusedIsLast(order, before, cleanup, i); }
          return;
        }
        MarkingGoesOn(order, before, cleanup, i);
        i := i + 1;
      }
    }

    // `cleaned` says that no write of the cleanup was lost; it is true of a run that succeeds.
    method PrepareResources(bindings: seq<Binding>) returns (ok: bool, cleaned: bool)
      requires Healthy() && output == [] && order == []
      modifies this, world
      ensures RowsKept(receipts0, world.receipts)
      ensures sure ==> MadeOnce(account0, world.account)
      ensures sure ==> Remembered(world.account, prior, world.receipts)
      ensures MadeOwned(account0, world.account, world.receipts)
      ensures ok ==> AllDelivered(bindings, output, world.account)
      ensures ok ==> AllStored(output, world.receipts)
      ensures !world.lost ==> cleaned
      ensures ok || (!world.aborted && !world.lost) ==> AllSettled(old(world.receipts), world.receipts)
      ensures !ok && cleaned ==> MadeMarked(account0, world.account, world.receipts)
      ensures !ok && cleaned && AllMarked(account0, receipts0) ==> AllMarked(world.account, world.receipts)
    {
      hide RowsKept, MadeOnce, Remembered, Touches, Accounted, OwnedUpTo, StillMarked, SameOwners;
      hide MarkedUpTo, AllMarked, MadeMarked, MadeOwned, AllDelivered, Delivered, AllStored, Extends;
      hide AllSettled, FailureRecorded;
      ok, cleaned := true, true;
      var i := 0;
      NothingToDeliver(world.account, world.receipts);
      NothingInProgress(world.receipts);
      while i < |bindings| && ok
        invariant 0 <= i <= |bindings|
        invariant Kept() && (ok ==> Healthy() && AllDelivered(bindings[..i], output, world.account))
        invariant ok ==> AllStored(output, world.receipts)
        invariant ok || (!world.aborted && !world.lost) ==> AllSettled(old(world.receipts), world.receipts)
        decreases |bindings| - i, ok
      {
        ok := world.Proceed();
        ghost var before, rows0, output0 := world.account, world.receipts, output;
        if ok {
          if bindings[i].Store? {
            ok := Provision(bindings[i]);
            if !ok && !world.aborted && !world.lost {
              FailingSettles(old(world.receipts), rows0, world.receipts, bindings[i]);
            }
          } else {
            ok := Plan(bindings[i]);
            PlannedIsDelivered(bindings[i], before);
          }
        }
        if ok {
          assert output == output0 + [output[|output0|]];
          OneMoreDelivered(bindings[..i], bindings[i], output0, output[|output0|], before, world.account);
          OneMoreStored(output0, output[|output0|], rows0);
          DeliveredIsSettled(bindings[i], output[|output0|], world.account);
          SavingSettles(old(world.receipts), rows0, output[|output0|]);
          assert bindings[..i + 1] == bindings[..i] + [bindings[i]];
          i := i + 1;
        }
      }
      AccountedIsOwned(account0, world.account, order, world.receipts);
      if ok {
        assert bindings[..i] == bindings;
      } else {
        ghost var stopped := world.receipts;
        var saved := MarkTouchedCreatedForCleanup();
        if !world.aborted && !world.lost { SettledOnceMore(old(world.receipts), stopped, world.receipts); }
        cleaned := saved != Unavailable;
        AccountedIsOwned(account0, world.account, order, world.receipts);
        if cleaned { FailureIsMarked(account0, world.account, receipts0, world.receipts, order); }
      }
    }
  }

  lemma MadeOnceMore(a: Account, b: Account, c: Account)
    requires MadeOnce(a, b) && MadeOnce(b, c)
    ensures MadeOnce(a, c)
  {
    forall k ensures Made(c, k) == Made(a, k) || (Made(a, k) == [] && |Made(c, k)| == 1) {
      assert Made(b, k) == Made(a, k) || (Made(a, k) == [] && |Made(b, k)| == 1);
    }
  }

  lemma OwnedOnceMore(
    a: Account, b: Account, c: Account, r: Rows, after: Rows)
    requires MadeOwned(a, b, r) && RowsKept(r, after) && MadeOwned(b, c, after)
    ensures MadeOwned(a, c, after)
  {
    forall k | Made(c, k) != Made(a, k) ensures Owns(after, k, Created) {
      assert Made(b, k) != Made(a, k) ==> Owns(r, k, Created);
    }
  }

  lemma RowsKeptOnceMore(a: Rows, b: Rows, c: Rows)
    requires RowsKept(a, b) && RowsKept(b, c)
    ensures RowsKept(a, c)
  {
    forall k | Owns(c, k, Adopted) && c[k].status == NeedsCleanup ensures k in a && a[k] == c[k] {
      assert Owns(b, k, Adopted);
    }
  }

  // A deployment is tried again with the receipts its earlier tries stored, whatever each try
  // asks for and however it ends.
  method Retry(world: World, prior: Rows, tries: seq<seq<Binding>>) returns (ok: bool, cleaned: bool)
    requires Remembered(world.account, prior, world.receipts)
    modifies world
    ensures MadeOnce(old(world.account), world.account)
    ensures MadeOwned(old(world.account), world.account, world.receipts)
    ensures RowsKept(old(world.receipts), world.receipts)
    ensures !ok && cleaned && AllMarked(old(world.account), old(world.receipts)) ==>
              AllMarked(world.account, world.receipts)
  {
    hide RowsKept, MadeOnce, Remembered, AllMarked, MadeMarked, MadeOwned, AllDelivered;
    ok, cleaned := false, true;
    var i := 0;
    NothingChangesNothing(world.account, world.receipts);
    while i < |tries| && !ok
      invariant 0 <= i <= |tries|
      invariant Remembered(world.account, prior, world.receipts)
      invariant MadeOnce(old(world.account), world.account)
      invariant MadeOwned(old(world.account), world.account, world.receipts)
      invariant RowsKept(old(world.receipts), world.receipts)
      invariant !ok && cleaned && AllMarked(old(world.account), old(world.receipts)) ==>
                AllMarked(world.account, world.receipts)
    {
      ghost var account, receipts := world.account, world.receipts;
      var run := new Preparation(world, prior);
      var c;
      ok, c := run.PrepareResources(tries[i]);
      MadeOnceMore(old(world.account), account, world.account);
      OwnedOnceMore(old(world.account), account, world.account, receipts, world.receipts);
      RowsKeptOnceMore(old(world.receipts), receipts, world.receipts);
      cleaned := cleaned && c;
      i := i + 1;
    }
  }

  // Publishing again: the receipts of this deployment and of the current one are passed on, those of a deployment
  // that failed are not. A name that is taken is created a second time exactly when none of those receipts owns it.
  method PublishAgain(world: World, prior: Rows, b: Binding) returns (ok: bool)
    requires b.Store? && b.mode == Created && b.kind != R2 && Made(world.account, b.Target()) != []
    modifies world
    ensures ok ==>
              var k := b.Target();
              if Owns(prior + old(world.receipts), k, Created)
                  then Made(world.account, k) == Made(old(world.account), k)
              else |Made(world.account, k)| == |Made(old(world.account), k)| + 1 >= 2
  {
    var run := new Preparation(world, prior);
    ok := run.Provision(b);
    if !ok { var _ := run.MarkTouchedCreatedForCleanup(); }
  }

  lemma NothingChangesNothing(account: Account, receipts: Rows)
    ensures MadeOnce(account, account) && MadeOwned(account, account, receipts) && RowsKept(receipts, receipts)
  {}
}
