/**
 The durable outbox worker: what a row's payload means to it, and what one poll does with the
 batch of rows it claimed.
 */
module OutboxWorker {
  import opened Options
  import opened Texts

  // ----- payloads -----

  datatype Json = JsonNull | JsonString(text: string) | JsonOther

  datatype Operation = Deploy | Rollback | DomainSet | ClaimVerify

  /** `payload` is absent when the stored JSON is not an object. */
  datatype Record = Record(
    id: nat, operation: Operation, tenantId: string, appId: string, appGeneration: int,
    payload: Option<map<string, Json>>)

  datatype Target = Byoc(connectionId: string) | Temporary(temporaryAccountId: string)

  datatype Parsed = Parsed(
    tenantId: string, userId: string, membershipId: string,
    appId: string, deploymentId: string, appGeneration: int, target: Target)

  const MAX_SAFE_INTEGER := 9_007_199_254_740_991

  predicate Strict(s: string) {
    s != "" && Trim(s) == s
  }

  predicate StrictValue(v: Json) {
    v.JsonString? && Strict(v.text)
  }

  const KEYS := {"connectionId", "deploymentId", "membershipId", "target", "temporaryAccountId", "userId"}

  /** parseAppsDeploymentOutboxRecord; `None` where it throws. */
  function Parse(r: Record): Option<Parsed> {
    if r.operation != Deploy && r.operation != Rollback then None
    else if r.payload.None? || r.payload.value.Keys != KEYS then None
    else
      var p := r.payload.value;
      if !StrictValue(p["userId"]) || !StrictValue(p["membershipId"]) || !StrictValue(p["deploymentId"]) then None
      else if !(p["connectionId"].JsonNull? || StrictValue(p["connectionId"])) then None
      else if !(p["temporaryAccountId"].JsonNull? || StrictValue(p["temporaryAccountId"])) then None
      else if p["target"] != JsonString("temporary") && p["target"] != JsonString("byoc") then None
      else
        var byoc := p["target"] == JsonString("byoc");
        if byoc && (p["connectionId"].JsonNull? || !p["temporaryAccountId"].JsonNull?) then None
        else if !byoc && (p["temporaryAccountId"].JsonNull? || !p["connectionId"].JsonNull?) then None
        else if r.appGeneration <= 0 || r.appGeneration > MAX_SAFE_INTEGER then None
        else if !Strict(r.tenantId) || !Strict(r.appId) then None
        else Some(Parsed(r.tenantId, p["userId"].text, p["membershipId"].text, r.appId, p["deploymentId"].text,
            r.appGeneration,
                         if byoc then Byoc(p["connectionId"].text) else Temporary(p["temporaryAccountId"].text)))
  }

  /** The row enqueueDeploymentOutbox writes for a deployment on its chosen target. */
  function Enqueued(id: nat, rollback: bool, w: Parsed): Record {
    Record(id, if rollback then Rollback else Deploy, w.tenantId, w.appId, w.appGeneration, Some(map[
      "userId" := JsonString(w.userId),
      "membershipId" := JsonString(w.membershipId),
      "deploymentId" := JsonString(w.deploymentId),
      "target" := JsonString(if w.target.Byoc? then "byoc" else "temporary"),
      "connectionId" := (if w.target.Byoc? then JsonString(w.target.connectionId) else JsonNull),
      "temporaryAccountId" := (if w.target.Byoc? then JsonNull else JsonString(w.target.temporaryAccountId))]))
  }

  predicate WellNamed(w: Parsed) {
    && Strict(w.tenantId) && Strict(w.userId) && Strict(w.membershipId) && Strict(w.appId) && Strict(w.deploymentId)
    && Strict(if w.target.Byoc? then w.target.connectionId else w.target.temporaryAccountId)
    && 1 <= w.appGeneration <= MAX_SAFE_INTEGER
  }

  /** Every enqueued row parses back to the same target and ids, exactly when its ids are non-empty and trimmed and
      its generation is a positive safe integer; otherwise it is rejected rather than misread. */
  lemma EnqueuedRowsParseBack(id: nat, rollback: bool, w: Parsed)
    ensures Parse(Enqueued(id, rollback, w)) == if WellNamed(w) then Some(w) else None
  {
    hide Strict;
    var p := Enqueued(id, rollback, w).payload.value;
    assert p.Keys == KEYS;
  }

  /** A payload that parses is one the enqueuer could have written: no field is missing, unknown or ambiguous. */
  lemma ParsedRowsWereEnqueued(r: Record)
    requires Parse(r).Some?
    ensures WellNamed(Parse(r).value)
    ensures Enqueued(r.id, r.operation == Rollback, Parse(r).value) == r
  {
    hide Strict;
    var w := Parse(r).value;
    assert Enqueued(r.id, r.operation == Rollback, w).payload.value == r.payload.value;
  }

  // ----- polling -----

  datatype Call = Run(id: nat) | Complete(id: nat) | Retry(id: nat) | Reject(id: nat)

  datatype Outcome = RunFails | CompleteFails | Succeeds

  /** The dependency calls that processing one record makes, in order. */
  function Processing(r: Record, o: Outcome): seq<Call> {
    if Parse(r).None? then [Reject(r.id)]
    else if o == RunFails then [Run(r.id), Retry(r.id)]
    else if o == CompleteFails then [Run(r.id), Complete(r.id), Retry(r.id)]
    else [Run(r.id), Complete(r.id)]
  }

  /** Every record is settled by exactly one last call: rejected if it cannot be read, completed if it ran and
      completed, retried otherwise; it runs once, and only if it can be read. */
  ghost predicate SettledOnce(r: Record, o: Outcome, calls: seq<Call>) {
    && calls != [] && (forall i | 0 <= i < |calls| :: calls[i].id == r.id)
    && calls[|calls| - 1] ==
         (if Parse(r).None? then Reject(r.id) else if o == Succeeds then Complete(r.id) else Retry(r.id))
    && (forall i | 0 <= i < |calls| :: calls[i].Run? <==> i == 0 && Parse(r).Some?)
    && (forall i | 0 <= i < |calls| - 1 :: !calls[i].Retry? && !calls[i].Reject?)
    && (forall i | 0 <= i < |calls| :: calls[i].Complete? ==> Parse(r).Some? && o != RunFails)
  }

  lemma ProcessingSettlesOnce(r: Record, o: Outcome)
    ensures SettledOnce(r, o, Processing(r, o))
  {
    hide Parse;
  }

  ghost function ProcessingAll(rs: seq<Record>, outcomes: nat -> Outcome, n: nat): seq<Call>
    requires n <= |rs|
  {
    if n == 0 then [] else ProcessingAll(rs, outcomes, n - 1) + Processing(rs[n - 1], outcomes(n - 1))
  }

  ghost function RetryAll(rs: seq<Record>, lo: nat, hi: nat): seq<Call>
    requires lo <= hi <= |rs|
  {
    if lo == hi then [] else RetryAll(rs, lo, hi - 1) + [Retry(rs[hi - 1].id)]
  }

  class AppsOutboxWorker {
    var log: seq<Call>

    constructor ()
      ensures log == []
    {
      log := [];
    }

    method Process(r: Record, o: Outcome)
      modifies this
      ensures log == old(log) + Processing(r, o)
      ensures SettledOnce(r, o, log[|old(log)|..])
    {
      hide SettledOnce;
      ProcessingSettlesOnce(r, o);
      Appended(log, Processing(r, o));
      if Parse(r).None? {
        log := log + [Reject(r.id)];
        return;
      }
      log := log + [Run(r.id)];
      if o != RunFails {
        log := log + [Complete(r.id)];
        if o == Succeeds {
          return;
        }
      }
      log := log + [Retry(r.id)];
    }

    /** doPoll over a claimed batch: `aborted(i)` is what the signal shows before record `i`. */
    method DoPoll(records: seq<Record>, aborted: nat -> bool, outcomes: nat -> Outcome) returns (processed: nat)
      modifies this
      ensures processed <= |records|
      ensures forall i | 0 <= i < processed :: !aborted(i)
      ensures processed < |records| ==> aborted(processed)
      ensures log == old(log) + ProcessingAll(records, outcomes, processed) + RetryAll(records, processed, |records|)
    {
      hide Processing;
      processed := 0;
      while processed < |records| && !aborted(processed)
        invariant processed <= |records|
        invariant forall i | 0 <= i < processed :: !aborted(i)
        invariant log == old(log) + ProcessingAll(records, outcomes, processed)
      {
        Process(records[processed], outcomes(processed));
        processed := processed + 1;
      }
      GiveBack(records, processed);
    }

    /** Retries the rows an aborted poll has not started. */
    method GiveBack(records: seq<Record>, first: nat)
      requires first <= |records|
      modifies this
      ensures log == old(log) + RetryAll(records, first, |records|)
    {
      var index := first;
      while index < |records|
        invariant first <= index <= |records|
        invariant log == old(log) + RetryAll(records, first, index)
      {
        log := log + [Retry(records[index].id)];
        index := index + 1;
      }
    }
  }

  lemma Appended(a: seq<Call>, b: seq<Call>)
    ensures (a + b)[|a|..] == b
  {
  }

  predicate DistinctIds(rs: seq<Record>) {
    forall i, j | 0 <= i < j < |rs| :: rs[i].id != rs[j].id
  }

  // What a record that was processed is called with, and how often.
  ghost function Count(r: Record, o: Outcome, c: Call): nat {
    if c.id != r.id then 0
    else if Parse(r).None? then (if c.Reject? then 1 else 0)
    else match c
      case Run(_) => 1
      case Complete(_) => if o == RunFails then 0 else 1
      case Retry(_) => if o == Succeeds then 0 else 1
      case Reject(_) => 0
  }

  lemma CallsOfOne(r: Record, o: Outcome, c: Call)
    ensures multiset(Processing(r, o))[c] == Count(r, o, c)
  {
    hide Parse;
  }

  lemma CountsAdd(a: seq<Call>, b: seq<Call>, c: Call)
    ensures multiset(a + b)[c] == multiset(a)[c] + multiset(b)[c]
  {
  }

  lemma NextIsAnother(rs: seq<Record>, n: nat, k: nat)
    requires DistinctIds(rs) && n < |rs| && k < |rs|
    ensures rs[n].id == rs[k].id ==> n == k
  {
  }

  lemma {:induction false} ProcessedCalls(rs: seq<Record>, outcomes: nat -> Outcome, n: nat, k: nat, c: Call)
    requires DistinctIds(rs) && n <= |rs| && k < |rs| && c.id == rs[k].id
    ensures multiset(ProcessingAll(rs, outcomes, n))[c] == if k < n then Count(rs[k], outcomes(k), c) else 0
  {
    hide Processing, DistinctIds, Parse;
    if n > 0 {
      ProcessedCalls(rs, outcomes, n - 1, k, c);
      CallsOfOne(rs[n - 1], outcomes(n - 1), c);
      NextIsAnother(rs, n - 1, k);
      var init, last := ProcessingAll(rs, outcomes, n - 1), Processing(rs[n - 1], outcomes(n - 1));
      assert ProcessingAll(rs, outcomes, n) == init + last;
      hide ProcessingAll;
      CountsAdd(init, last, c);
    }
  }

  lemma {:induction false} RetriedCalls(rs: seq<Record>, lo: nat, hi: nat, k: nat, c: Call)
    requires DistinctIds(rs) && lo <= hi <= |rs| && k < |rs| && c.id == rs[k].id
    ensures multiset(RetryAll(rs, lo, hi))[c] == if lo <= k < hi && c.Retry? then 1 else 0
    decreases hi
  {
    if lo < hi {
      RetriedCalls(rs, lo, hi - 1, k, c);
      CountsAdd(RetryAll(rs, lo, hi - 1), [Retry(rs[hi - 1].id)], c);
      assert k != hi - 1 ==> rs[hi - 1].id != c.id;
    }
  }

  lemma PolledCalls(rs: seq<Record>, outcomes: nat -> Outcome, processed: nat, k: nat, c: Call)
    requires DistinctIds(rs) && processed <= |rs| && k < |rs| && c.id == rs[k].id
    ensures multiset(ProcessingAll(rs, outcomes, processed) + RetryAll(rs, processed, |rs|))[c]
         == if k < processed then Count(rs[k], outcomes(k), c) else if c.Retry? then 1 else 0
  {
    hide *;
    ProcessedCalls(rs, outcomes, processed, k, c);
    RetriedCalls(rs, processed, |rs|, k, c);
    CountsAdd(ProcessingAll(rs, outcomes, processed), RetryAll(rs, processed, |rs|), c);
  }

  /** A poll splits its batch in two. A row of the processed prefix is rejected once if it cannot be read, and otherwise
      run once, completed once unless the run failed, and retried once unless all went well; a row of the aborted rest
      is given back once, and nothing else is done with it. */
  lemma PollSplitsTheBatch(rs: seq<Record>, outcomes: nat -> Outcome, processed: nat, k: nat)
    requires DistinctIds(rs) && processed <= |rs| && k < |rs|
    ensures
      var calls := multiset(ProcessingAll(rs, outcomes, processed) + RetryAll(rs, processed, |rs|));
      var id, read := rs[k].id, k < processed && Parse(rs[k]).Some?;
      && calls[Reject(id)] == (if k < processed && !read then 1 else 0)
      && calls[Run(id)] == (if read then 1 else 0)
      && calls[Complete(id)] == (if read && outcomes(k) != RunFails then 1 else 0)
      && calls[Retry(id)] == (if k >= processed || (read && outcomes(k) != Succeeds) then 1 else 0)
  {
    hide Parse, DistinctIds, ProcessingAll, RetryAll;
    var id := rs[k].id;
    PolledCalls(rs, outcomes, processed, k, Reject(id));
    PolledCalls(rs, outcomes, processed, k, Run(id));
    PolledCalls(rs, outcomes, processed, k, Complete(id));
    PolledCalls(rs, outcomes, processed, k, Retry(id));
  }
}
