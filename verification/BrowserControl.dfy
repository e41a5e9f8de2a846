/**
 * Who drives a browser session. The state is a JSON file that is rewritten atomically; its epoch
 * is a fencing token: an agent may dispatch only with the epoch of the current `agent` phase.
 */
module BrowserControl {
  import opened Options

  const SUMMARY_MAX_CHARS: nat := 2000

  // ---- JSON values, as far as they matter here ----

  datatype Num = Finite(value: real) | NonFinite
  datatype Json =
    | Null | Bool(b: bool) | Number(n: Num) | Text(s: string) | List(items: seq<Json>)
    | Object(fields: map<string, Json>)
  {
    // A property access: absent for anything that is not an object with that property.
    function Get(name: string): (v: Option<Json>) {
      if Object? && name in fields then Some(fields[name]) else None
    }

    predicate Truthy() {
      match this
      case Null => false
      case Bool(b) => b
      case Number(n) => n != Finite(0.0)
      case Text(s) => s != ""
      case _ => true
    }
  }

  // What parsing gives back after printing: a number that is not finite is printed as `null`.
  function Reparsed(j: Json): (r: Json) {
    match j
    case Number(NonFinite) => Null
    case List(items) => List(seq(|items|, i requires 0 <= i < |items| => Reparsed(items[i])))
    case Object(fields) => Object(map k | k in fields :: Reparsed(fields[k]))
    case _ => j
  }

  // ---- The state and its normal form ----

  datatype Phase = Agent | TakeoverPending | Human | Resuming | Stopping | Stopped | Uncertain

  function PhaseName(p: Phase): (s: string) {
    match p
    case Agent => "agent"
    case TakeoverPending => "takeover_pending"
    case Human => "human"
    case Resuming => "resuming"
    case Stopping => "stopping"
    case Stopped => "stopped"
    case Uncertain => "uncertain"
  }

  function PhaseOf(v: Option<Json>): (p: Phase)
    ensures v == Some(Text(PhaseName(p))) || (p == Uncertain && forall q :: v != Some(Text(PhaseName(q))))
  {
    if v == Some(Text("agent")) then Agent
    else if v == Some(Text("takeover_pending")) then TakeoverPending
    else if v == Some(Text("human")) then Human
    else if v == Some(Text("resuming")) then Resuming
    else if v == Some(Text("stopping")) then Stopping
    else if v == Some(Text("stopped")) then Stopped
    else Uncertain
  }

  datatype Handoff = Handoff(summary: string, resumedAt: Num)
  datatype State = State(
    phase: Phase, epoch: int, updatedAt: real, reason: string, pendingActionRisk: bool, lastHandoff: Option<Handoff>)

  function Initial(now: real): (s: State) {
    State(Agent, 1, now, "session_ready", false, None)
  }

  function EpochOf(v: Option<Json>): (e: int)
    ensures e > 0
  {
    match v
    case Some(Number(Finite(x))) => if x == x.Floor as real && x > 0.0 then x.Floor else 1
    case _ => 1
  }

  function HandoffOf(v: Option<Json>): (h: Option<Handoff>) {
    if v.None? then None
    else
      match (v.value.Get("summary"), v.value.Get("resumedAt"))
      case (Some(Text(summary)), Some(Number(at))) =>
        Some(Handoff(if |summary| > SUMMARY_MAX_CHARS then summary[..SUMMARY_MAX_CHARS] else summary, at))
      case _ => None
  }

  function NormalizeState(value: Json, now: real): (s: State)
    ensures s.epoch > 0
  {
    if !value.Object? then Initial(now)
    else
      State(
        PhaseOf(value.Get("phase")),
        EpochOf(value.Get("epoch")),
        match value.Get("updatedAt") case Some(Number(Finite(x))) => x case _ => now,
        match value.Get("reason") case Some(Text(r)) => r case _ => "state_recovered",
        match value.Get("pendingActionRisk") case Some(v) => v.Truthy() case None => false,
        HandoffOf(value.Get("lastHandoff")))
  }

  function HandoffJson(h: Handoff): (j: Json) {
    Object(map["summary" := Text(h.summary), "resumedAt" := Number(h.resumedAt)])
  }

  function ToJson(sessionId: string, s: State): (j: Json) {
    var base := map[
      "schemaVersion" := Number(Finite(1.0)), "sessionId" := Text(sessionId), "phase" := Text(PhaseName(s.phase)),
      "epoch" := Number(Finite(s.epoch as real)), "updatedAt" := Number(Finite(s.updatedAt)),
      "reason" := Text(s.reason), "pendingActionRisk" := Bool(s.pendingActionRisk)];
    Object(if s.lastHandoff.Some? then base["lastHandoff" := HandoffJson(s.lastHandoff.value)] else base)
  }

  // The states that normalization produces.
  predicate Normal(s: State) {
    s.epoch > 0 && (s.lastHandoff.Some? ==> |s.lastHandoff.value.summary| <= SUMMARY_MAX_CHARS)
  }

  // The states that also survive being printed.
  predicate Durable(s: State) {
    Normal(s) && (s.lastHandoff.Some? ==> s.lastHandoff.value.resumedAt.Finite?)
  }

  lemma PhaseReadsBack(p: Phase)
    ensures PhaseOf(Some(Text(PhaseName(p)))) == p
  {
    match p case Agent => case TakeoverPending => case Human => case Resuming =>
    case Stopping => case Stopped => case Uncertain =>
  }

  lemma GetReparsed(j: Json, name: string)
    requires j.Object?
    ensures Reparsed(j).Object?
    ensures Reparsed(j).Get(name) == (if name in j.fields then Some(Reparsed(j.fields[name])) else None)
  {}

  lemma ScalarsReparse()
    ensures forall t :: Reparsed(Text(t)) == Text(t)
    ensures forall b :: Reparsed(Bool(b)) == Bool(b)
    ensures forall x :: Reparsed(Number(Finite(x))) == Number(Finite(x))
    ensures Reparsed(Number(NonFinite)) == Null
  {}

  ghost predicate Carries(j: Json, s: State) {
    && j.Object?
    && j.Get("phase") == Some(Text(PhaseName(s.phase)))
    && j.Get("epoch") == Some(Number(Finite(s.epoch as real)))
    && j.Get("updatedAt") == Some(Number(Finite(s.updatedAt)))
    && j.Get("reason") == Some(Text(s.reason))
    && j.Get("pendingActionRisk") == Some(Bool(s.pendingActionRisk))
  }

  lemma PrintedCarries(sessionId: string, s: State)
    ensures Carries(ToJson(sessionId, s), s)
    ensures ToJson(sessionId, s).Get("lastHandoff") ==
              (if s.lastHandoff.Some? then Some(HandoffJson(s.lastHandoff.value)) else None)
  {}

  lemma ReparsedCarries(sessionId: string, s: State)
    ensures Carries(Reparsed(ToJson(sessionId, s)), s)
    ensures Reparsed(ToJson(sessionId, s)).Get("lastHandoff") ==
            (if s.lastHandoff.Some? then Some(Reparsed(HandoffJson(s.lastHandoff.value))) else None)
  {
    hide ToJson, Reparsed, HandoffJson;
    var j := ToJson(sessionId, s);
    PrintedCarries(sessionId, s);
    ScalarsReparse();
    GetReparsed(j, "phase");
    GetReparsed(j, "epoch");
    GetReparsed(j, "updatedAt");
    GetReparsed(j, "reason");
    GetReparsed(j, "pendingActionRisk");
    GetReparsed(j, "lastHandoff");
  }

  lemma CarriedIsRead(j: Json, s: State, now: real)
    requires Carries(j, s) && s.epoch > 0
    ensures NormalizeState(j, now) == s.(lastHandoff := HandoffOf(j.Get("lastHandoff")))
  {
    PhaseReadsBack(s.phase);
    assert (s.epoch as real).Floor == s.epoch;
  }

  lemma HandoffReadsBack(h: Handoff)
    requires |h.summary| <= SUMMARY_MAX_CHARS
    ensures HandoffOf(Some(HandoffJson(h))) == Some(h)
    ensures HandoffOf(Some(Reparsed(HandoffJson(h)))) == (if h.resumedAt.Finite? then Some(h) else None)
  {
    var j := HandoffJson(h);
    assert j.Get("summary") == Some(Text(h.summary)) && j.Get("resumedAt") == Some(Number(h.resumedAt));
    GetReparsed(j, "summary");
    GetReparsed(j, "resumedAt");
    ScalarsReparse();
  }

  // A positive whole number.
  predicate IsEpoch(v: Option<Json>, n: int) {
    n > 0 && v == Some(Number(Finite(n as real)))
  }

  // What normalization makes of any value: a known phase or `uncertain`, a positive whole epoch or one, a finite time
  // or the present, a text or `state_recovered`, and a handoff only if both its parts have the right type.
  lemma NormalizedFields(value: Json, now: real)
    ensures !value.Object? ==> NormalizeState(value, now) == State(Agent, 1, now, "session_ready", false, None)
    ensures value.Object? ==>
      var s := NormalizeState(value, now);
      && (forall p :: value.Get("phase") == Some(Text(PhaseName(p))) ==> s.phase == p)
      && ((forall p :: value.Get("phase") != Some(Text(PhaseName(p)))) ==> s.phase == Uncertain)
      && (forall n :: IsEpoch(value.Get("epoch"), n) ==> s.epoch == n)
      && ((forall n :: !IsEpoch(value.Get("epoch"), n)) ==> s.epoch == 1)
      && (forall x :: value.Get("updatedAt") == Some(Number(Finite(x))) ==> s.updatedAt == x)
      && ((forall x :: value.Get("updatedAt") != Some(Number(Finite(x)))) ==> s.updatedAt == now)
      && (forall t :: value.Get("reason") == Some(Text(t)) ==> s.reason == t)
      && ((forall t :: value.Get("reason") != Some(Text(t))) ==> s.reason == "state_recovered")
      && var risk, falsy := value.Get("pendingActionRisk"), [Null, Bool(false), Number(Finite(0.0)), Text("")];
      (s.pendingActionRisk <==> risk.Some? && risk.value !in falsy)
  {
    if value.Object? {
      forall p | value.Get("phase") == Some(Text(PhaseName(p))) ensures NormalizeState(value, now).phase == p {
        PhaseReadsBack(p);
      }
      if s :| value.Get("epoch") == Some(Number(Finite(s))) && s == s.Floor as real && s > 0.0 {
        assert IsEpoch(value.Get("epoch"), s.Floor);
      }
    }
  }

  lemma NormalizedHandoff(value: Json, now: real, text: string, at: Num)
    requires value.Object? && value.Get("lastHandoff").Some?
    requires value.Get("lastHandoff").value.Get("summary") == Some(Text(text))
    requires value.Get("lastHandoff").value.Get("resumedAt") == Some(Number(at))
    ensures NormalizeState(value, now).lastHandoff ==
            Some(Handoff(if |text| > 2_000 then text[..2_000] else text, at))
  {
  }

  // Normalizing again, at any later time, changes nothing.
  lemma NormalizeIsIdempotent(sessionId: string, value: Json, now: real, later: real)
    ensures Normal(NormalizeState(value, now))
    ensures NormalizeState(ToJson(sessionId, NormalizeState(value, now)), later) == NormalizeState(value, now)
  {
    NormalReadsBack(sessionId, NormalizeState(value, now), later);
  }

  lemma NormalReadsBack(sessionId: string, s: State, now: real)
    requires Normal(s)
    ensures NormalizeState(ToJson(sessionId, s), now) == s
  {
    PrintedCarries(sessionId, s);
    CarriedIsRead(ToJson(sessionId, s), s, now);
    if s.lastHandoff.Some? { HandoffReadsBack(s.lastHandoff.value); }
  }

  // A state that was written is read back as it was, unless its handoff time is not finite; then
  // the whole handoff is dropped.
  lemma ReadsReturnWhatWasWritten(sessionId: string, s: State, now: real)
    requires Normal(s)
    ensures NormalizeState(Reparsed(ToJson(sessionId, s)), now) == s <==> Durable(s)
    ensures !Durable(s) ==> NormalizeState(Reparsed(ToJson(sessionId, s)), now) == s.(lastHandoff := None)
  {
    ReparsedCarries(sessionId, s);
    CarriedIsRead(Reparsed(ToJson(sessionId, s)), s, now);
    if s.lastHandoff.Some? { HandoffReadsBack(s.lastHandoff.value); }
  }
}
