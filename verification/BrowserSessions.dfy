/**
 * Runs of browser control on one session: calls follow one another, and the process may stop after
 * any write of any call. Every claim about epochs is a claim about all such runs.
 */
module BrowserSessions {
  import opened Options
  import opened BrowserControl
  import opened Texts

  // A call together with what the outside world answered and the clock said.
  datatype Call =
    | TakeOver(interrupted: bool, upstreamRisk: bool, at: real, later: real)
    | Resume(summary: string, delivered: bool, readback: bool, at: real, later: real)
    | Stop(interrupted: bool, failed: bool, at: real, later: real)

  // Whether the call gets past its own checks.
  predicate Proceeds(s: State, c: Call) {
    match c
    case TakeOver(_, _, _, _) => s.phase != Stopped && s.phase != Stopping
    case Resume(summary, _, _, _, _) =>
      0 < |Trim(summary)| <= SUMMARY_MAX_CHARS && (s.phase == Human || s.phase == Uncertain)
    case Stop(_, _, _, _) => s.phase != Stopped
  }

  // The first state a call writes, before it asks the outside world for anything.
  function First(s: State, c: Call): (t: State) {
    match c
    case TakeOver(_, _, at, _) =>
      s.(phase := TakeoverPending, epoch := s.epoch + 1, updatedAt := at,
         reason := "user_takeover_requested", pendingActionRisk := true)
    case Resume(_, _, _, at, _) =>
      s.(phase := Resuming, epoch := s.epoch + 1, updatedAt := at,
         reason := "user_resume_requested", pendingActionRisk := false)
    case Stop(_, _, at, _) =>
      s.(phase := Stopping, epoch := s.epoch + 1, updatedAt := at,
         reason := "browser_stop_requested", pendingActionRisk := true)
  }

  // The second one, with the answer.
  function Second(s: State, c: Call): (t: State) {
    var first := First(s, c);
    match c
    case TakeOver(interrupted, risk, _, later) =>
      first.(phase := Human, updatedAt := later, pendingActionRisk := !interrupted || risk,
             reason := if !interrupted then "agent_interrupt_unconfirmed"
                       else if risk then "action_completion_unconfirmed" else "agent_interrupted")
    case Resume(summary, delivered, readback, _, later) =>
      if !delivered || !readback then
        first.(phase := Uncertain, updatedAt := later, pendingActionRisk := true,
               reason := if readback then "handoff_delivery_unconfirmed" else "semantic_readback_unconfirmed")
      else
        first.(phase := Agent, updatedAt := later, reason := "handoff_verified", pendingActionRisk := false,
               lastHandoff := Some(Handoff(Trim(summary), Finite(later))))
    case Stop(interrupted, failed, _, later) =>
      if failed then
        first.(phase := Uncertain, updatedAt := later, reason := "browser_stop_unconfirmed", pendingActionRisk := true)
      else
        first.(phase := Stopped, updatedAt := later, pendingActionRisk := !interrupted,
               reason := if interrupted then "browser_stopped" else "browser_stopped_interrupt_unconfirmed")
  }

  // The states a call writes, when the process stops after `reach` of them.
  function Writes(s: State, c: Call, reach: nat): (w: seq<State>) {
    if !Proceeds(s, c) || reach == 0 then []
    else if reach == 1 then [First(s, c)]
    else [First(s, c), Second(s, c)]
  }

  // The states the file went through: created in `agent`, then call by call, each call possibly
  // cut short after any of its writes.
  ghost predicate IsRun(h: seq<State>)
    decreases |h|
  {
    || h == []
    || (exists t :: h == [Initial(t)])
    || (exists k, c, reach :: 0 < k < |h| && IsRun(h[..k]) && EndsWith(h, k, c, reach))
  }

  ghost predicate EndsWith(h: seq<State>, k: nat, c: Call, reach: nat)
    requires 0 < k <= |h|
  {
    h[k..] == Writes(h[k - 1], c, reach)
  }

  lemma RunGoesOn(h: seq<State>, c: Call, reach: nat)
    requires IsRun(h) && h != []
    ensures IsRun(h + Writes(h[|h| - 1], c, reach))
  {
    hide Writes;
    var w := Writes(h[|h| - 1], c, reach);
    var g := h + w;
    if w == [] {
      assert g == h;
    } else {
      assert g[..|h|] == h && g[|h|..] == w;
      assert 0 < |h| < |g| && IsRun(g[..|h|]) && EndsWith(g, |h|, c, reach);
    }
  }

  // ---- What one write can do ----

  predicate Busy(p: Phase) { p == TakeoverPending || p == Resuming || p == Stopping }

  predicate Step(s: State, t: State) {
    && s.phase != Stopped
    && (if Busy(t.phase) then t.epoch == s.epoch + 1
        else Busy(s.phase) && t.epoch == s.epoch && (t.phase == Agent ==> s.phase == Resuming))
  }

  lemma {:induction false} RunsAreSteps(h: seq<State>, i: nat)
    requires IsRun(h) && i + 1 < |h|
    ensures Step(h[i], h[i + 1])
    decreases |h|
  {
    var k, c, reach :| 0 < k < |h| && IsRun(h[..k]) && EndsWith(h, k, c, reach);
    hide IsRun, EndsWith;
    if i + 1 < k {
      RunsAreSteps(h[..k], i);
      assert h[..k][i] == h[i] && h[..k][i + 1] == h[i + 1];
    } else {
      LastCallIsSteps(h, k, c, reach, i);
    }
  }

  lemma LastCallIsSteps(h: seq<State>, k: nat, c: Call, reach: nat, i: nat)
    requires 0 < k <= i + 1 < |h| && EndsWith(h, k, c, reach)
    ensures Step(h[i], h[i + 1])
  {
    hide Step, First, Second, Proceeds;
    CallsAreSteps(h[k - 1], c);
    assert h[k] == h[k..][0];
    if i >= k { assert h[k + 1] == h[k..][1]; }
  }

  lemma CallsAreSteps(s: State, c: Call)
    requires Proceeds(s, c)
    ensures Step(s, First(s, c)) && Step(First(s, c), Second(s, c))
  {}

  // ---- What every run promises ----

  lemma {:induction false} EpochsNeverDecrease(h: seq<State>, i: nat, j: nat)
    requires IsRun(h) && i <= j < |h|
    ensures h[i].epoch <= h[j].epoch
    decreases j - i
  {
    hide IsRun;
    if i < j {
      RunsAreSteps(h, i);
      EpochsNeverDecrease(h, i + 1, j);
    }
  }

  // The agent gets control only from `resuming`, under an epoch above every earlier one but that
  // of the `resuming` write itself.
  lemma AgentEpochsAreNew(h: seq<State>, j: nat)
    requires IsRun(h) && 0 < j < |h| && h[j].phase == Agent
    ensures h[j - 1].phase == Resuming && h[j - 1].epoch == h[j].epoch
    ensures forall i :: 0 <= i < j - 1 ==> h[i].epoch < h[j].epoch
    ensures forall i :: 0 <= i < j && h[i].phase == Agent ==> h[i].epoch < h[j].epoch
  {
    hide IsRun;
    RunsAreSteps(h, j - 1);
    forall i | 0 <= i < j - 1 ensures h[i].epoch < h[j].epoch {
      EpochsNeverDecrease(h, i, j - 2);
      RunsAreSteps(h, j - 2);
    }
  }

  predicate CanDispatch(s: State, epoch: int) {
    s.phase == Agent && s.epoch == epoch
  }

  // Once anything was written after a takeover or a stop began, no epoch known before can dispatch.
  lemma SupersededEpochsNeverDispatch(h: seq<State>, i: nat, k: nat, epoch: int)
    requires IsRun(h) && i < k < |h| && epoch <= h[i].epoch
    requires h[i].phase == Agent || h[i + 1].phase == TakeoverPending || h[i + 1].phase == Stopping
    ensures !CanDispatch(h[k], epoch)
  {
    hide IsRun;
    RunsAreSteps(h, i);
    EpochsNeverDecrease(h, i + 1, k);
  }

  lemma StoppedIsAbsorbing(h: seq<State>, i: nat)
    requires IsRun(h) && i < |h| && h[i].phase == Stopped
    ensures i == |h| - 1
  {
    hide IsRun;
    if i + 1 < |h| { RunsAreSteps(h, i); }
  }

  // Each dispatch right is one contiguous stretch of the run: same epoch, same write.
  lemma DispatchIdentifiesTheWrite(h: seq<State>, i: nat, j: nat, epoch: int)
    requires IsRun(h) && i < |h| && j < |h| && CanDispatch(h[i], epoch) && CanDispatch(h[j], epoch)
    ensures i == j
  {
    hide IsRun;
    if i < j { AgentEpochsAreNew(h, j); }
    if j < i { AgentEpochsAreNew(h, i); }
  }

  // ---- The coordinator ----

  /** One session: the file, and the states that were written to it. */
  class BrowserControlCoordinator {
    const sessionId: string
    var stored: Option<Json>
    ghost var history: seq<State>

    ghost predicate Valid() reads this {
      && IsRun(history)
      && (history == [] <==> stored == None)
      && (history != [] ==> stored == Some(Reparsed(ToJson(sessionId, Last()))) && Durable(Last()))
    }

    ghost function Last(): (s: State)
      requires history != []
      reads this
    {
      history[|history| - 1]
    }

    constructor (sessionId: string)
      ensures Valid() && history == []
    {
      this.sessionId, stored, history := sessionId, None, [];
    }

    method Write(s: State, now: real) returns (r: State)
      requires Durable(s)
      modifies this
      ensures r == s && stored == Some(Reparsed(ToJson(sessionId, s))) && history == old(history) + [s]
    {
      NormalReadsBack(sessionId, s, now);
      r := NormalizeState(ToJson(sessionId, s), now);
      stored := Some(Reparsed(ToJson(sessionId, r)));
      history := history + [s];
    }

    // Reading creates the file when there is none.
    method Get(now: real) returns (s: State)
      requires Valid()
      modifies this
      ensures Valid() && history != [] && s == Last()
      ensures history == if old(history) == [] then [Initial(now)] else old(history)
    {
      if stored.Some? {
        ReadsReturnWhatWasWritten(sessionId, Last(), now);
        return NormalizeState(stored.value, now);
      }
      s := Write(Initial(now), now);
    }

    method MayDispatch(epoch: int, now: real) returns (ok: bool)
      requires Valid()
      modifies this
      ensures Valid() && history != [] && ok == CanDispatch(Last(), epoch)
      ensures history == if old(history) == [] then [Initial(now)] else old(history)
    {
      var s := Get(now);
      ok := s.phase == Agent && s.epoch == epoch;
    }

    // One write of a call that is under way.
    method Record(s: State, now: real)
      requires IsRun(history + [s]) && Durable(s)
      modifies this
      ensures Valid() && history == old(history) + [s] && Last() == s
    {
      hide IsRun, Durable, ToJson, Reparsed;
      var _ := Write(s, now);
    }

    // `reach` is how many of its writes a call makes before the process stops or an answer is lost.
    method TakeOver(interrupted: bool, upstreamRisk: bool, at: real, later: real, reach: nat) returns (r: Option<State>)
      requires Valid()
      modifies this
      ensures Valid() && Performed(old(history), Call.TakeOver(interrupted, upstreamRisk, at, later), reach, history)
      ensures r.Some? ==> history != [] && r.value == Last()
      ensures r.Some? <==> reach >= 2 && Entry(old(history), at).phase !in {Stopped, Stopping}
    {
      hide IsRun, Durable, ToJson, Reparsed, Trim, Performed;
      ghost var call := Call.TakeOver(interrupted, upstreamRisk, at, later);
      var current := Get(at);
      ghost var h := history;
      if current.phase == Stopped || current.phase == Stopping || reach == 0 {
        CallStopsHere(old(history), h, call, reach);
        return None;
      }
      var epoch := current.epoch + 1;
      CallGoesOn(old(history), h, call);
      var first := current.(phase := TakeoverPending, epoch := epoch, updatedAt := at,
                            reason := "user_takeover_requested", pendingActionRisk := true);
      Record(first, at);
      if reach == 1 { return None; }
      var latest := Get(later);
      var second := latest.(phase := Human, epoch := epoch, updatedAt := later,
                            reason := if !interrupted then "agent_interrupt_unconfirmed"
                                      else if upstreamRisk then "action_completion_unconfirmed"
                                      else "agent_interrupted",
                            pendingActionRisk := !interrupted || upstreamRisk);
      Record(second, later);
      return Some(second);
    }

    method Resume(summary: string, delivered: bool, readback: bool, at: real, later: real, reach: nat)
      returns (r: Option<State>)
      requires Valid()
      modifies this
      ensures Valid()
      ensures 0 < |Trim(summary)| <= SUMMARY_MAX_CHARS ==>
                Performed(old(history), Call.Resume(summary, delivered, readback, at, later), reach, history)
      ensures !(0 < |Trim(summary)| <= SUMMARY_MAX_CHARS) ==> history == old(history) && r == None
      ensures r.Some? ==> history != [] && r.value == Last()
      ensures r.Some? <==> reach >= 2 && Acceptable(summary) && Entry(old(history), at).phase in {Human, Uncertain}
    {
      hide IsRun, Durable, ToJson, Reparsed, Trim, Performed;
      var clean := Trim(summary);
      if clean == "" || |clean| > SUMMARY_MAX_CHARS { return None; }
      ghost var call := Call.Resume(summary, delivered, readback, at, later);
      var current := Get(at);
      ghost var h := history;
      if (current.phase != Human && current.phase != Uncertain) || reach == 0 {
        CallStopsHere(old(history), h, call, reach);
        return None;
      }
      var epoch := current.epoch + 1;
      CallGoesOn(old(history), h, call);
      var first := current.(phase := Resuming, epoch := epoch, updatedAt := at,
                            reason := "user_resume_requested", pendingActionRisk := false);
      Record(first, at);
      if reach == 1 { return None; }
      var latest := Get(later);
      var second;
      if !delivered || !readback {
        second := latest.(phase := Uncertain, epoch := epoch, updatedAt := later,
                          reason := if readback then "handoff_delivery_unconfirmed"
                              else "semantic_readback_unconfirmed",
                          pendingActionRisk := true);
      } else {
        second := latest.(phase := Agent, epoch := epoch, updatedAt := later, reason := "handoff_verified",
                          pendingActionRisk := false, lastHandoff := Some(Handoff(clean, Finite(later))));
      }
      Record(second, later);
      return Some(second);
    }

    method Stop(interrupted: bool, failed: bool, at: real, later: real, reach: nat) returns (r: Option<State>)
      requires Valid()
      modifies this
      ensures Valid() && Performed(old(history), Call.Stop(interrupted, failed, at, later), reach, history)
      ensures r.Some? ==> history != [] && r.value == Last() && r.value.phase == Stopped
      ensures r.Some? <==> Entry(old(history), at).phase == Stopped || (reach >= 2 && !failed)
    {
      hide IsRun, Durable, ToJson, Reparsed, Trim, Performed;
      ghost var call := Call.Stop(interrupted, failed, at, later);
      var current := Get(at);
      ghost var h := history;
      if current.phase == Stopped || reach == 0 {
        CallStopsHere(old(history), h, call, reach);
        return if current.phase == Stopped then Some(current) else None;
      }
      var epoch := current.epoch + 1;
      CallGoesOn(old(history), h, call);
      var first := current.(phase := Stopping, epoch := epoch, updatedAt := at,
                            reason := "browser_stop_requested", pendingActionRisk := true);
      Record(first, at);
      if reach == 1 { return None; }
      var latest := Get(later);
      if failed {
        var unsure := latest.(phase := Uncertain, epoch := epoch, updatedAt := later,
                              reason := "browser_stop_unconfirmed", pendingActionRisk := true);
        Record(unsure, later);
        return None;
      }
      var second := latest.(phase := Stopped, epoch := epoch, updatedAt := later,
                            reason := if interrupted then "browser_stopped"
                                else "browser_stopped_interrupt_unconfirmed",
                            pendingActionRisk := !interrupted);
      Record(second, later);
      return Some(second);
    }
  }

  lemma CallGoesOn(before: seq<State>, h: seq<State>, c: Call)
    requires IsRun(h) && h == Opened(before, c.at) && Durable(h[|h| - 1]) && Proceeds(h[|h| - 1], c)
    ensures var s := h[|h| - 1];
            && Durable(First(s, c)) && Durable(Second(s, c))
            && IsRun(h + [First(s, c)]) && IsRun(h + [First(s, c)] + [Second(s, c)])
            && Performed(before, c, 1, h + [First(s, c)])
            && (forall n: nat :: n >= 2 ==> Performed(before, c, n, h + [First(s, c)] + [Second(s, c)]))
  {
    hide IsRun, First, Second, Durable, Proceeds;
    var s := h[|h| - 1];
    assert h + [First(s, c)] == h + Writes(s, c, 1);
    assert h + [First(s, c)] + [Second(s, c)] == h + Writes(s, c, 2);
    WritesAreDurable(h[|h| - 1], c);
    RunGoesOn(h, c, 1);
    RunGoesOn(h, c, 2);
  }

  lemma CallStopsHere(before: seq<State>, h: seq<State>, c: Call, reach: nat)
    requires h == Opened(before, c.at) && (reach == 0 || !Proceeds(h[|h| - 1], c))
    ensures Performed(before, c, reach, h)
  {
    hide Proceeds, First, Second;
    assert h + [] == h;
  }

  // The file went from `before` to `after` by the first `reach` writes of the call.
  ghost predicate Performed(before: seq<State>, c: Call, reach: nat, after: seq<State>) {
    var start := Opened(before, c.at);
    after == start + Writes(start[|start| - 1], c, reach)
  }

  // Reading a session that has no file yet creates it.
  function Opened(h: seq<State>, now: real): (g: seq<State>)
    ensures g != []
  {
    if h == [] then [Initial(now)] else h
  }

  // The state a call finds.
  function Entry(h: seq<State>, now: real): (s: State) {
    if h == [] then Initial(now) else h[|h| - 1]
  }

  // A summary that says something and is not too long.
  predicate Acceptable(summary: string) {
    0 < |Trim(summary)| <= SUMMARY_MAX_CHARS
  }

  // The first `reach` of two states were written.
  ghost predicate Wrote(before: seq<State>, now: real, first: State, second: State, reach: nat, after: seq<State>) {
    after == Opened(before, now) + (if reach == 0 then [] else if reach == 1 then [first] else [first, second])
  }

  // A takeover is announced at risk under the next epoch; then the human is in control, and the risk is over only if
  // the agent confirmed the interrupt and nothing was pending.
  lemma TakeOverMeans(
    before: seq<State>, interrupted: bool, risk: bool, at: real, later: real, reach: nat, after: seq<State>)
    requires Performed(before, TakeOver(interrupted, risk, at, later), reach, after)
    ensures var s := Entry(before, at);
      if s.phase in {Stopped, Stopping} then after == Opened(before, at)
      else
        Wrote(before, at,
              State(TakeoverPending, s.epoch + 1, at, "user_takeover_requested", true, s.lastHandoff),
              State(Human, s.epoch + 1, later,
                    if !interrupted then "agent_interrupt_unconfirmed"
                    else if risk then "action_completion_unconfirmed" else "agent_interrupted",
                    !interrupted || risk, s.lastHandoff), reach, after)
  {
  }

  // Resuming is announced under the next epoch; the agent is in control with the trimmed summary only if the handoff
  // was delivered and read back, and otherwise the session is uncertain and at risk.
  lemma ResumeMeans(
    before: seq<State>, summary: string, delivered: bool, readback: bool, at: real, later: real, reach: nat,
    after: seq<State>)
    requires Performed(before, Resume(summary, delivered, readback, at, later), reach, after)
    ensures var s := Entry(before, at);
      if !Acceptable(summary) || s.phase !in {Human, Uncertain} then after == Opened(before, at)
      else
        Wrote(before, at,
              State(Resuming, s.epoch + 1, at, "user_resume_requested", false, s.lastHandoff),
              if delivered && readback then
                State(Agent, s.epoch + 1, later, "handoff_verified", false, Some(Handoff(Trim(summary), Finite(later))))
              else
                State(Uncertain, s.epoch + 1, later,
                      if readback then "handoff_delivery_unconfirmed" else "semantic_readback_unconfirmed",
                      true, s.lastHandoff), reach, after)
  {
    hide Trim;
  }

  // Stopping is announced at risk under the next epoch; the session is stopped if the stop went through, at risk if the
  // interrupt was not confirmed, and uncertain otherwise.
  lemma StopMeans(
    before: seq<State>, interrupted: bool, failed: bool, at: real, later: real, reach: nat, after: seq<State>)
    requires Performed(before, Stop(interrupted, failed, at, later), reach, after)
    ensures var s := Entry(before, at);
      if s.phase.Stopped? then after == Opened(before, at)
      else
        Wrote(before, at,
              State(Stopping, s.epoch + 1, at, "browser_stop_requested", true, s.lastHandoff),
              if failed then State(Uncertain, s.epoch + 1, later, "browser_stop_unconfirmed", true, s.lastHandoff)
              else
                State(Stopped, s.epoch + 1, later,
                      if interrupted then "browser_stopped" else "browser_stopped_interrupt_unconfirmed",
                      !interrupted, s.lastHandoff), reach, after)
  {
  }

  lemma WritesAreDurable(s: State, c: Call)
    requires Durable(s) && Proceeds(s, c)
    ensures Durable(First(s, c)) && Durable(Second(s, c))
  {}
}
