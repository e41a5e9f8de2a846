/**
 Rotation of OAuth connection credentials by compare-and-swap on the stored envelope.
 Refreshes and revokes of one connection may overlap in any number; a refresh is a read, a
 pause for the provider, and one guarded UPDATE.
 */
module Credentials {
  import opened Options
  import opened AppTables

  type Envelope = nat

  datatype ConnectionStatus = Active | RefreshRequired | Revoked

  datatype Connection = Connection(status: ConnectionStatus, envelope: Option<Envelope>)

  /** A refresh in flight: the connection it refreshes and the envelope it read. */
  datatype Flight = Flight(connection: Id, read: Envelope)

  datatype Store = Store(connections: map<Id, Connection>, drawn: set<Envelope>, flights: map<Id, Flight>)

  datatype Step =
    | ReadForRefresh(connection: Id, flight: Id)
    | Rotate(flight: Id, credential: Envelope)
    | MarkFailed(flight: Id)
    | Revoke(connection: Id)
    | Upsert(connection: Id, credential: Envelope)

  function Stored(st: Store, c: Id): Option<Envelope> {
    if c in st.connections then st.connections[c].envelope else None
  }

  /** The WHERE clause of both guarded updates: not revoked, and the envelope read is the one stored. */
  predicate StillStored(st: Store, f: Flight) {
    && f.connection in st.connections && !st.connections[f.connection].status.Revoked?
    && st.connections[f.connection].envelope == Some(f.read)
  }

  ghost function Set(st: Store, c: Id, status: ConnectionStatus, e: Option<Envelope>): Store {
    st.(connections := st.connections[c := Connection(status, e)])
  }

  /** The state after a step; `None` when the call throws or its UPDATE finds no row. */
  ghost function Try(st: Store, s: Step): Option<Store> {
    match s
    case ReadForRefresh(c, f) =>
      if c !in st.connections || st.connections[c].status.Revoked? || st.connections[c].envelope.None?
         || f in st.flights then None
      else Some(st.(flights := st.flights[f := Flight(c, st.connections[c].envelope.value)]))
    case Rotate(f, e) =>
      if f !in st.flights || e in st.drawn || !StillStored(st, st.flights[f]) then None
      else Some(Set(st, st.flights[f].connection, Active, Some(e)).(drawn := st.drawn + {e}))
    case MarkFailed(f) =>
      if f !in st.flights || !StillStored(st, st.flights[f]) then None
      else Some(Set(st, st.flights[f].connection, RefreshRequired, Some(st.flights[f].read)))
    case Revoke(c) =>
      if c !in st.connections then None else Some(Set(st, c, Revoked, None))
    case Upsert(c, e) =>
      if e in st.drawn then None
      else Some(Set(st, c, Active, Some(e)).(drawn := st.drawn + {e}))
  }

  ghost function Apply(st: Store, s: Step): Store {
    if Try(st, s).Some? then Try(st, s).value else st
  }

  ghost predicate IsRun(states: seq<Store>, steps: seq<Step>) {
    && |states| == |steps| + 1
    && states[0] == Store(map[], {}, map[])
    && forall i | 0 <= i < |steps| :: states[i + 1] == Apply(states[i], steps[i])
  }

  /** Stored and read envelopes have been drawn, and revoked connections hold none. */
  ghost predicate Inv(st: Store) {
    && (forall c | c in st.connections && st.connections[c].envelope.Some? ::
          st.connections[c].envelope.value in st.drawn && !st.connections[c].status.Revoked?)
    && (forall f | f in st.flights :: st.flights[f].read in st.drawn)
  }

  /** An envelope that was drawn and is not stored for a connection is never stored for it again. */
  ghost predicate Evolves(st: Store, st': Store) {
    && st.drawn <= st'.drawn
    && (forall f | f in st.flights :: f in st'.flights && st'.flights[f] == st.flights[f])
    && (forall c, e | e in st.drawn && Stored(st', c) == Some(e) :: Stored(st, c) == Some(e))
  }

  lemma StepEvolves(st: Store, s: Step)
    requires Inv(st)
    ensures Inv(Apply(st, s)) && Evolves(st, Apply(st, s))
  {
  }

  lemma {:induction false} RunKeepsInv(states: seq<Store>, steps: seq<Step>, i: nat)
    requires IsRun(states, steps) && i < |states|
    ensures Inv(states[i])
  {
    hide Apply;
    if i > 0 {
      RunKeepsInv(states, steps, i - 1);
      StepEvolves(states[i - 1], steps[i - 1]);
    }
  }

  lemma {:induction false} NeverStoredAgain(states: seq<Store>, steps: seq<Step>, i: nat, j: nat, c: Id, e: Envelope)
    requires IsRun(states, steps) && i <= j < |states| && e in states[i].drawn && Stored(states[i], c) != Some(e)
    ensures Stored(states[j], c) != Some(e)
    decreases j - i
  {
    hide Apply, Inv;
    if i < j {
      RunKeepsInv(states, steps, i);
      StepEvolves(states[i], steps[i]);
      NeverStoredAgain(states, steps, i + 1, j, c, e);
    }
  }

  lemma {:induction false} FlightsStay(states: seq<Store>, steps: seq<Step>, i: nat, j: nat, f: Id)
    requires IsRun(states, steps) && i <= j < |states| && f in states[i].flights
    ensures f in states[j].flights && states[j].flights[f] == states[i].flights[f]
    decreases j - i
  {
    hide Apply, Inv;
    if i < j {
      RunKeepsInv(states, steps, i);
      StepEvolves(states[i], steps[i]);
      FlightsStay(states, steps, i + 1, j, f);
    }
  }

  /** Step `i` is the read that opens flight `f`. */
  ghost predicate Opens(states: seq<Store>, steps: seq<Step>, i: nat, f: Id) {
    i < |steps| && i < |states| && steps[i].ReadForRefresh? && steps[i].flight == f && Try(states[i], steps[i]).Some?
  }

  /** Step `j` is a rotation or a failure mark of flight `f` that changes the table. */
  ghost predicate Settles(states: seq<Store>, steps: seq<Step>, j: nat, f: Id) {
    && j < |steps| && j < |states| && Try(states[j], steps[j]).Some?
    && ((steps[j].Rotate? && steps[j].flight == f) || (steps[j].MarkFailed? && steps[j].flight == f))
  }

  /** A refresh takes effect only if the envelope it read has stayed in place, unrevoked, from its read until its write:
      what it installs directly replaces what it read, and what it marks is what it read. */
  lemma RefreshReplacesWhatItRead(states: seq<Store>, steps: seq<Step>, i: nat, k: nat, j: nat, f: Id)
    requires IsRun(states, steps) && Opens(states, steps, i, f) && Settles(states, steps, j, f) && i < k <= j
    ensures f in states[j].flights
    ensures var fl := states[j].flights[f];
      && fl.connection == steps[i].connection
      && Stored(states[i], fl.connection) == Some(fl.read)
      && Stored(states[k], fl.connection) == Some(fl.read)
      && !states[k].connections[fl.connection].status.Revoked?
  {
    RunKeepsInv(states, steps, i);
    RunKeepsInv(states, steps, k);
    FlightsStay(states, steps, i + 1, j, f);
    var fl := states[j].flights[f];
    assert fl.read in states[i].drawn;
    DrawnStays(states, steps, i, k, fl.read);
    if Stored(states[k], fl.connection) != Some(fl.read) {
      NeverStoredAgain(states, steps, k, j, fl.connection, fl.read);
      assert false;
    }
  }

  lemma {:induction false} DrawnStays(states: seq<Store>, steps: seq<Step>, i: nat, j: nat, e: Envelope)
    requires IsRun(states, steps) && i <= j < |states| && e in states[i].drawn
    ensures e in states[j].drawn
    decreases j - i
  {
    hide Apply, Inv;
    if i < j {
      RunKeepsInv(states, steps, i);
      StepEvolves(states[i], steps[i]);
      DrawnStays(states, steps, i + 1, j, e);
    }
  }

  /** A refresh that was under way when its connection was revoked never takes effect, even if a later grant
      reactivates it. */
  lemma RefreshNeverOutlivesRevoke(states: seq<Store>, steps: seq<Step>, i: nat, k: nat, j: nat, f: Id)
    requires IsRun(states, steps) && Opens(states, steps, i, f) && i < k < j < |steps|
    requires steps[k] == Revoke(steps[i].connection)
    ensures !Settles(states, steps, j, f)
  {
    if Settles(states, steps, j, f) {
      RefreshReplacesWhatItRead(states, steps, i, k + 1, j, f);
      RefreshReplacesWhatItRead(states, steps, i, k, j, f);
    }
  }

  /** Step `k` grants connection `c` anew. */
  ghost predicate Grants(states: seq<Store>, steps: seq<Step>, k: nat, c: Id) {
    && k < |steps| && k < |states| && Try(states[k], steps[k]).Some?
    && steps[k].Upsert? && steps[k].connection == c
  }

  lemma RevokedStays(st: Store, s: Step, c: Id)
    requires c in st.connections && st.connections[c] == Connection(Revoked, None)
    requires !(s.Upsert? && s.connection == c && Try(st, s).Some?)
    ensures c in Apply(st, s).connections && Apply(st, s).connections[c] == Connection(Revoked, None)
  {
  }

  /** A connection that was revoked is revoked, without a credential, until it is granted anew. */
  lemma {:induction false} RevokedUntilGranted(states: seq<Store>, steps: seq<Step>, i: nat, j: nat, c: Id)
    requires IsRun(states, steps) && i < j < |states| && steps[i] == Revoke(c) && Try(states[i], steps[i]).Some?
    requires forall k | i < k < j :: !Grants(states, steps, k, c)
    ensures c in states[j].connections && states[j].connections[c] == Connection(Revoked, None)
    decreases j
  {
    if i + 1 < j {
      hide Apply;
      RevokedUntilGranted(states, steps, i, j - 1, c);
      assert !Grants(states, steps, j - 1, c);
      RevokedStays(states[j - 1], steps[j - 1], c);
    }
  }

  /** Of all refreshes that read one envelope, at most one installs a credential. */
  lemma OneRotationPerEnvelope(states: seq<Store>, steps: seq<Step>, i: nat, j: nat)
    requires IsRun(states, steps) && i < |steps| && j < |steps|
    requires steps[i].Rotate? && Try(states[i], steps[i]).Some? && steps[j].Rotate? && Try(states[j], steps[j]).Some?
    requires states[i].flights[steps[i].flight] == states[j].flights[steps[j].flight]
    ensures i == j
  {
    if i != j {
      var (p, q) := if i < j then (i, j) else (j, i);
      var fl := states[p].flights[steps[p].flight];
      RunKeepsInv(states, steps, p);
      DrawnStays(states, steps, p, p + 1, fl.read);
      NeverStoredAgain(states, steps, p + 1, q, fl.connection, fl.read);
    }
  }

  /** A statement commits its step or finds no row; it keeps the invariant, and no envelope that was replaced comes
      back. */
  ghost predicate Performs(st: Store, s: Step, ok: bool, st': Store) {
    && ok == Try(st, s).Some? && st' == Apply(st, s)
    && (Inv(st) ==> Inv(st') && Evolves(st, st'))
  }

  lemma StepPerforms(st: Store, s: Step)
    ensures Performs(st, s, Try(st, s).Some?, Apply(st, s))
  {
    if Inv(st) {
      StepEvolves(st, s);
    }
  }

  /** The connection rows as the service's statements update them. */
  class ConnectionTable {
    var connections: map<Id, Connection>
    var drawn: set<Envelope>
    var flights: map<Id, Flight>

    ghost function View(): Store
      reads this
    {
      Store(connections, drawn, flights)
    }

    /** readUsableConnection, and the envelope the refresh will present. */
    method Read(c: Id, f: Id) returns (ok: bool)
      modifies this
      ensures Performs(old(View()), ReadForRefresh(c, f), ok, View())
      ensures ok <==>
                && c in connections && connections[c].status != Revoked && connections[c].envelope.Some?
                && f !in old(flights)
      ensures ok ==> flights == old(flights)[f := Flight(c, connections[c].envelope.value)]
      ensures connections == old(connections) && drawn == old(drawn)
    {
      hide Performs;
      StepPerforms(View(), ReadForRefresh(c, f));
      if c !in connections || connections[c].status == Revoked || connections[c].envelope == None || f in flights {
        return false;
      }
      flights := flights[f := Flight(c, connections[c].envelope.value)];
      return true;
    }

    /** The two guarded updates of rotateConnectionCredential: install the rotated credential, or record that
        refreshing failed. */
    method Settle(f: Id, rotated: Option<Envelope>) returns (ok: bool)
      modifies this
      ensures Performs(old(View()), Settlement(f, rotated), ok, View())
      ensures ok <==>
                && f in flights && flights[f].connection in old(connections)
                && old(connections)[flights[f].connection].status != Revoked
                && old(connections)[flights[f].connection].envelope == Some(flights[f].read)
                && (rotated.Some? ==> rotated.value !in old(drawn))
      ensures ok ==>
        && f in flights
        && var c := flights[f].connection;
          && connections == old(connections)[c := connections[c]]
          && connections[c] == (if rotated.Some? then Connection(Active, rotated)
                                else Connection(RefreshRequired, Some(flights[f].read)))
      ensures Inv(old(View())) && ok && rotated.Some? ==> !StillStored(View(), flights[f])
      ensures !ok ==> View() == old(View())
    {
      hide Performs;
      StepPerforms(View(), Settlement(f, rotated));
      if f !in flights || (rotated.Some? && rotated.value in drawn) {
        return false;
      }
      var fl := flights[f];
      if fl.connection !in connections || connections[fl.connection].status == Revoked
         || connections[fl.connection].envelope != Some(fl.read) {
        return false;
      }
      if rotated.Some? {
        drawn := drawn + {rotated.value};
        connections := connections[fl.connection := Connection(Active, rotated)];
      } else {
        connections := connections[fl.connection := connections[fl.connection].(status := RefreshRequired)];
      }
      return true;
    }

    method RevokeConnection(c: Id) returns (ok: bool)
      modifies this
      ensures Performs(old(View()), Revoke(c), ok, View())
      ensures ok <==> c in old(connections)
      ensures ok ==> connections == old(connections)[c := Connection(Revoked, None)]
      ensures ok ==> forall f | f in flights && flights[f].connection == c :: !StillStored(View(), flights[f])
      ensures flights == old(flights) && drawn == old(drawn)
    {
      hide Performs;
      StepPerforms(View(), Revoke(c));
      if c !in connections {
        return false;
      }
      connections := connections[c := Connection(Revoked, None)];
      return true;
    }

    method UpsertConnection(c: Id, e: Envelope) returns (ok: bool)
      modifies this
      ensures Performs(old(View()), Upsert(c, e), ok, View())
      ensures ok <==> e !in old(drawn)
      ensures ok ==> connections == old(connections)[c := Connection(Active, Some(e))] && drawn == old(drawn) + {e}
      ensures flights == old(flights)
      ensures Inv(old(View())) && ok ==>
                forall f | f in flights && flights[f].connection == c :: !StillStored(View(), flights[f])
    {
      hide Performs;
      StepPerforms(View(), Upsert(c, e));
      if e in drawn {
        return false;
      }
      drawn := drawn + {e};
      connections := connections[c := Connection(Active, Some(e))];
      return true;
    }
  }

  function Settlement(f: Id, rotated: Option<Envelope>): Step {
    if rotated.Some? then Rotate(f, rotated.value) else MarkFailed(f)
  }
}
