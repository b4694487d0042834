/** The trace of effects is write-only: no step of the worker reads it, so every step does
    the same thing whatever effects were recorded before. */
module TraceProperties {
  import opened DisputeTypes
  import opened DisputeMetadata
  import opened Reconciliation

  /** The state without its trace of effects. */
  function Strip(s: State): State
  {
    s.(events := [])
  }

  /** The same state, with `earlier` effects in front of its trace. */
  function Shift(s: State, earlier: seq<Event>): State
  {
    s.(events := earlier + s.events)
  }

  /** Every state is its stripped form with its trace put back. */
  lemma ShiftStrip(s: State)
    ensures Shift(Strip(s), s.events) == s
  {
    assert s.events + [] == s.events;
  }

  lemma EmitShift(s: State, e: Event, earlier: seq<Event>)
    ensures Emit(Shift(s, earlier), e) == Shift(Emit(s, e), earlier)
  {
    assert earlier + (s.events + [e]) == (earlier + s.events) + [e];
  }

  lemma BlockServerShift(s: State, sid: ServerId, f: set<Call>, earlier: seq<Event>)
    requires sid in s.reasons && sid in s.tables.ownerOf
    ensures BlockServer(Shift(s, earlier), sid, f) ==
            (Shift(BlockServer(s, sid, f).0, earlier), BlockServer(s, sid, f).1)
  {
    var u := s.tables.ownerOf[sid];
    var q := QuarantineEvents(u, sid);
    var s1 := Emit(s, q[0]);
    var s2 := Emit(s1, q[1]);
    var s3 := s2.(reasons := s2.reasons[sid := DISPUTE_QUARANTINE]);
    EmitShift(s, q[0], earlier);
    EmitShift(s1, q[1], earlier);
    EmitShift(s3, q[2], earlier);
  }

  lemma {:induction false} BlockAllShift(s: State, sids: seq<ServerId>, f: set<Call>, earlier: seq<Event>)
    requires forall i :: 0 <= i < |sids| ==> sids[i] in s.reasons && sids[i] in s.tables.ownerOf
    ensures BlockAll(Shift(s, earlier), sids, f) ==
            (Shift(BlockAll(s, sids, f).0, earlier), BlockAll(s, sids, f).1)
    decreases |sids|
  {
    if sids != [] {
      BlockServerShift(s, sids[0], f, earlier);
      BlockAllShift(BlockServer(s, sids[0], f).0, sids[1..], f, earlier);
    }
  }

  lemma NotifyShift(s: State, u: UserId, servers: seq<ServerId>, accountId: AccountId, f: set<Call>, earlier: seq<Event>)
    ensures NotifyAndLogRisk(Shift(s, earlier), u, servers, accountId, f) ==
            (Shift(NotifyAndLogRisk(s, u, servers, accountId, f).0, earlier),
             NotifyAndLogRisk(s, u, servers, accountId, f).1)
  {
    var s1 := Emit(s, ValidationMail(u, servers));
    EmitShift(s, ValidationMail(u, servers), earlier);
    var s2 := if NotifySupport in f then s1 else Emit(s1, SupportNotice(u, servers));
    EmitShift(s1, SupportNotice(u, servers), earlier);
    var s3 := Emit(s2, RiskyIpsLogged(accountId));
    EmitShift(s2, RiskyIpsLogged(accountId), earlier);
    EmitShift(s3, RiskyCardsLogged(accountId), earlier);
  }

  lemma EnforceShift(s: State, d: Dispute, receipt: Receipt, account: Account, f: set<Call>, earlier: seq<Event>)
    requires Valid(s)
    ensures Enforce(Shift(s, earlier), d, receipt, account, f) ==
            (Shift(Enforce(s, d, receipt, account, f).0, earlier), Enforce(s, d, receipt, account, f).1)
  {
    var u := account.userId;
    if LoadUser !in f && u in s.tables.serversOf && CreateChargebackActivity !in f {
      var chargeback := ChargebackActivity(u, d, receipt);
      EmitShift(s, chargeback, earlier);
      var s1 := Emit(s, chargeback);
      var servers := s.tables.serversOf[u];
      if LoadServers !in f {
        BlockAllShift(s1, servers, f, earlier);
        var (s2, c) := BlockAll(s1, servers, f);
        if c.Normal? {
          NotifyShift(s2, u, servers, account.id, f, earlier);
        }
      }
    }
  }

  lemma UpdateDisputeShift(s: State, id: string, receipt: Receipt, f: set<Call>, earlier: seq<Event>)
    ensures UpdateDispute(Shift(s, earlier), id, receipt, f) ==
            (Shift(UpdateDispute(s, id, receipt, f).0, earlier), UpdateDispute(s, id, receipt, f).1)
  {
    if id in s.gateway {
      var m := Marker(receipt);
      EmitShift(s.(gateway := s.gateway[id := s.gateway[id].(metadata := m)]), MetadataSaved(id, m), earlier);
    }
  }

  lemma ReconcileShift(s: State, d: Dispute, f: set<Call>, earlier: seq<Event>)
    requires Valid(s)
    ensures Reconcile(Shift(s, earlier), d, f) == (Shift(Reconcile(s, d, f).0, earlier), Reconcile(s, d, f).1)
  {
    if LookupFault(s, d, f).None? && Correlate(s, d).Matched? {
      var m := Correlate(s, d);
      EnforceShift(s, d, m.receipt, m.account, f, earlier);
      var (t, c) := Enforce(s, d, m.receipt, m.account, f);
      UpdateDisputeShift(t, d.id, m.receipt, f, earlier);
    }
  }

  /** One dispute is handled the same whatever effects were recorded before it. */
  lemma HandleShift(s: State, d: Dispute, f: set<Call>, earlier: seq<Event>)
    requires Valid(s)
    ensures Handle(Shift(s, earlier), d, f) == (Shift(Handle(s, d, f).0, earlier), Handle(s, d, f).1)
  {
    ReconcileShift(s, d, f, earlier);
    var (t, o) := Reconcile(s, d, f);
    if o.Failed? {
      EmitShift(t, ErrorTracked(o.error, d.charge, SOURCE), earlier);
    }
  }

  /** A batch runs the same whatever effects were recorded before it. */
  lemma {:induction false} RunShift(s: State, ds: seq<Dispute>, oracle: Oracle, earlier: seq<Event>)
    requires Valid(s)
    ensures Run(Shift(s, earlier), ds, oracle) == Shift(Run(s, ds, oracle), earlier)
    decreases |ds|
  {
    if ds != [] {
      var f := FaultsFor(oracle, ds[0].id);
      HandleShift(s, ds[0], f, earlier);
      RunShift(Handle(s, ds[0], f).0, ds[1..], oracle, earlier);
    }
  }
}
