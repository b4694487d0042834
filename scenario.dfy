/** A concrete batch: one user with two servers, one of them under validation already. */
module Scenario {
  import opened DisputeTypes
  import opened DisputeMetadata
  import opened Reconciliation
  import opened ServerProperties
  import opened TraceProperties
  import opened DisputeProperties
  import opened BatchProperties

  /** Receipt 12, number "R-12", of account 5. */
  const Receipt12 := Receipt(12, "R-12", 5)

  /** User 7 owns servers 1 (reason 0) and 2 (reason 3, under validation already);
      account 5 belongs to user 7; charge "ch_1" was paid with receipt 12; the gateway
      holds one unmarked dispute "dp_1" on that charge. */
  function World(): (s: State)
    ensures Valid(s)
  {
    State(Tables(map[1 := 7, 2 := 7], map[7 := [1, 2]], map[5 := Account(5, 7)], map["ch_1" := Receipt12]),
          map[1 := 0, 2 := 3],
          map["dp_1" := Listed()],
          [])
  }

  /** The dispute as listed: 500 usd, reason "fraudulent", no metadata. */
  function Listed(): Dispute
  {
    Dispute("dp_1", "ch_1", 500, "usd", "fraudulent", "needs_response", map[])
  }

  /** The state after the chargeback activity and the traversal of the user's servers. */
  function Blocked(): State
  {
    World().(reasons := map[1 := DISPUTE_QUARANTINE, 2 := 3],
             events := [ChargebackActivity(7, Listed(), Receipt12),
                        ShutdownCall(7, 1),
                        Activity(ServerRecord(1), 7, Shutdown, NoParams),
                        Activity(ServerRecord(1), 7, Validation, ReasonParams(4))])
  }

  /** Server 1 is quarantined; server 2, under validation already, is passed by. */
  lemma BlockExample()
    ensures var s1 := Emit(World(), ChargebackActivity(7, Listed(), Receipt12));
            BlockAll(s1, [1, 2], {}) == (Blocked(), Normal)
  {
    var s1 := Emit(World(), ChargebackActivity(7, Listed(), Receipt12));
    assert s1.reasons[1 := DISPUTE_QUARANTINE] == Blocked().reasons;
    assert s1.events + QuarantineEvents(7, 1) == Blocked().events;
    assert BlockServer(s1, 1, {}) == (Blocked(), Normal);
    assert BlockServer(Blocked(), 2, {}) == (Blocked(), Normal);
    assert [1, 2][1..] == [2];
  }

  /** The state after the enforcement block. */
  function Enforced(): State
  {
    Blocked().(events := Blocked().events +
                         [ValidationMail(7, [1, 2]), SupportNotice(7, [1, 2]),
                          RiskyIpsLogged(5), RiskyCardsLogged(5)])
  }

  /** The whole enforcement block on the example. */
  lemma EnforceExample()
    ensures Enforce(World(), Listed(), Receipt12, Account(5, 7), {}) == (Enforced(), Normal)
  {
    BlockExample();
    var b := Blocked();
    assert b.events + [ValidationMail(7, [1, 2])] + [SupportNotice(7, [1, 2])] +
           [RiskyIpsLogged(5), RiskyCardsLogged(5)] == Enforced().events;
  }

  /** The state after the example dispute: the marker at the gateway and the save last. */
  function Done(): State
  {
    Enforced().(gateway := map["dp_1" := Listed().(metadata := Marker(Receipt12))],
                events := Enforced().events + [MetadataSaved("dp_1", Marker(Receipt12))])
  }

  /** The write-back replaces the dispute's metadata by the marker of receipt 12. */
  lemma UpdateExample()
    ensures UpdateDispute(Enforced(), "dp_1", Receipt12, {}) == (Done(), Normal)
  {
    var marked := Listed().(metadata := Marker(Receipt12));
    assert Enforced().gateway["dp_1"] == Listed();
    assert Enforced().gateway["dp_1" := marked] == map["dp_1" := marked];
  }

  /** One iteration over the example dispute processes it. */
  lemma HandleExample()
    ensures Handle(World(), Listed(), {}) == (Done(), Processed)
  {
    assert Correlate(World(), Listed()) == Matched(Receipt12, Account(5, 7));
    EnforceExample();
    UpdateExample();
  }

  /** The dispute is processed: server 1 is shut down and quarantined, server 2 is passed
      by, the user is mailed and support notified, the risk logs follow and the marker is
      saved. */
  lemma ProcessedExample()
    ensures Run(World(), [Listed()], map[]) == Done()
  {
    HandleExample();
    assert FaultsFor(map[], "dp_1") == {};
  }

  /** Listing the marked record again changes nothing. */
  lemma RelistedExample()
    ensures Run(Done(), [Done().gateway["dp_1"]], map[]) == Done()
  {
    var marked := Done().gateway["dp_1"];
    assert Reconciled(marked.metadata);
    ReconciledDisputeIsSkipped(Done(), marked, {});
  }

  /** The state after a traversal interrupted at server 1's reason update. */
  function Interrupted(): State
  {
    World().(events := [ChargebackActivity(7, Listed(), Receipt12),
                        ShutdownCall(7, 1),
                        Activity(ServerRecord(1), 7, Shutdown, NoParams)])
  }

  /** The traversal stops at server 1's reason update; server 2 is never visited. */
  lemma InterruptedBlockExample()
    ensures var s1 := Emit(World(), ChargebackActivity(7, Listed(), Receipt12));
            BlockAll(s1, [1, 2], {UpdateValidationReason(1)}) ==
              (Interrupted(), Abrupt(Raised(UpdateValidationReason(1))))
  {
    var s1 := Emit(World(), ChargebackActivity(7, Listed(), Receipt12));
    assert s1.events + [ShutdownCall(7, 1)] + [Activity(ServerRecord(1), 7, Shutdown, NoParams)] ==
           Interrupted().events;
    assert BlockServer(s1, 1, {UpdateValidationReason(1)}) ==
           (Interrupted(), Abrupt(Raised(UpdateValidationReason(1))));
  }

  /** The same dispute when the update of server 1's reason raises: the server is shut
      down and its shutdown recorded, but its reason stays 0; the error is tracked with
      the charge and the source tag, and the dispute stays unmarked at the gateway. */
  lemma InterruptedExample()
    ensures Handle(World(), Listed(), {UpdateValidationReason(1)}) ==
            (Emit(Interrupted(), ErrorTracked(Raised(UpdateValidationReason(1)), "ch_1", SOURCE)),
             Failed(Raised(UpdateValidationReason(1))))
  {
    var w, f := World(), {UpdateValidationReason(1)};
    assert LookupFault(w, Listed(), f) == None;
    assert Correlate(w, Listed()) == Matched(Receipt12, Account(5, 7));
    InterruptedBlockExample();
    assert w.tables.serversOf[7] == [1, 2];
    assert Traversal(w, Listed(), Receipt12, Account(5, 7), f) == (Interrupted(), Abrupt(Raised(UpdateValidationReason(1))));
    BlockStage(w, Listed(), Receipt12, Account(5, 7), f);
  }

  // ---------------------------------------------------------------- a failure that is not isolated

  // The lemmas below take the example's states as parameters fixed by their preconditions,
  // so that the verifier unfolds the worker's functions one step at a time.

  /** User 7 owns servers 1 and 2, both at reason 0; the gateway holds two unmarked
      disputes, "dp_a" and "dp_b", on charge "ch_1". */
  function World2(): (s: State)
    ensures Valid(s)
  {
    State(Tables(map[1 := 7, 2 := 7], map[7 := [1, 2]], map[5 := Account(5, 7)], map["ch_1" := Receipt12]),
          map[1 := 0, 2 := 0],
          map["dp_a" := DisputeOn("dp_a"), "dp_b" := DisputeOn("dp_b")],
          [])
  }

  /** An unmarked dispute of 500 usd on charge "ch_1". */
  function DisputeOn(id: string): Dispute
  {
    Dispute(id, "ch_1", 500, "usd", "fraudulent", "needs_response", map[])
  }

  /** The update of server 2's reason raises while "dp_a" is handled; nothing else raises. */
  function PartialFaults(): Oracle
  {
    map["dp_a" := {UpdateValidationReason(2)}]
  }

  /** World2 after the chargeback activity of "dp_a" and the quarantine of server 1. */
  function FirstQuarantined(): State
  {
    World2().(reasons := map[1 := DISPUTE_QUARANTINE, 2 := 0],
              events := [ChargebackActivity(7, DisputeOn("dp_a"), Receipt12)] + QuarantineEvents(7, 1))
  }

  /** Then server 2 shut down and its shutdown recorded, its reason still 0. */
  function HalfTraversed(): State
  {
    FirstQuarantined().(events := FirstQuarantined().events +
                                  [ShutdownCall(7, 2), Activity(ServerRecord(2), 7, Shutdown, NoParams)])
  }

  /** The state "dp_a" leaves: server 1 quarantined, server 2 shut down but still at
      reason 0, the error tracked. */
  function HalfBlocked(): State
  {
    Emit(HalfTraversed(), ErrorTracked(Raised(UpdateValidationReason(2)), "ch_1", SOURCE))
  }

  /** Server 1 is quarantined on the way. */
  lemma FirstServerExample(c: State, f: set<Call>, q: State)
    requires c == Emit(World2(), ChargebackActivity(7, DisputeOn("dp_a"), Receipt12))
    requires f == {UpdateValidationReason(2)} && q == FirstQuarantined()
    ensures BlockServer(c, 1, f) == (q, Normal)
  {
    assert c.reasons[1 := DISPUTE_QUARANTINE] == q.reasons;
    assert c.events + QuarantineEvents(7, 1) == q.events;
    assert BlockCalls(1) !! f;
  }

  /** Server 2 is shut down, and the update of its reason raises. */
  lemma SecondServerExample(q: State, f: set<Call>, h: State)
    requires q == FirstQuarantined() && f == {UpdateValidationReason(2)} && h == HalfTraversed()
    ensures BlockServer(q, 2, f) == (h, Abrupt(Raised(UpdateValidationReason(2))))
  {
    assert q.events + [ShutdownCall(7, 2)] + [Activity(ServerRecord(2), 7, Shutdown, NoParams)] == h.events;
  }

  /** The traversal for "dp_a" stops at server 2's reason update. */
  lemma TraversalOfA(c: State, f: set<Call>, h: State)
    requires c == Emit(World2(), ChargebackActivity(7, DisputeOn("dp_a"), Receipt12))
    requires f == {UpdateValidationReason(2)} && h == HalfTraversed()
    ensures BlockAll(c, [1, 2], f) == (h, Abrupt(Raised(UpdateValidationReason(2))))
  {
    var q := FirstQuarantined();
    FirstServerExample(c, f, q);
    SecondServerExample(q, f, h);
    assert [1, 2][1..] == [2];
  }

  /** Enforcement for "dp_a" records the chargeback, then stops at server 2's reason update. */
  lemma EnforceOfA(w: State, a: Dispute, f: set<Call>, t: State)
    requires w == World2() && a == DisputeOn("dp_a") && f == {UpdateValidationReason(2)}
    requires t == HalfTraversed()
    ensures Valid(w) && Enforce(w, a, Receipt12, Account(5, 7), f) == (t, Abrupt(Raised(UpdateValidationReason(2))))
  {
    var c := Emit(w, ChargebackActivity(7, a, Receipt12));
    TraversalOfA(c, f, t);
    assert w.tables.serversOf[7] == [1, 2];
    assert Traversal(w, a, Receipt12, Account(5, 7), f) == (t, Abrupt(Raised(UpdateValidationReason(2))));
    BlockStage(w, a, Receipt12, Account(5, 7), f);
  }

  /** "dp_a" fails after quarantining server 1. */
  lemma PartialFailureExample(w: State, a: Dispute, f: set<Call>, h: State)
    requires w == World2() && a == DisputeOn("dp_a") && f == {UpdateValidationReason(2)}
    requires h == HalfBlocked()
    ensures Valid(w) && Handle(w, a, f) == (h, Failed(Raised(UpdateValidationReason(2))))
  {
    assert LookupFault(w, a, f) == None;
    assert Correlate(w, a) == Matched(Receipt12, Account(5, 7));
    EnforceOfA(w, a, f, HalfTraversed());
  }

  /** A state with World2's tables and gateway and a reason for each of its servers. */
  predicate OfWorld2(s: State)
  {
    s.tables == World2().tables && s.gateway == World2().gateway && s.reasons.Keys == {1, 2}
  }

  /** "dp_b", unfaulted, is processed from any such state. */
  lemma SecondDisputeProcessed(s: State)
    requires OfWorld2(s)
    ensures Valid(s) && Handle(s, DisputeOn("dp_b"), {}).1 == Processed
  {
    assert Correlate(s, DisputeOn("dp_b")) == Matched(Receipt12, Account(5, 7));
    CleanDisputeIsProcessed(s, DisputeOn("dp_b"), {});
  }

  /** World2 lists each server of its user once. */
  lemma World2Distinct(s: State)
    requires OfWorld2(s)
    ensures forall u :: u in s.tables.serversOf ==> Distinct(s.tables.serversOf[u])
  {
    assert Distinct([1, 2]);
  }

  /** Handling "dp_b" appends the chargeback activity, the quarantine of each server still
      at reason 0 or below, the four notification effects and the write-back. */
  lemma SecondDisputeTrace(s: State)
    requires OfWorld2(s)
    ensures Valid(s) && |Handle(s, DisputeOn("dp_b"), {}).0.events| ==
            |s.events| + 6 + |QuarantineTrace(s.tables.ownerOf, s.reasons, s.tables.serversOf[7])|
  {
    SecondDisputeProcessed(s);
    World2Distinct(s);
    ProcessedFullTrace(s, DisputeOn("dp_b"), {});
  }

  /** A batch of "dp_b" alone is its one iteration. */
  lemma SecondDisputeRun(s: State)
    requires OfWorld2(s)
    ensures Valid(s) && Run(s, [DisputeOn("dp_b")], PartialFaults()) == Handle(s, DisputeOn("dp_b"), {}).0
  {
    assert Valid(s);
    assert FaultsFor(PartialFaults(), "dp_b") == {};
    RunCons(s, DisputeOn("dp_b"), [], PartialFaults());
    assert [DisputeOn("dp_b")] + [] == [DisputeOn("dp_b")];
  }

  /** After "dp_a" only server 2 is left to quarantine; before it, both servers are. */
  lemma QuarantinesLeft()
    ensures |QuarantineTrace(World2().tables.ownerOf, HalfBlocked().reasons, World2().tables.serversOf[7])| == 3
    ensures |QuarantineTrace(World2().tables.ownerOf, World2().reasons, World2().tables.serversOf[7])| == 6
  {
    assert [1, 2][1..] == [2] && [2][1..] == [];
  }

  /** A batch of two disputes runs the second from the state the first leaves. */
  lemma RunPair(s: State, a: Dispute, b: Dispute, oracle: Oracle, mid: State)
    requires Valid(s) && Handle(s, a, FaultsFor(oracle, a.id)).0 == mid
    ensures Run(s, [a, b], oracle) == Run(mid, [b], oracle)
  {
    RunCons(s, a, [b], oracle);
    assert [a] + [b] == [a, b];
  }

  /** "dp_a" fails and leaves HalfBlocked, from which "dp_b" runs. */
  lemma FailureThenSecond(w: State, a: Dispute, b: Dispute, oracle: Oracle, h: State)
    requires w == World2() && a == DisputeOn("dp_a") && b == DisputeOn("dp_b")
    requires oracle == PartialFaults() && h == HalfBlocked()
    ensures Valid(w) && Run(w, [a, b], oracle) == Run(h, [b], oracle)
  {
    var f := FaultsFor(oracle, a.id);
    assert f == {UpdateValidationReason(2)};
    PartialFailureExample(w, a, f, h);
    RunPair(w, a, b, oracle, h);
  }

  /** From HalfBlocked, "dp_b" adds nine effects: three of them quarantine server 2. */
  lemma SecondAfterFailure(h: State, b: Dispute, oracle: Oracle)
    requires b == DisputeOn("dp_b") && oracle == PartialFaults() && h == HalfBlocked()
    ensures Valid(h) && |Run(h, [b], oracle).events| == |h.events| + 9
  {
    QuarantinesLeft();
    SecondDisputeRun(h);
    SecondDisputeTrace(h);
  }

  /** "dp_b" alone, from World2 with its trace emptied, quarantines both servers. */
  lemma SecondBeforeFailure(w: State, b: Dispute, oracle: Oracle)
    requires w == Strip(World2()) && b == DisputeOn("dp_b") && oracle == PartialFaults()
    ensures Valid(w) && |Run(w, [b], oracle).events| == 12
  {
    QuarantinesLeft();
    SecondDisputeRun(w);
    SecondDisputeTrace(w);
  }

  /** Failure isolation needs the failed dispute to leave every reason as it found it.
      "dp_a" fails after it set server 1's reason, so "dp_b", which runs next, passes
      server 1 by; run from the state before "dp_a" it would quarantine both servers. The
      batch is therefore not the failed dispute's effects followed by the rest run from
      the state before it: it holds three effects fewer. */
  lemma PartialFailureIsNotIsolated(w: State, a: Dispute, b: Dispute, oracle: Oracle)
    requires w == World2() && a == DisputeOn("dp_a") && b == DisputeOn("dp_b") && oracle == PartialFaults()
    ensures Valid(w)
    ensures var failed := Handle(w, a, FaultsFor(oracle, a.id));
            failed.1.Failed? && failed.0.reasons != w.reasons &&
            |Run(w, [a, b], oracle).events| == |failed.0.events| + 9 &&
            |Shift(Run(Strip(w), [b], oracle), failed.0.events).events| == |failed.0.events| + 12
  {
    var h := HalfBlocked();
    var f := FaultsFor(oracle, a.id);
    assert f == {UpdateValidationReason(2)};
    PartialFailureExample(w, a, f, h);
    assert h.reasons[1] != w.reasons[1];
    FailureThenSecond(w, a, b, oracle, h);
    SecondAfterFailure(h, b, oracle);
    SecondBeforeFailure(Strip(w), b, oracle);
  }
}
