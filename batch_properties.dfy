/** What one run of perform over a listed batch guarantees. */
module BatchProperties {
  import opened DisputeTypes
  import opened DisputeMetadata
  import opened Reconciliation
  import opened TraceProperties
  import opened DisputeProperties

  /** perform handles the first listed dispute, then the rest. */
  lemma RunCons(s: State, d: Dispute, rest: seq<Dispute>, oracle: Oracle)
    requires Valid(s)
    ensures Run(s, [d] + rest, oracle) == Run(Handle(s, d, FaultsFor(oracle, d.id)).0, rest, oracle)
  {
    assert ([d] + rest)[0] == d && ([d] + rest)[1..] == rest;
  }

  /** Running over two lists one after the other is running over their concatenation. */
  lemma {:induction false} RunAppend(s: State, a: seq<Dispute>, b: seq<Dispute>, oracle: Oracle)
    requires Valid(s)
    ensures Run(s, a + b, oracle) == Run(Run(s, a, oracle), b, oracle)
    decreases |a|
  {
    if a == [] {
      assert a + b == b;
    } else {
      assert a + b == [a[0]] + (a[1..] + b);
      RunCons(s, a[0], a[1..] + b, oracle);
      RunAppend(Handle(s, a[0], FaultsFor(oracle, a[0].id)).0, a[1..], b, oracle);
    }
  }

  /** A dispute that was skipped is as if it had not been listed. */
  lemma SkippedDisputeIsAbsent(s: State, d: Dispute, rest: seq<Dispute>, oracle: Oracle)
    requires Valid(s) && Handle(s, d, FaultsFor(oracle, d.id)).1.Skipped?
    ensures Run(s, [d] + rest, oracle) == Run(s, rest, oracle)
  {
    RunCons(s, d, rest, oracle);
  }

  /** A run from any state is the run from that state without its trace, with the trace
      put back in front. */
  lemma RunFromStripped(t: State, ds: seq<Dispute>, oracle: Oracle)
    requires Valid(t)
    ensures Run(t, ds, oracle) == Shift(Run(Strip(t), ds, oracle), t.events)
  {
    ShiftStrip(t);
    RunShift(Strip(t), ds, oracle, t.events);
  }

  /** A failed dispute in general: the rest of the batch runs from the state it left, with
      its effects in front. Unlike failure isolation below, that state keeps whatever
      reasons the failed traversal set before it raised. */
  lemma RunAfterFailure(s: State, d: Dispute, rest: seq<Dispute>, oracle: Oracle)
    requires Valid(s) && Handle(s, d, FaultsFor(oracle, d.id)).1.Failed?
    ensures var failed := Handle(s, d, FaultsFor(oracle, d.id)).0;
            failed.gateway == s.gateway && failed.tables == s.tables &&
            Run(s, [d] + rest, oracle) == Shift(Run(Strip(failed), rest, oracle), failed.events)
  {
    var failed := Handle(s, d, FaultsFor(oracle, d.id)).0;
    RunCons(s, d, rest, oracle);
    RunFromStripped(failed, rest, oracle);
  }

  /** Failure isolation: a dispute that raised without changing any validation reason
      changes nothing the rest of the batch depends on. The batch with it and the batch
      without it run the rest identically; they differ only in the effects recorded before
      the rest: the failed dispute's own effects and its tracked error. */
  lemma FailureIsolation(s: State, d: Dispute, rest: seq<Dispute>, oracle: Oracle)
    requires Valid(s)
    requires Handle(s, d, FaultsFor(oracle, d.id)).1.Failed?
    requires Handle(s, d, FaultsFor(oracle, d.id)).0.reasons == s.reasons
    ensures Run(s, rest, oracle) == Shift(Run(Strip(s), rest, oracle), s.events)
    ensures Run(s, [d] + rest, oracle) ==
            Shift(Run(Strip(s), rest, oracle), Handle(s, d, FaultsFor(oracle, d.id)).0.events)
  {
    var failed := Handle(s, d, FaultsFor(oracle, d.id)).0;
    RunCons(s, d, rest, oracle);
    RunFromStripped(s, rest, oracle);
    RunFromStripped(failed, rest, oracle);
    assert Strip(failed) == Strip(s);
  }

  /** Once a dispute is marked at the gateway, it stays marked. */
  lemma {:induction false} RunKeepsReconciled(s: State, ds: seq<Dispute>, oracle: Oracle, id: string)
    requires Valid(s) && id in s.gateway && Reconciled(s.gateway[id].metadata)
    ensures id in Run(s, ds, oracle).gateway && Reconciled(Run(s, ds, oracle).gateway[id].metadata)
    decreases |ds|
  {
    if ds != [] {
      var f := FaultsFor(oracle, ds[0].id);
      HandleKeepsReconciled(s, ds[0], f, id);
      RunKeepsReconciled(Handle(s, ds[0], f).0, ds[1..], oracle, id);
    }
  }

  /** A batch of disputes that all carry the marker has no effect at all. */
  lemma {:induction false} RerunIsNoOp(t: State, ds: seq<Dispute>, oracle: Oracle)
    requires Valid(t) && forall i :: 0 <= i < |ds| ==> Reconciled(ds[i].metadata)
    ensures Run(t, ds, oracle) == t
    decreases |ds|
  {
    if ds != [] {
      ReconciledDisputeIsSkipped(t, ds[0], FaultsFor(oracle, ds[0].id));
      RerunIsNoOp(t, ds[1..], oracle);
    }
  }

  /** The i-th listed dispute was processed in the run over ds. */
  predicate ProcessedAt(s: State, ds: seq<Dispute>, oracle: Oracle, i: int)
    requires Valid(s)
  {
    0 <= i < |ds| && Handle(Run(s, ds[..i], oracle), ds[i], FaultsFor(oracle, ds[i].id)).1 == Processed
  }

  /** A dispute processed at the head of a batch is still marked at the gateway when the
      batch ends. */
  lemma ProcessedHeadStaysMarked(t: State, d: Dispute, rest: seq<Dispute>, oracle: Oracle)
    requires Valid(t) && Handle(t, d, FaultsFor(oracle, d.id)).1 == Processed
    ensures d.id in Run(t, [d] + rest, oracle).gateway
    ensures Reconciled(Run(t, [d] + rest, oracle).gateway[d.id].metadata)
  {
    var after := Handle(t, d, FaultsFor(oracle, d.id)).0;
    assert Reconciled(Marker(Correlate(t, d).receipt));
    RunKeepsReconciled(after, rest, oracle, d.id);
    RunCons(t, d, rest, oracle);
  }

  /** A dispute processed after a prefix of the batch is still marked when the batch ends. */
  lemma ProcessedAfterPrefixStaysMarked(s: State, a: seq<Dispute>, d: Dispute, b: seq<Dispute>, oracle: Oracle)
    requires Valid(s) && Handle(Run(s, a, oracle), d, FaultsFor(oracle, d.id)).1 == Processed
    ensures d.id in Run(s, a + ([d] + b), oracle).gateway
    ensures Reconciled(Run(s, a + ([d] + b), oracle).gateway[d.id].metadata)
  {
    ProcessedHeadStaysMarked(Run(s, a, oracle), d, b, oracle);
    RunAppend(s, a, [d] + b, oracle);
  }

  lemma SplitAt(ds: seq<Dispute>, i: int)
    requires 0 <= i < |ds|
    ensures ds[..i] + ([ds[i]] + ds[i + 1..]) == ds
  {
  }

  /** After the batch, every dispute it processed is marked at the gateway. */
  lemma ProcessedStaysMarked(s: State, ds: seq<Dispute>, oracle: Oracle, i: int)
    requires Valid(s) && ProcessedAt(s, ds, oracle, i)
    ensures ds[i].id in Run(s, ds, oracle).gateway
    ensures Reconciled(Run(s, ds, oracle).gateway[ds[i].id].metadata)
  {
    SplitAt(ds, i);
    ProcessedAfterPrefixStaysMarked(s, ds[..i], ds[i], ds[i + 1..], oracle);
  }

  /** r is the gateway's record, after the run over ds, of a dispute that run processed. */
  predicate RelistedAfter(s: State, ds: seq<Dispute>, oracle: Oracle, r: Dispute)
    requires Valid(s)
  {
    exists i :: 0 <= i < |ds| && ProcessedAt(s, ds, oracle, i) && ds[i].id in Run(s, ds, oracle).gateway &&
                r == Run(s, ds, oracle).gateway[ds[i].id]
  }

  /** Running again over the gateway's current records of disputes the first run processed
      produces no activity, no shutdown and no write: the marker guard intercepts them. */
  lemma SecondRunIsNoOp(s: State, ds: seq<Dispute>, oracle: Oracle, relisted: seq<Dispute>, oracle2: Oracle)
    requires Valid(s)
    requires forall k :: 0 <= k < |relisted| ==> RelistedAfter(s, ds, oracle, relisted[k])
    ensures Run(Run(s, ds, oracle), relisted, oracle2) == Run(s, ds, oracle)
  {
    forall k | 0 <= k < |relisted|
      ensures Reconciled(relisted[k].metadata)
    {
      assert RelistedAfter(s, ds, oracle, relisted[k]);
      var i :| ProcessedAt(s, ds, oracle, i) && ds[i].id in Run(s, ds, oracle).gateway &&
               relisted[k] == Run(s, ds, oracle).gateway[ds[i].id];
      ProcessedStaysMarked(s, ds, oracle, i);
    }
    RerunIsNoOp(Run(s, ds, oracle), relisted, oracle2);
  }
}
