/** What the reconciliation of one dispute guarantees: enforcement, the skip guards, the
    write-back, the tracked error and the swallowed support notification. */
module DisputeProperties {
  import opened DisputeTypes
  import opened DisputeMetadata
  import opened Reconciliation
  import opened ServerProperties
  import opened TraceProperties

  // ---------------------------------------------------------------- enforcement

  /** Enforcement changes the validation reason of no server but the account user's own. */
  lemma EnforceTouchesOnlyUsersServers(s: State, d: Dispute, receipt: Receipt, account: Account, f: set<Call>)
    requires Valid(s)
    ensures var t := Enforce(s, d, receipt, account, f).0;
            forall x :: x in s.reasons && t.reasons[x] != s.reasons[x] ==>
              account.userId in s.tables.serversOf && x in s.tables.serversOf[account.userId]
  {
    var u := account.userId;
    if LoadUser !in f && u in s.tables.serversOf && CreateChargebackActivity !in f && LoadServers !in f {
      var s1 := Emit(s, ChargebackActivity(u, d, receipt));
      forall x | x in s.reasons && x !in s.tables.serversOf[u]
        ensures BlockAll(s1, s.tables.serversOf[u], f).0.reasons[x] == s.reasons[x]
      {
        BlockAllKeepsUnlisted(s1, s.tables.serversOf[u], f, x);
      }
    }
  }

  /** Whatever enforcement appends starts with the chargeback activity on the user and goes
      on with quarantine, notification and risk-log effects only. */
  lemma EnforceTrace(s: State, d: Dispute, receipt: Receipt, account: Account, f: set<Call>)
    requires Valid(s)
    ensures var t := Enforce(s, d, receipt, account, f).0;
            |t.events| > |s.events| ==>
              account.userId in s.tables.serversOf &&
              t.events[|s.events|] == ChargebackActivity(account.userId, d, receipt) &&
              EnforcementOnlyFrom(t.events, |s.events| + 1)
  {
    var u := account.userId;
    if LoadUser !in f && u in s.tables.serversOf && CreateChargebackActivity !in f {
      var servers := s.tables.serversOf[u];
      var s1 := Emit(s, ChargebackActivity(u, d, receipt));
      var (s2, c) := BlockUsersServers(s1, servers, f);
      var t := Enforce(s, d, receipt, account, f).0;
      assert s1.events <= s2.events <= t.events;
      assert t.events[|s.events|] == s1.events[|s.events|];
      forall i | |s.events| + 1 <= i < |t.events|
        ensures IsServerEvent(t.events[i]) || IsNoticeEvent(t.events[i])
      {
        if i < |s2.events| {
          assert t.events[i] == s2.events[i];
        }
      }
    }
  }

  /** Completed enforcement: the user exists, no enforcement call raised, every server of
      the user is under validation, and the trace ends with the risky IP addresses log and
      then the risky cards log. */
  lemma EnforceCompleted(s: State, d: Dispute, receipt: Receipt, account: Account, f: set<Call>)
    requires Valid(s) && Enforce(s, d, receipt, account, f).1.Normal?
    ensures account.userId in s.tables.serversOf && EnforcementCalls() !! f
    ensures var t := Enforce(s, d, receipt, account, f).0;
            AllQuarantined(t, s.tables.serversOf[account.userId]) &&
            |t.events| >= |s.events| + 3 &&
            t.events[|t.events| - 2..] == [RiskyIpsLogged(account.id), RiskyCardsLogged(account.id)]
  {
    assert LoadUser !in f && account.userId in s.tables.serversOf && CreateChargebackActivity !in f;
    BlockStage(s, d, receipt, account, f);
    TraversalQuarantines(s, d, receipt, account, f);
  }

  /** A completed traversal leaves every server of the user under validation. */
  lemma TraversalQuarantines(s: State, d: Dispute, receipt: Receipt, account: Account, f: set<Call>)
    requires Valid(s) && account.userId in s.tables.serversOf
    ensures var (s2, c) := Traversal(s, d, receipt, account, f);
            c.Normal? ==> AllQuarantined(s2, s.tables.serversOf[account.userId])
  {
    BlockAllQuarantinesAll(Emit(s, ChargebackActivity(account.userId, d, receipt)), s.tables.serversOf[account.userId], f);
  }

  /** The effects of a completed notification step: the user's mail, the support notice
      unless it raised, then the risky IP addresses and the risky cards of the account. */
  function NoticeTrace(u: UserId, servers: seq<ServerId>, accountId: AccountId, f: set<Call>): seq<Event>
  {
    [ValidationMail(u, servers)] + (if NotifySupport in f then [] else [SupportNotice(u, servers)]) +
    [RiskyIpsLogged(accountId), RiskyCardsLogged(accountId)]
  }

  /** Completed enforcement ends with its notification effects in their order: the user's
      mail, the support notice unless it raised, the two risk logs; the chargeback activity
      and the traversal come before them. */
  lemma EnforceEndsWithNotices(s: State, d: Dispute, receipt: Receipt, account: Account, f: set<Call>)
    requires Valid(s) && Enforce(s, d, receipt, account, f).1.Normal?
    ensures account.userId in s.tables.serversOf
    ensures var t := Enforce(s, d, receipt, account, f).0;
            var n := NoticeTrace(account.userId, s.tables.serversOf[account.userId], account.id, f);
            |t.events| >= |s.events| + 1 + |n| &&
            t.events[|s.events|] == ChargebackActivity(account.userId, d, receipt) &&
            t.events[|t.events| - |n|..] == n
  {
    EnforceCompleted(s, d, receipt, account, f);
    BlockStage(s, d, receipt, account, f);
    var u := account.userId;
    var s2 := Traversal(s, d, receipt, account, f).0;
    SuffixShape(s.events, s2.events, NoticeTrace(u, s.tables.serversOf[u], account.id, f),
                Enforce(s, d, receipt, account, f).0.events);
  }

  /** A trace that extends pre by at least one event and then by n starts its additions with
      that event and ends with n. */
  lemma SuffixShape(pre: seq<Event>, mid: seq<Event>, n: seq<Event>, t: seq<Event>)
    requires pre <= mid && |mid| > |pre| && t == mid + n
    ensures |t| >= |pre| + 1 + |n| && t[|pre|] == mid[|pre|] && t[|t| - |n|..] == n
  {
  }

  /** The whole trace of completed enforcement, for users whose server lists name no server
      twice: the chargeback activity, the quarantine of each server not yet under validation
      in list order, then the notifications and risk logs. */
  lemma EnforceFullTrace(s: State, d: Dispute, receipt: Receipt, account: Account, f: set<Call>)
    requires Valid(s) && Enforce(s, d, receipt, account, f).1.Normal?
    requires forall u :: u in s.tables.serversOf ==> Distinct(s.tables.serversOf[u])
    ensures account.userId in s.tables.serversOf
    ensures var u := account.userId;
            var servers := s.tables.serversOf[u];
            Enforce(s, d, receipt, account, f).0.events ==
              s.events + [ChargebackActivity(u, d, receipt)] +
              QuarantineTrace(s.tables.ownerOf, s.reasons, servers) +
              NoticeTrace(u, servers, account.id, f)
  {
    EnforceCompleted(s, d, receipt, account, f);
    BlockStage(s, d, receipt, account, f);
    TraversalTrace(s, d, receipt, account, f);
    var u := account.userId;
    var servers := s.tables.serversOf[u];
    var s2 := Traversal(s, d, receipt, account, f).0;
    assert NotifyAndLogRisk(s2, u, servers, account.id, f).0.events == s2.events + NoticeTrace(u, servers, account.id, f);
  }

  /** A completed traversal of a user's distinct servers records the chargeback activity
      and then the quarantine of each server not yet under validation. */
  lemma TraversalTrace(s: State, d: Dispute, receipt: Receipt, account: Account, f: set<Call>)
    requires Valid(s) && account.userId in s.tables.serversOf && Distinct(s.tables.serversOf[account.userId])
    ensures var (s2, c) := Traversal(s, d, receipt, account, f);
            c.Normal? ==>
              s2.events == s.events + [ChargebackActivity(account.userId, d, receipt)] +
                           QuarantineTrace(s.tables.ownerOf, s.reasons, s.tables.serversOf[account.userId])
  {
    var s1 := Emit(s, ChargebackActivity(account.userId, d, receipt));
    if BlockAll(s1, s.tables.serversOf[account.userId], f).1.Normal? {
      BlockAllTrace(s1, s.tables.serversOf[account.userId], f);
    }
  }

  /** Enforcement whose steps all succeed completes; the support notification may fail. */
  lemma EnforceSucceeds(s: State, d: Dispute, receipt: Receipt, account: Account, f: set<Call>)
    requires Valid(s) && account.userId in s.tables.serversOf && EnforcementCalls() !! f
    requires forall i :: 0 <= i < |s.tables.serversOf[account.userId]| ==>
               BlockCalls(s.tables.serversOf[account.userId][i]) !! f
    ensures Enforce(s, d, receipt, account, f).1.Normal?
  {
    var u := account.userId;
    BlockAllWithoutFaults(Emit(s, ChargebackActivity(u, d, receipt)), s.tables.serversOf[u], f);
  }

  /** A failing user load, an account without a user, or a failing chargeback activity
      aborts before any effect. */
  lemma EnforceEarlyAbort(s: State, d: Dispute, receipt: Receipt, account: Account, f: set<Call>)
    requires Valid(s)
    requires LoadUser in f || account.userId !in s.tables.serversOf || CreateChargebackActivity in f
    ensures Enforce(s, d, receipt, account, f) ==
            (s, Abrupt(if LoadUser in f then Raised(LoadUser)
                       else if account.userId !in s.tables.serversOf then NilUser
                       else Raised(CreateChargebackActivity)))
  {
  }

  /** Enforcement for a user all of whose servers are under validation already changes no
      validation reason. */
  lemma EnforceOnQuarantinedUser(s: State, d: Dispute, receipt: Receipt, account: Account, f: set<Call>)
    requires Valid(s) && account.userId in s.tables.serversOf
    requires AllQuarantined(s, s.tables.serversOf[account.userId])
    ensures Enforce(s, d, receipt, account, f).0.reasons == s.reasons
  {
    var u := account.userId;
    if LoadUser !in f && CreateChargebackActivity !in f && LoadServers !in f {
      var s1 := Emit(s, ChargebackActivity(u, d, receipt));
      BlockAllSkipsQuarantined(s1, s.tables.serversOf[u], f);
    }
  }

  // ---------------------------------------------------------------- one dispute

  /** The idempotency guard: an already reconciled dispute has no effect at all. */
  lemma ReconciledDisputeIsSkipped(s: State, d: Dispute, f: set<Call>)
    requires Valid(s) && Reconciled(d.metadata)
    ensures Handle(s, d, f) == (s, Skipped(AlreadyReconciled))
  {
  }

  /** No receipt for the charge, or no account for the receipt: when the reads that found
      nothing did not raise, a silent skip, with no effect and no tracked error. */
  lemma UnmatchedDisputeIsSkipped(s: State, d: Dispute, f: set<Call>)
    requires Valid(s) && !Reconciled(d.metadata)
    requires d.charge !in s.tables.receipts || s.tables.receipts[d.charge].accountId !in s.tables.accounts
    ensures LookupFault(s, d, f).None? ==>
              Handle(s, d, f) == (s, Skipped(if d.charge !in s.tables.receipts then NoReceipt else NoAccount))
    ensures LookupFault(s, d, f).Some? ==> Handle(s, d, f).1.Failed?
  {
  }

  /** A raising receipt lookup or account load fails the dispute: its only effect is the
      tracked error with the dispute's charge and the source tag. */
  lemma LookupFailureIsTracked(s: State, d: Dispute, f: set<Call>)
    requires Valid(s) && !Reconciled(d.metadata)
    requires FindReceipt in f || (d.charge in s.tables.receipts && LoadAccount in f)
    ensures var e := Raised(if FindReceipt in f then FindReceipt else LoadAccount);
            Handle(s, d, f) == (Emit(s, ErrorTracked(e, d.charge, SOURCE)), Failed(e))
  {
  }

  /** How a processed dispute got there: the account matched, enforcement completed, and
      the write-back completed on the state enforcement left. */
  lemma ProcessedSteps(s: State, d: Dispute, f: set<Call>)
    requires Valid(s) && Handle(s, d, f).1 == Processed
    ensures LookupFault(s, d, f).None? && Correlate(s, d).Matched?
    ensures var m := Correlate(s, d);
            var e := Enforce(s, d, m.receipt, m.account, f);
            e.1.Normal? && UpdateDispute(e.0, d.id, m.receipt, f) == (Handle(s, d, f).0, Normal)
  {
  }

  /** How a failed dispute got there: a read of the skip guards raised, with no effect;
      or enforcement raised, or the write-back did, and the tracked error follows the state
      enforcement left. */
  lemma FailedSteps(s: State, d: Dispute, f: set<Call>)
    requires Valid(s) && Handle(s, d, f).1.Failed?
    ensures LookupFault(s, d, f).Some? ==>
              Handle(s, d, f).0 == Emit(s, ErrorTracked(Handle(s, d, f).1.error, d.charge, SOURCE))
    ensures LookupFault(s, d, f).None? ==> Correlate(s, d).Matched?
    ensures LookupFault(s, d, f).None? ==>
            var m := Correlate(s, d);
            var e := Enforce(s, d, m.receipt, m.account, f);
            (e.1.Abrupt? || UpdateDispute(e.0, d.id, m.receipt, f).1.Abrupt?) &&
            Handle(s, d, f).0 == Emit(e.0, ErrorTracked(Handle(s, d, f).1.error, d.charge, SOURCE))
  {
  }

  /** The shape of the trace completed enforcement followed by the write-back appends. */
  lemma ProcessedTraceShape(pre: seq<Event>, e: seq<Event>, t: seq<Event>, charge: Event, ips: Event, cards: Event, save: Event)
    requires pre <= e && |e| >= |pre| + 3 && e[|pre|] == charge && EnforcementOnlyFrom(e, |pre| + 1)
    requires e[|e| - 2..] == [ips, cards] && t == e + [save] && IsChargeback(charge) && IsWriteBack(save)
    ensures var added := t[|pre|..];
            |added| >= 4 && added[0] == charge &&
            (forall i :: 0 < i < |added| ==> !IsChargeback(added[i])) &&
            added[|added| - 3] == ips && added[|added| - 2] == cards && added[|added| - 1] == save &&
            (forall i :: 0 <= i < |added| - 1 ==> !IsWriteBack(added[i]))
  {
    var added := t[|pre|..];
    assert e[|e| - 2] == ips && e[|e| - 1] == cards;
    forall i | 0 < i < |added|
      ensures !IsChargeback(added[i])
    {
      if i < |added| - 1 {
        assert added[i] == e[|pre| + i];
      }
    }
    forall i | 0 <= i < |added| - 1
      ensures !IsWriteBack(added[i])
    {
      assert added[i] == e[|pre| + i];
    }
  }

  /** The trace completed enforcement and a completed write-back append. */
  lemma EnforceThenSaveTrace(s: State, d: Dispute, receipt: Receipt, account: Account, f: set<Call>)
    requires Valid(s) && Enforce(s, d, receipt, account, f).1.Normal?
    requires UpdateDispute(Enforce(s, d, receipt, account, f).0, d.id, receipt, f).1.Normal?
    ensures var t := UpdateDispute(Enforce(s, d, receipt, account, f).0, d.id, receipt, f).0;
            var added := t.events[|s.events|..];
            |added| >= 4 &&
            added[0] == ChargebackActivity(account.userId, d, receipt) &&
            (forall i :: 0 < i < |added| ==> !IsChargeback(added[i])) &&
            added[|added| - 3] == RiskyIpsLogged(account.id) &&
            added[|added| - 2] == RiskyCardsLogged(account.id) &&
            added[|added| - 1] == MetadataSaved(d.id, Marker(receipt)) &&
            (forall i :: 0 <= i < |added| - 1 ==> !IsWriteBack(added[i]))
  {
    EnforceTrace(s, d, receipt, account, f);
    EnforceCompleted(s, d, receipt, account, f);
    var e := Enforce(s, d, receipt, account, f).0;
    ProcessedTraceShape(s.events, e.events, UpdateDispute(e, d.id, receipt, f).0.events,
      ChargebackActivity(account.userId, d, receipt), RiskyIpsLogged(account.id),
      RiskyCardsLogged(account.id), MetadataSaved(d.id, Marker(receipt)));
  }

  /** The trace of a processed dispute: its chargeback activity first and only once; risky
      IPs, then risky cards; the marker written last and only once. */
  lemma ProcessedTrace(s: State, d: Dispute, f: set<Call>)
    requires Valid(s) && Handle(s, d, f).1 == Processed
    ensures Correlate(s, d).Matched? && Correlate(s, d).account.userId in s.tables.serversOf
    ensures var t := Handle(s, d, f).0;
            var m := Correlate(s, d);
            var added := t.events[|s.events|..];
            |added| >= 4 &&
            added[0] == ChargebackActivity(m.account.userId, d, m.receipt) &&
            (forall i :: 0 < i < |added| ==> !IsChargeback(added[i])) &&
            added[|added| - 3] == RiskyIpsLogged(m.account.id) &&
            added[|added| - 2] == RiskyCardsLogged(m.account.id) &&
            added[|added| - 1] == MetadataSaved(d.id, Marker(m.receipt)) &&
            (forall i :: 0 <= i < |added| - 1 ==> !IsWriteBack(added[i]))
  {
    ProcessedSteps(s, d, f);
    var m := Correlate(s, d);
    EnforceCompleted(s, d, m.receipt, m.account, f);
    EnforceThenSaveTrace(s, d, m.receipt, m.account, f);
  }

  /** A processed dispute's trace ends with the notification effects in their order (the
      user's mail before the support notice and the risk logs) and then the write-back. */
  lemma ProcessedNotices(s: State, d: Dispute, f: set<Call>)
    requires Valid(s) && Handle(s, d, f).1 == Processed
    ensures Correlate(s, d).Matched? && Correlate(s, d).account.userId in s.tables.serversOf
    ensures var t := Handle(s, d, f).0;
            var m := Correlate(s, d);
            var n := NoticeTrace(m.account.userId, s.tables.serversOf[m.account.userId], m.account.id, f) +
                     [MetadataSaved(d.id, Marker(m.receipt))];
            |t.events| >= |s.events| + |n| && t.events[|t.events| - |n|..] == n
  {
    ProcessedSteps(s, d, f);
    var m := Correlate(s, d);
    EnforceEndsWithNotices(s, d, m.receipt, m.account, f);
    var e := Enforce(s, d, m.receipt, m.account, f).0;
    var u := m.account.userId;
    SuffixExtend(s.events, e.events, NoticeTrace(u, s.tables.serversOf[u], m.account.id, f),
                 MetadataSaved(d.id, Marker(m.receipt)), Handle(s, d, f).0.events);
  }

  /** A trace that ends with n and then gains one event ends with n and that event. */
  lemma SuffixExtend(pre: seq<Event>, e: seq<Event>, n: seq<Event>, x: Event, t: seq<Event>)
    requires |e| >= |pre| + |n| && e[|e| - |n|..] == n && t == e + [x]
    ensures |t| >= |pre| + |n + [x]| && t[|t| - |n + [x]|..] == n + [x]
  {
    assert t[|t| - |n + [x]|..] == e[|e| - |n|..] + [x];
  }

  /** The whole trace of a processed dispute, for users whose server lists name no server
      twice: the chargeback activity, each quarantine in list order, the user's mail, the
      support notice unless it raised, the risky IP addresses, the risky cards, the marker. */
  lemma ProcessedFullTrace(s: State, d: Dispute, f: set<Call>)
    requires Valid(s) && Handle(s, d, f).1 == Processed
    requires forall u :: u in s.tables.serversOf ==> Distinct(s.tables.serversOf[u])
    ensures Correlate(s, d).Matched? && Correlate(s, d).account.userId in s.tables.serversOf
    ensures var m := Correlate(s, d);
            var u := m.account.userId;
            var servers := s.tables.serversOf[u];
            Handle(s, d, f).0.events ==
              s.events + [ChargebackActivity(u, d, m.receipt)] +
              QuarantineTrace(s.tables.ownerOf, s.reasons, servers) +
              NoticeTrace(u, servers, m.account.id, f) + [MetadataSaved(d.id, Marker(m.receipt))]
  {
    ProcessedSteps(s, d, f);
    var m := Correlate(s, d);
    EnforceFullTrace(s, d, m.receipt, m.account, f);
  }

  /** The state a processed dispute leaves: every server of the account's user under
      validation, no other server touched, and the dispute's gateway record carrying
      exactly the marker; no enforcement call and no gateway call raised. */
  lemma ProcessedDispute(s: State, d: Dispute, f: set<Call>)
    requires Valid(s) && Handle(s, d, f).1 == Processed
    ensures Correlate(s, d).Matched? && Correlate(s, d).account.userId in s.tables.serversOf
    ensures var t := Handle(s, d, f).0;
            var m := Correlate(s, d);
            var u := m.account.userId;
            AllQuarantined(t, s.tables.serversOf[u]) &&
            (forall x :: x in s.reasons && x !in s.tables.serversOf[u] ==> t.reasons[x] == s.reasons[x]) &&
            d.id in t.gateway && t.gateway[d.id] == s.gateway[d.id].(metadata := Marker(m.receipt))
    ensures LookupCalls() !! f && EnforcementCalls() !! f && GetDispute !in f && SaveDispute !in f
  {
    ProcessedSteps(s, d, f);
    var m := Correlate(s, d);
    EnforceCompleted(s, d, m.receipt, m.account, f);
    EnforceTouchesOnlyUsersServers(s, d, m.receipt, m.account, f);
  }

  /** A dispute whose processing raised leaves the gateway untouched, writes no marker, and
      ends with the tracked error carrying its charge and the source tag. */
  lemma FailedDisputeStaysUnmarked(s: State, d: Dispute, f: set<Call>)
    requires Valid(s) && Handle(s, d, f).1.Failed?
    ensures var (t, o) := Handle(s, d, f);
            t.gateway == s.gateway &&
            (forall i :: |s.events| <= i < |t.events| ==> !IsWriteBack(t.events[i])) &&
            t.events[|t.events| - 1] == ErrorTracked(o.error, d.charge, SOURCE)
  {
    FailedSteps(s, d, f);
    if LookupFault(s, d, f).None? {
      var m := Correlate(s, d);
      EnforceTrace(s, d, m.receipt, m.account, f);
      var e := Enforce(s, d, m.receipt, m.account, f).0;
      var t := Handle(s, d, f).0;
      forall i | |s.events| <= i < |t.events|
        ensures !IsWriteBack(t.events[i])
      {
        if i < |e.events| {
          assert t.events[i] == e.events[i];
        }
      }
    }
  }

  /** Converse: a dispute's record changes at the gateway only when every enforcement
      step before the write-back succeeded. */
  lemma WriteBackOnlyAfterEnforcement(s: State, d: Dispute, f: set<Call>)
    requires Valid(s) && Handle(s, d, f).0.gateway != s.gateway
    ensures Handle(s, d, f).1 == Processed
    ensures Correlate(s, d).Matched? && Correlate(s, d).account.userId in s.tables.serversOf
    ensures LookupCalls() !! f && EnforcementCalls() !! f
    ensures AllQuarantined(Handle(s, d, f).0, s.tables.serversOf[Correlate(s, d).account.userId])
  {
    ProcessedDispute(s, d, f);
  }

  /** A matched dispute whose steps all succeed is processed, whether or not the support
      notification fails. */
  lemma CleanDisputeIsProcessed(s: State, d: Dispute, f: set<Call>)
    requires Valid(s) && Correlate(s, d).Matched? && Correlate(s, d).account.userId in s.tables.serversOf
    requires LookupCalls() !! f && EnforcementCalls() !! f && GetDispute !in f && SaveDispute !in f
    requires d.id in s.gateway
    requires forall i :: 0 <= i < |s.tables.serversOf[Correlate(s, d).account.userId]| ==>
               BlockCalls(s.tables.serversOf[Correlate(s, d).account.userId][i]) !! f
    ensures Handle(s, d, f).1 == Processed
  {
    var m := Correlate(s, d);
    EnforceSucceeds(s, d, m.receipt, m.account, f);
  }

  /** Failures that change no validation reason: a failing user load, a missing user, a
      failing chargeback activity, or a user whose servers are all under validation already. */
  lemma EarlyFailureKeepsReasons(s: State, d: Dispute, f: set<Call>)
    requires Valid(s) && Correlate(s, d).Matched?
    requires var u := Correlate(s, d).account.userId;
             LoadUser in f || u !in s.tables.serversOf || CreateChargebackActivity in f ||
             AllQuarantined(s, s.tables.serversOf[u])
    ensures Handle(s, d, f).0.reasons == s.reasons
  {
    var m := Correlate(s, d);
    if LoadUser in f || m.account.userId !in s.tables.serversOf || CreateChargebackActivity in f {
      EnforceEarlyAbort(s, d, m.receipt, m.account, f);
    } else {
      EnforceOnQuarantinedUser(s, d, m.receipt, m.account, f);
    }
  }

  /** The marker a processed dispute leaves makes the guard skip that dispute as the
      gateway now reports it, on any later run, with no effect. */
  lemma MarkerGuardsLaterRuns(s: State, d: Dispute, f: set<Call>, t: State, g: set<Call>)
    requires Valid(s) && Handle(s, d, f).1 == Processed && Valid(t)
    ensures d.id in Handle(s, d, f).0.gateway
    ensures Handle(t, Handle(s, d, f).0.gateway[d.id], g) == (t, Skipped(AlreadyReconciled))
  {
    var m := Correlate(s, d);
    assert Reconciled(Marker(m.receipt));
  }

  /** A dispute marked at the gateway stays marked, whichever dispute is handled. */
  lemma HandleKeepsReconciled(s: State, d: Dispute, f: set<Call>, id: string)
    requires Valid(s) && id in s.gateway && Reconciled(s.gateway[id].metadata)
    ensures id in Handle(s, d, f).0.gateway && Reconciled(Handle(s, d, f).0.gateway[id].metadata)
  {
    if Handle(s, d, f).1.Processed? {
      assert Reconciled(Marker(Correlate(s, d).receipt));
    }
  }

  // ---------------------------------------------------------------- the support notice

  /** The trace with every support notice taken out. */
  function RemoveSupport(es: seq<Event>): (r: seq<Event>)
    ensures |r| <= |es|
    ensures forall i :: 0 <= i < |r| ==> !r[i].SupportNotice?
    decreases |es|
  {
    if es == [] then []
    else (if es[0].SupportNotice? then [] else [es[0]]) + RemoveSupport(es[1..])
  }

  lemma RemoveSupportCons(e: Event, es: seq<Event>)
    ensures RemoveSupport([e] + es) == (if e.SupportNotice? then [] else [e]) + RemoveSupport(es)
  {
    assert ([e] + es)[0] == e && ([e] + es)[1..] == es;
  }

  lemma {:induction false} RemoveSupportAppend(a: seq<Event>, b: seq<Event>)
    ensures RemoveSupport(a + b) == RemoveSupport(a) + RemoveSupport(b)
    decreases |a|
  {
    if a == [] {
      assert a + b == b;
    } else {
      assert a + b == [a[0]] + (a[1..] + b);
      RemoveSupportCons(a[0], a[1..] + b);
      RemoveSupportAppend(a[1..], b);
    }
  }

  /** A trace without support notices is its own filter. */
  lemma {:induction false} RemoveSupportNone(es: seq<Event>)
    requires forall i :: 0 <= i < |es| ==> !es[i].SupportNotice?
    ensures RemoveSupport(es) == es
    decreases |es|
  {
    if es != [] {
      assert forall i :: 0 <= i < |es[1..]| ==> es[1..][i] == es[i + 1];
      RemoveSupportNone(es[1..]);
    }
  }

  /** Both traces extend pre, and what the first appends to it is exactly what the second
      appends, support notices taken out. */
  predicate SupportOnlyDiffers(pre: seq<Event>, w1: seq<Event>, w2: seq<Event>)
  {
    pre <= w1 && pre <= w2 && w1[|pre|..] == RemoveSupport(w2[|pre|..])
  }

  /** A trace is related to itself when what it appends holds no support notice. */
  lemma OnlyDiffersSame(pre: seq<Event>, w: seq<Event>)
    requires pre <= w && forall i :: |pre| <= i < |w| ==> !w[i].SupportNotice?
    ensures SupportOnlyDiffers(pre, w, w)
  {
    assert forall i :: 0 <= i < |w[|pre|..]| ==> w[|pre|..][i] == w[|pre| + i];
    RemoveSupportNone(w[|pre|..]);
  }

  /** Appending the same effects, none a support notice, keeps two traces related. */
  lemma OnlyDiffersExtend(pre: seq<Event>, w1: seq<Event>, w2: seq<Event>, e: Event)
    requires SupportOnlyDiffers(pre, w1, w2) && !e.SupportNotice?
    ensures SupportOnlyDiffers(pre, w1 + [e], w2 + [e])
  {
    assert (w1 + [e])[|pre|..] == w1[|pre|..] + [e];
    assert (w2 + [e])[|pre|..] == w2[|pre|..] + [e];
    RemoveSupportAppend(w2[|pre|..], [e]);
    RemoveSupportCons(e, []);
  }

  /** Traces related from a later point are related from an earlier one when the effects in
      between hold no support notice. */
  lemma OnlyDiffersFrom(pre: seq<Event>, mid: seq<Event>, w1: seq<Event>, w2: seq<Event>)
    requires pre <= mid && SupportOnlyDiffers(mid, w1, w2)
    requires forall i :: |pre| <= i < |mid| ==> !mid[i].SupportNotice?
    ensures SupportOnlyDiffers(pre, w1, w2)
  {
    var gap := mid[|pre|..];
    assert w1[|pre|..] == gap + w1[|mid|..];
    assert w2[|pre|..] == gap + w2[|mid|..];
    assert forall i :: 0 <= i < |gap| ==> gap[i] == mid[|pre| + i];
    RemoveSupportNone(gap);
    RemoveSupportAppend(gap, w2[|mid|..]);
  }

  /** What the first of two related traces appends holds no support notice. */
  lemma OnlyDiffersNoNotice(pre: seq<Event>, w1: seq<Event>, w2: seq<Event>)
    requires SupportOnlyDiffers(pre, w1, w2)
    ensures forall i :: |pre| <= i < |w1| ==> !w1[i].SupportNotice?
  {
    forall i | |pre| <= i < |w1|
      ensures !w1[i].SupportNotice?
    {
      assert w1[i] == w1[|pre|..][i - |pre|];
    }
  }

  /** The risk logs a notification appends after its mails, as far as it gets. */
  function RiskLogs(accountId: AccountId, f: set<Call>): seq<Event>
  {
    if LogRiskyIps in f then [] else if LogRiskyCards in f then [RiskyIpsLogged(accountId)]
    else [RiskyIpsLogged(accountId), RiskyCardsLogged(accountId)]
  }

  /** A notification whose user mail goes out appends the mail, the support notice unless
      that call raises, and the risk logs as far as they get. */
  lemma NotifyShape(s: State, u: UserId, servers: seq<ServerId>, accountId: AccountId, f: set<Call>)
    requires DeliverUserMail !in f
    ensures NotifyAndLogRisk(s, u, servers, accountId, f).0.events ==
              s.events + ([ValidationMail(u, servers)] +
                ((if NotifySupport in f then [] else [SupportNotice(u, servers)]) + RiskLogs(accountId, f)))
  {
  }

  /** The mail, then the support notice or not, then the same risk logs: the two traces
      differ by the support notice only. */
  lemma MailThenLogs(pre: seq<Event>, vm: Event, sn: Event, x: seq<Event>)
    requires vm.ValidationMail? && sn.SupportNotice?
    requires forall i :: 0 <= i < |x| ==> !x[i].SupportNotice?
    ensures SupportOnlyDiffers(pre, pre + ([vm] + x), pre + ([vm] + ([sn] + x)))
  {
    DropPrefix(pre, [vm] + x);
    DropPrefix(pre, [vm] + ([sn] + x));
    RemoveSupportCons(vm, [sn] + x);
    RemoveSupportCons(sn, x);
    RemoveSupportNone(x);
    assert RemoveSupport([vm] + ([sn] + x)) == [vm] + ([] + x);
    assert [] + x == x;
  }

  lemma DropPrefix(pre: seq<Event>, y: seq<Event>)
    ensures pre <= pre + y && (pre + y)[|pre|..] == y
  {
  }

  /** The notifications with and without the support notice raising: the same completion,
      and the same effects, the support notice aside. */
  lemma NotifySupportSwallowed(s: State, u: UserId, servers: seq<ServerId>, accountId: AccountId, f: set<Call>)
    ensures var (n1, k1) := NotifyAndLogRisk(s, u, servers, accountId, f + {NotifySupport});
            var (n2, k2) := NotifyAndLogRisk(s, u, servers, accountId, f - {NotifySupport});
            k1 == k2 && Strip(n1) == Strip(n2) && SupportOnlyDiffers(s.events, n1.events, n2.events) &&
            (forall i :: |s.events| <= i < |n1.events| ==> !n1.events[i].SupportNotice?)
  {
    NotifyTracesDiffer(s, u, servers, accountId, f);
    var n1 := NotifyAndLogRisk(s, u, servers, accountId, f + {NotifySupport}).0;
    var n2 := NotifyAndLogRisk(s, u, servers, accountId, f - {NotifySupport}).0;
    OnlyDiffersNoNotice(s.events, n1.events, n2.events);
  }

  /** The trace half of the above. */
  lemma NotifyTracesDiffer(s: State, u: UserId, servers: seq<ServerId>, accountId: AccountId, f: set<Call>)
    ensures SupportOnlyDiffers(s.events, NotifyAndLogRisk(s, u, servers, accountId, f + {NotifySupport}).0.events,
                               NotifyAndLogRisk(s, u, servers, accountId, f - {NotifySupport}).0.events)
  {
    var with, without := f + {NotifySupport}, f - {NotifySupport};
    if DeliverUserMail in f {
      OnlyDiffersSame(s.events, s.events);
    } else {
      var x := RiskLogs(accountId, with);
      assert RiskLogs(accountId, without) == x;
      NotifyShape(s, u, servers, accountId, with);
      NotifyShape(s, u, servers, accountId, without);
      MailThenLogs(s.events, ValidationMail(u, servers), SupportNotice(u, servers), x);
    }
  }

  /** The traversal of enforcement past the user load and the chargeback activity: the
      server list load, then block_server on each server. */
  function Traversal(s: State, d: Dispute, receipt: Receipt, account: Account, f: set<Call>): (r: (State, Completion))
    requires Valid(s) && account.userId in s.tables.serversOf
    ensures s.events <= r.0.events && |r.0.events| > |s.events|
    ensures r.0.events[|s.events|] == ChargebackActivity(account.userId, d, receipt)
    ensures forall i :: |s.events| <= i < |r.0.events| ==> !r.0.events[i].SupportNotice?
  {
    var s1 := Emit(s, ChargebackActivity(account.userId, d, receipt));
    var r := BlockUsersServers(s1, s.tables.serversOf[account.userId], f);
    assert forall i :: |s.events| < i < |r.0.events| ==> IsServerEvent(r.0.events[i]);
    assert r.0.events[|s.events|] == s1.events[|s.events|];
    r
  }

  /** Enforcement past the user load and the chargeback activity: the traversal, then the
      notifications when it completes. */
  lemma BlockStage(s: State, d: Dispute, receipt: Receipt, account: Account, f: set<Call>)
    requires Valid(s) && LoadUser !in f && account.userId in s.tables.serversOf && CreateChargebackActivity !in f
    ensures var (s2, c) := Traversal(s, d, receipt, account, f);
            Enforce(s, d, receipt, account, f) ==
              (if c.Abrupt? then (s2, c)
               else NotifyAndLogRisk(s2, account.userId, s.tables.serversOf[account.userId], account.id, f))
  {
  }

  /** The support call's failure in an enforcement that gets past the user load and the
      chargeback activity. */
  lemma BlockStageSupportSwallowed(s: State, d: Dispute, receipt: Receipt, account: Account, f: set<Call>)
    requires Valid(s) && LoadUser !in f && account.userId in s.tables.serversOf && CreateChargebackActivity !in f
    ensures var (t1, c1) := Enforce(s, d, receipt, account, f + {NotifySupport});
            var (t2, c2) := Enforce(s, d, receipt, account, f - {NotifySupport});
            c1 == c2 && Strip(t1) == Strip(t2) && SupportOnlyDiffers(s.events, t1.events, t2.events)
  {
    var with, without := f + {NotifySupport}, f - {NotifySupport};
    var u := account.userId;
    var s1 := Emit(s, ChargebackActivity(u, d, receipt));
    var servers := s.tables.serversOf[u];
    BlockAllSeesOnlyBlockCalls(s1, servers, with, without);
    var (s2, c) := Traversal(s, d, receipt, account, with);
    assert Traversal(s, d, receipt, account, without) == (s2, c);
    BlockStage(s, d, receipt, account, with);
    BlockStage(s, d, receipt, account, without);
    if c.Normal? {
      NotifySupportSwallowed(s2, u, servers, account.id, f);
    } else {
      OnlyDiffersSame(s2.events, s2.events);
    }
    OnlyDiffersFrom(s.events, s2.events, Enforce(s, d, receipt, account, with).0.events,
                    Enforce(s, d, receipt, account, without).0.events);
  }

  /** The same for the whole enforcement block: the traversal does not depend on the support
      call, and its effects hold no support notice. */
  lemma EnforceSupportSwallowed(s: State, d: Dispute, receipt: Receipt, account: Account, f: set<Call>)
    requires Valid(s)
    ensures var (t1, c1) := Enforce(s, d, receipt, account, f + {NotifySupport});
            var (t2, c2) := Enforce(s, d, receipt, account, f - {NotifySupport});
            c1 == c2 && Strip(t1) == Strip(t2) && SupportOnlyDiffers(s.events, t1.events, t2.events) &&
            (forall i :: |s.events| <= i < |t1.events| ==> !t1.events[i].SupportNotice?)
  {
    var t1 := Enforce(s, d, receipt, account, f + {NotifySupport}).0;
    var t2 := Enforce(s, d, receipt, account, f - {NotifySupport}).0;
    if LoadUser !in f && account.userId in s.tables.serversOf && CreateChargebackActivity !in f {
      BlockStageSupportSwallowed(s, d, receipt, account, f);
    } else {
      OnlyDiffersSame(s.events, s.events);
    }
    OnlyDiffersNoNotice(s.events, t1.events, t2.events);
  }

  /** The write-back reads nothing of the trace and none of the notification calls. */
  lemma SaveIgnoresSupport(e1: State, e2: State, id: string, receipt: Receipt, f: set<Call>)
    requires Strip(e1) == Strip(e2)
    ensures var (w1, k1) := UpdateDispute(e1, id, receipt, f + {NotifySupport});
            var (w2, k2) := UpdateDispute(e2, id, receipt, f - {NotifySupport});
            k1 == k2 && Strip(w1) == Strip(w2) &&
            (forall i :: |e1.events| <= i < |w1.events| ==> !w1.events[i].SupportNotice?)
  {
    assert e1.gateway == e2.gateway;
  }

  /** The body of one iteration, with and without the support notification failing. */
  lemma ReconcileSupportSwallowed(s: State, d: Dispute, f: set<Call>)
    requires Valid(s)
    ensures var (t1, o1) := Reconcile(s, d, f + {NotifySupport});
            var (t2, o2) := Reconcile(s, d, f - {NotifySupport});
            o1 == o2 && Strip(t1) == Strip(t2) && SupportOnlyDiffers(s.events, t1.events, t2.events) &&
            (forall i :: |s.events| <= i < |t1.events| ==> !t1.events[i].SupportNotice?)
  {
    var with, without := f + {NotifySupport}, f - {NotifySupport};
    var t1 := Reconcile(s, d, with).0;
    var t2 := Reconcile(s, d, without).0;
    assert LookupFault(s, d, with) == LookupFault(s, d, without);
    if LookupFault(s, d, with).Some? || Correlate(s, d).Unmatched? {
      OnlyDiffersSame(s.events, s.events);
      OnlyDiffersNoNotice(s.events, t1.events, t2.events);
    } else {
      var receipt, account := Correlate(s, d).receipt, Correlate(s, d).account;
      EnforceSupportSwallowed(s, d, receipt, account, f);
      var (e1, c1) := Enforce(s, d, receipt, account, with);
      var (e2, c2) := Enforce(s, d, receipt, account, without);
      SaveIgnoresSupport(e1, e2, d.id, receipt, f);
      if c1.Normal? && UpdateDispute(e1, d.id, receipt, with).1.Normal? {
        OnlyDiffersExtend(s.events, e1.events, e2.events, MetadataSaved(d.id, Marker(receipt)));
      }
      OnlyDiffersNoNotice(s.events, t1.events, t2.events);
    }
  }

  /** The support notification's failure is swallowed: with or without it, the dispute has
      the same outcome, the same reasons and gateway records, and the same effects in the
      same order, the support notice aside. */
  lemma SupportFailureIsSwallowed(s: State, d: Dispute, f: set<Call>)
    requires Valid(s)
    ensures var (t1, o1) := Handle(s, d, f + {NotifySupport});
            var (t2, o2) := Handle(s, d, f - {NotifySupport});
            o1 == o2 && Strip(t1) == Strip(t2) && SupportOnlyDiffers(s.events, t1.events, t2.events) &&
            (forall i :: |s.events| <= i < |t1.events| ==> !t1.events[i].SupportNotice?)
  {
    ReconcileSupportSwallowed(s, d, f);
    var (r1, o1) := Reconcile(s, d, f + {NotifySupport});
    var r2 := Reconcile(s, d, f - {NotifySupport}).0;
    if o1.Failed? {
      OnlyDiffersExtend(s.events, r1.events, r2.events, ErrorTracked(o1.error, d.charge, SOURCE));
    }
    OnlyDiffersNoNotice(s.events, Handle(s, d, f + {NotifySupport}).0.events, Handle(s, d, f - {NotifySupport}).0.events);
  }
}
