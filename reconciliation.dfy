/** The reconciliation run as functions on the world state: each function
    gives the state after one operation of the worker and how it completed. */
module Reconciliation {
  import opened DisputeTypes
  import opened DisputeMetadata

  /** The source tag attached to every tracked exception. */
  const SOURCE := "DisputeManager"

  /** The validation reason that marks a dispute quarantine. */
  const DISPUTE_QUARANTINE := 4

  /** Referential integrity of the tables: every server in a user's list is a known server
      of that user, and every account is filed under its own id. */
  predicate Coherent(t: Tables, known: set<ServerId>)
  {
    (forall u, sid :: u in t.serversOf && sid in t.serversOf[u] ==>
       sid in known && sid in t.ownerOf && t.ownerOf[sid] == u) &&
    (forall k :: k in t.accounts ==> t.accounts[k].id == k)
  }

  predicate Valid(s: State)
  {
    Coherent(s.tables, s.reasons.Keys)
  }

  /** The tables the worker only reads. */
  predicate SameTables(s: State, t: State)
  {
    t.tables == s.tables
  }

  /** Validation reasons go from s to t only by quarantining servers not under validation. */
  predicate Quarantines(s: State, t: State)
  {
    t.reasons.Keys == s.reasons.Keys &&
    forall x :: x in s.reasons ==>
      t.reasons[x] == s.reasons[x] || (s.reasons[x] <= 0 && t.reasons[x] == DISPUTE_QUARANTINE)
  }

  function Emit(s: State, e: Event): State
  {
    s.(events := s.events + [e])
  }

  /** The effects of block_server: the shutdown call and the activities recorded on a server. */
  predicate IsServerEvent(e: Event)
  {
    e.ShutdownCall? || (e.Activity? && e.trackable.ServerRecord? && e.key != Chargeback)
  }

  predicate IsChargeback(e: Event)
  {
    e.Activity? && e.key == Chargeback
  }

  predicate IsWriteBack(e: Event)
  {
    e.MetadataSaved?
  }

  predicate IsNoticeEvent(e: Event)
  {
    e.ValidationMail? || e.SupportNotice? || e.RiskyIpsLogged? || e.RiskyCardsLogged?
  }

  /** Every event of t from index k on is an effect of block_server. */
  predicate ServerEventsFrom(t: seq<Event>, k: nat)
  {
    forall i :: k <= i < |t| ==> IsServerEvent(t[i])
  }

  /** Every event of t from index k on is a quarantine, notification or risk-log effect. */
  predicate EnforcementOnlyFrom(t: seq<Event>, k: nat)
  {
    forall i :: k <= i < |t| ==> IsServerEvent(t[i]) || IsNoticeEvent(t[i])
  }

  /** Every server of sids is under validation in t. */
  predicate AllQuarantined(t: State, sids: seq<ServerId>)
  {
    forall i :: 0 <= i < |sids| ==> sids[i] in t.reasons && t.reasons[sids[i]] > 0
  }

  /** The calls block_server makes on one server. */
  function BlockCalls(sid: ServerId): set<Call>
  {
    {ShutdownServer(sid), CreateShutdownActivity(sid), UpdateValidationReason(sid), CreateValidationActivity(sid)}
  }

  /** The trace of a completed quarantine: shutdown, shutdown activity, validation activity. */
  function QuarantineEvents(u: UserId, sid: ServerId): seq<Event>
  {
    [ShutdownCall(u, sid),
     Activity(ServerRecord(sid), u, Shutdown, NoParams),
     Activity(ServerRecord(sid), u, Validation, ReasonParams(DISPUTE_QUARANTINE))]
  }

  /** block_server: skip a server under validation; otherwise shut it down, record the
      shutdown, set its reason to 4 and record the validation, stopping at the first
      call that raises. */
  function BlockServer(s: State, sid: ServerId, f: set<Call>): (r: (State, Completion))
    requires sid in s.reasons && sid in s.tables.ownerOf
    ensures SameTables(s, r.0) && r.0.gateway == s.gateway && Quarantines(s, r.0)
    ensures forall x :: x in s.reasons && x != sid ==> r.0.reasons[x] == s.reasons[x]
    ensures s.reasons[sid] > 0 ==> r == (s, Normal)
    ensures r.1.Normal? <==> s.reasons[sid] > 0 || BlockCalls(sid) !! f
    ensures s.reasons[sid] <= 0 && r.1.Normal? ==>
              r.0.reasons == s.reasons[sid := DISPUTE_QUARANTINE] &&
              r.0.events == s.events + QuarantineEvents(s.tables.ownerOf[sid], sid)
    ensures r.0.events <= s.events + QuarantineEvents(s.tables.ownerOf[sid], sid)
    ensures s.events <= r.0.events && ServerEventsFrom(r.0.events, |s.events|)
    ensures r.1.Abrupt? ==> r.1.error.Raised? && r.1.error.call in BlockCalls(sid) * f
  {
    if s.reasons[sid] > 0 then (s, Normal)
    else
      var u := s.tables.ownerOf[sid];
      if ShutdownServer(sid) in f then (s, Abrupt(Raised(ShutdownServer(sid))))
      else
        var s1 := Emit(s, ShutdownCall(u, sid));
        if CreateShutdownActivity(sid) in f then (s1, Abrupt(Raised(CreateShutdownActivity(sid))))
        else
          var s2 := Emit(s1, Activity(ServerRecord(sid), u, Shutdown, NoParams));
          if UpdateValidationReason(sid) in f then (s2, Abrupt(Raised(UpdateValidationReason(sid))))
          else
            var s3 := s2.(reasons := s2.reasons[sid := DISPUTE_QUARANTINE]);
            if CreateValidationActivity(sid) in f then (s3, Abrupt(Raised(CreateValidationActivity(sid))))
            else (Emit(s3, Activity(ServerRecord(sid), u, Validation, ReasonParams(s3.reasons[sid]))), Normal)
  }

  /** `servers.map { |server| block_server(server) }`: block each server in order; the
      first exception ends the traversal. */
  function BlockAll(s: State, sids: seq<ServerId>, f: set<Call>): (r: (State, Completion))
    requires forall i :: 0 <= i < |sids| ==> sids[i] in s.reasons && sids[i] in s.tables.ownerOf
    ensures SameTables(s, r.0) && r.0.gateway == s.gateway && Quarantines(s, r.0)
    ensures r.1.Abrupt? ==> r.1.error.Raised? && r.1.error.call in f
    ensures s.events <= r.0.events && ServerEventsFrom(r.0.events, |s.events|)
    decreases |sids|
  {
    if sids == [] then (s, Normal)
    else
      var (t, c) := BlockServer(s, sids[0], f);
      if c.Abrupt? then (t, c) else BlockAll(t, sids[1..], f)
  }

  /** The chargeback activity recorded on the account's user. */
  function ChargebackActivity(u: UserId, d: Dispute, receipt: Receipt): Event
  {
    Activity(UserRecord(u), u, Chargeback,
             ChargebackParams(d.amount, d.currency, d.reason, d.status, receipt.id))
  }

  datatype Correlation = Unmatched(cause: Skip) | Matched(receipt: Receipt, account: Account)

  /** The three skip guards: already reconciled, no receipt for the charge, no account. */
  function Correlate(s: State, d: Dispute): (r: Correlation)
    ensures r == Unmatched(AlreadyReconciled) <==> Reconciled(d.metadata)
    ensures r == Unmatched(NoReceipt) <==> !Reconciled(d.metadata) && d.charge !in s.tables.receipts
    ensures r == Unmatched(NoAccount) <==>
              !Reconciled(d.metadata) && d.charge in s.tables.receipts && s.tables.receipts[d.charge].accountId !in s.tables.accounts
    ensures r.Matched? ==>
              d.charge in s.tables.receipts && r.receipt == s.tables.receipts[d.charge] &&
              r.receipt.accountId in s.tables.accounts && r.account == s.tables.accounts[r.receipt.accountId]
  {
    if Reconciled(d.metadata) then Unmatched(AlreadyReconciled)
    else if d.charge !in s.tables.receipts then Unmatched(NoReceipt)
    else
      var receipt := s.tables.receipts[d.charge];
      if receipt.accountId !in s.tables.accounts then Unmatched(NoAccount)
      else Matched(receipt, s.tables.accounts[receipt.accountId])
  }

  /** The database reads of the skip guards: `PaymentReceipt.find_by_reference` and the
      receipt's account. */
  function LookupCalls(): set<Call>
  {
    {FindReceipt, LoadAccount}
  }

  /** The read of the skip guards that raises, if any: the receipt lookup runs once the
      dispute is not reconciled, the account load once a receipt is found. */
  function LookupFault(s: State, d: Dispute, f: set<Call>): (r: Option<Call>)
    ensures r.Some? ==> !Reconciled(d.metadata) && r.value in LookupCalls() * f
    ensures r.None? <==>
              Reconciled(d.metadata) ||
              (FindReceipt !in f && (d.charge !in s.tables.receipts || LoadAccount !in f))
    ensures r == Some(LoadAccount) ==> d.charge in s.tables.receipts
  {
    if Reconciled(d.metadata) then None
    else if FindReceipt in f then Some(FindReceipt)
    else if d.charge in s.tables.receipts && LoadAccount in f then Some(LoadAccount)
    else None
  }

  /** The calls after the servers are blocked whose failure aborts the dispute. */
  function NoticeCalls(): set<Call>
  {
    {DeliverUserMail, LogRiskyIps, LogRiskyCards}
  }

  /** Mail the user, notify support (a failure there is swallowed), log the account's
      risky IP addresses, then its risky cards. */
  function NotifyAndLogRisk(s: State, u: UserId, servers: seq<ServerId>, accountId: AccountId, f: set<Call>): (r: (State, Completion))
    ensures r.0 == s.(events := r.0.events)
    ensures s.events <= r.0.events && EnforcementOnlyFrom(r.0.events, |s.events|)
    ensures r.1.Normal? <==> NoticeCalls() !! f
    ensures r.1.Abrupt? ==> r.1.error.Raised? && r.1.error.call in NoticeCalls() * f
    ensures r.1.Normal? ==>
              r.0.events == s.events + [ValidationMail(u, servers)] +
                (if NotifySupport in f then [] else [SupportNotice(u, servers)]) +
                [RiskyIpsLogged(accountId), RiskyCardsLogged(accountId)]
  {
    if DeliverUserMail in f then (s, Abrupt(Raised(DeliverUserMail)))
    else
      var s1 := Emit(s, ValidationMail(u, servers));
      var s2 := if NotifySupport in f then s1 else Emit(s1, SupportNotice(u, servers));
      if LogRiskyIps in f then (s2, Abrupt(Raised(LogRiskyIps)))
      else
        var s3 := Emit(s2, RiskyIpsLogged(accountId));
        if LogRiskyCards in f then (s3, Abrupt(Raised(LogRiskyCards)))
        else (Emit(s3, RiskyCardsLogged(accountId)), Normal)
  }

  /** The calls of the enforcement block outside block_server whose failure aborts the dispute. */
  function EnforcementCalls(): set<Call>
  {
    {LoadUser, CreateChargebackActivity, LoadServers} + NoticeCalls()
  }

  /** `account.user.servers.map { |server| block_server(server) }` after the chargeback
      activity: loading the server list may raise, then each server is blocked. */
  function BlockUsersServers(s: State, servers: seq<ServerId>, f: set<Call>): (r: (State, Completion))
    requires forall i :: 0 <= i < |servers| ==> servers[i] in s.reasons && servers[i] in s.tables.ownerOf
    ensures LoadServers in f ==> r == (s, Abrupt(Raised(LoadServers)))
    ensures LoadServers !in f ==> r == BlockAll(s, servers, f)
  {
    if LoadServers in f then (s, Abrupt(Raised(LoadServers))) else BlockAll(s, servers, f)
  }

  /** The enforcement block: load the account's user, record the chargeback activity on the
      user, load and block every server of the user, then notifications and risk logging. */
  function Enforce(s: State, d: Dispute, receipt: Receipt, account: Account, f: set<Call>): (r: (State, Completion))
    requires Valid(s)
    ensures Valid(r.0) && SameTables(s, r.0) && r.0.gateway == s.gateway && Quarantines(s, r.0)
    ensures s.events <= r.0.events
    ensures r.1.Abrupt? ==> r.1.error == NilUser || (r.1.error.Raised? && r.1.error.call in f)
  {
    var u := account.userId;
    if LoadUser in f then (s, Abrupt(Raised(LoadUser)))
    else if u !in s.tables.serversOf then (s, Abrupt(NilUser))
    else if CreateChargebackActivity in f then (s, Abrupt(Raised(CreateChargebackActivity)))
    else
      var servers := s.tables.serversOf[u];
      var s1 := Emit(s, ChargebackActivity(u, d, receipt));
      var (s2, c) := BlockUsersServers(s1, servers, f);
      if c.Abrupt? then (s2, c)
      else NotifyAndLogRisk(s2, u, servers, account.id, f)
  }

  /** update_dispute: fetch the dispute again, replace its metadata by the marker, save it. */
  function UpdateDispute(s: State, id: string, receipt: Receipt, f: set<Call>): (r: (State, Completion))
    ensures SameTables(s, r.0) && r.0.reasons == s.reasons && r.0.gateway.Keys == s.gateway.Keys
    ensures r.1.Normal? <==> id in s.gateway && GetDispute !in f && SaveDispute !in f
    ensures r.1.Normal? ==>
              r.0.gateway == s.gateway[id := s.gateway[id].(metadata := Marker(receipt))] &&
              r.0.events == s.events + [MetadataSaved(id, Marker(receipt))]
    ensures r.1.Abrupt? ==> r.0 == s && r.1.error.Raised?
  {
    if GetDispute in f || id !in s.gateway then (s, Abrupt(Raised(GetDispute)))
    else if SaveDispute in f then (s, Abrupt(Raised(SaveDispute)))
    else
      var m := Marker(receipt);
      (Emit(s.(gateway := s.gateway[id := s.gateway[id].(metadata := m)]), MetadataSaved(id, m)), Normal)
  }

  /** The body of one iteration of perform, up to (not including) its rescue. */
  function Reconcile(s: State, d: Dispute, f: set<Call>): (r: (State, Outcome))
    requires Valid(s)
    ensures Valid(r.0) && SameTables(s, r.0) && Quarantines(s, r.0) && s.events <= r.0.events
    ensures r.0.gateway.Keys == s.gateway.Keys
    ensures r.1.Skipped? <==> LookupFault(s, d, f).None? && Correlate(s, d).Unmatched?
    ensures r.1.Skipped? ==> r.0 == s && r.1.cause == Correlate(s, d).cause
    ensures LookupFault(s, d, f).Some? ==> r == (s, Failed(Raised(LookupFault(s, d, f).value)))
    ensures r.1.Failed? ==> r.0.gateway == s.gateway
    ensures r.1.Processed? ==>
              LookupFault(s, d, f).None? && d.id in s.gateway &&
              r.0.gateway == s.gateway[d.id := s.gateway[d.id].(metadata := Marker(Correlate(s, d).receipt))]
  {
    if LookupFault(s, d, f).Some? then (s, Failed(Raised(LookupFault(s, d, f).value)))
    else match Correlate(s, d)
    case Unmatched(cause) => (s, Skipped(cause))
    case Matched(receipt, account) =>
      var (t, c) := Enforce(s, d, receipt, account, f);
      if c.Abrupt? then (t, Failed(c.error))
      else
        var (t2, c2) := UpdateDispute(t, d.id, receipt, f);
        if c2.Abrupt? then (t2, Failed(c2.error)) else (t2, Processed)
  }

  /** One iteration of perform: the body, and on an exception the tracked error entry with
      the dispute's charge and the source tag. */
  function Handle(s: State, d: Dispute, f: set<Call>): (r: (State, Outcome))
    requires Valid(s)
    ensures Valid(r.0) && SameTables(s, r.0) && Quarantines(s, r.0) && s.events <= r.0.events
    ensures r.0.gateway.Keys == s.gateway.Keys
    ensures r.1.Skipped? ==> r.0 == s
    ensures r.1.Failed? ==>
              r.0.gateway == s.gateway && |r.0.events| > |s.events| &&
              r.0.events[|r.0.events| - 1] == ErrorTracked(r.1.error, d.charge, SOURCE)
    ensures r.1.Processed? ==>
              Correlate(s, d).Matched? && d.id in s.gateway &&
              r.0.gateway == s.gateway[d.id := s.gateway[d.id].(metadata := Marker(Correlate(s, d).receipt))]
  {
    var (t, o) := Reconcile(s, d, f);
    if o.Failed? then (Emit(t, ErrorTracked(o.error, d.charge, SOURCE)), o) else (t, o)
  }

  /** perform over a listed batch: every dispute is handled in order, whatever the
      previous ones did. */
  function Run(s: State, ds: seq<Dispute>, oracle: Oracle): (r: State)
    requires Valid(s)
    ensures Valid(r) && SameTables(s, r) && Quarantines(s, r) && s.events <= r.events
    ensures r.gateway.Keys == s.gateway.Keys
    ensures forall id :: id in s.gateway && (forall i :: 0 <= i < |ds| ==> ds[i].id != id) ==>
              r.gateway[id] == s.gateway[id]
    decreases |ds|
  {
    if ds == [] then s
    else Run(Handle(s, ds[0], FaultsFor(oracle, ds[0].id)).0, ds[1..], oracle)
  }
}
