/** The worker itself: the tables and the gateway it touches as fields, and its three
    operations as methods proved to compute what the functions of Reconciliation say. */
module DisputeWorker {
  import opened DisputeTypes
  import opened DisputeMetadata
  import R = Reconciliation

  class DisputeManager {
    /** servers.validation_reason, by server id */
    var reasons: map<ServerId, int>
    /** servers.user_id */
    var ownerOf: map<ServerId, UserId>
    /** each user's servers, in association order */
    var serversOf: map<UserId, seq<ServerId>>
    var accounts: map<AccountId, Account>
    /** payment receipts by charge reference */
    var receipts: map<string, Receipt>
    /** the disputes held by the payment gateway */
    var gateway: map<string, Dispute>
    /** every external effect so far, in order */
    var events: seq<Event>

    ghost function Abs(): State
      reads this
    {
      State(Tables(ownerOf, serversOf, accounts, receipts), reasons, gateway, events)
    }

    ghost predicate Valid()
      reads this
    {
      R.Valid(Abs())
    }

    constructor (init: State)
      ensures Abs() == init
    {
      ownerOf, serversOf := init.tables.ownerOf, init.tables.serversOf;
      accounts, receipts := init.tables.accounts, init.tables.receipts;
      reasons := init.reasons;
      gateway, events := init.gateway, init.events;
    }

    /** block_server: check-then-set quarantine of one server. */
    method BlockServer(sid: ServerId, f: set<Call>) returns (c: Completion)
      requires sid in reasons && sid in ownerOf
      modifies this
      ensures (Abs(), c) == R.BlockServer(old(Abs()), sid, f)
    {
      if reasons[sid] > 0 {
        return Normal;
      }
      var u := ownerOf[sid];
      if ShutdownServer(sid) in f {
        return Abrupt(Raised(ShutdownServer(sid)));
      }
      events := events + [ShutdownCall(u, sid)];
      if CreateShutdownActivity(sid) in f {
        return Abrupt(Raised(CreateShutdownActivity(sid)));
      }
      events := events + [Activity(ServerRecord(sid), u, Shutdown, NoParams)];
      if UpdateValidationReason(sid) in f {
        return Abrupt(Raised(UpdateValidationReason(sid)));
      }
      reasons := reasons[sid := R.DISPUTE_QUARANTINE];
      if CreateValidationActivity(sid) in f {
        return Abrupt(Raised(CreateValidationActivity(sid)));
      }
      events := events + [Activity(ServerRecord(sid), u, Validation, ReasonParams(reasons[sid]))];
      c := Normal;
    }

    /** update_dispute: re-fetch the dispute, replace its metadata by the marker, save it. */
    method UpdateDispute(id: string, receipt: Receipt, f: set<Call>) returns (c: Completion)
      modifies this
      ensures (Abs(), c) == R.UpdateDispute(old(Abs()), id, receipt, f)
    {
      if GetDispute in f || id !in gateway {
        return Abrupt(Raised(GetDispute));
      }
      var fetched := gateway[id];
      var marker := Marker(receipt);
      fetched := fetched.(metadata := marker);
      if SaveDispute in f {
        return Abrupt(Raised(SaveDispute));
      }
      gateway := gateway[id := fetched];
      events := events + [MetadataSaved(id, marker)];
      c := Normal;
    }

    /** `servers.map { |server| block_server(server) }`: the first exception stops it. */
    method BlockServers(servers: seq<ServerId>, f: set<Call>) returns (c: Completion)
      requires forall i :: 0 <= i < |servers| ==> servers[i] in reasons && servers[i] in ownerOf
      modifies this
      ensures (Abs(), c) == R.BlockAll(old(Abs()), servers, f)
    {
      for i := 0 to |servers|
        invariant R.SameTables(old(Abs()), Abs()) && reasons.Keys == old(reasons).Keys
        invariant R.BlockAll(Abs(), servers[i..], f) == R.BlockAll(old(Abs()), servers, f)
      {
        c := BlockServer(servers[i], f);
        if c.Abrupt? {
          return;
        }
      }
      c := Normal;
    }

    /** Mail the user, notify support (`rescue nil`), log risky IP addresses and cards. */
    method NotifyAndLogRisk(u: UserId, servers: seq<ServerId>, accountId: AccountId, f: set<Call>)
      returns (c: Completion)
      modifies this
      ensures (Abs(), c) == R.NotifyAndLogRisk(old(Abs()), u, servers, accountId, f)
    {
      if DeliverUserMail in f {
        return Abrupt(Raised(DeliverUserMail));
      }
      events := events + [ValidationMail(u, servers)];
      if NotifySupport !in f {
        events := events + [SupportNotice(u, servers)];
      }
      if LogRiskyIps in f {
        return Abrupt(Raised(LogRiskyIps));
      }
      events := events + [RiskyIpsLogged(accountId)];
      if LogRiskyCards in f {
        return Abrupt(Raised(LogRiskyCards));
      }
      events := events + [RiskyCardsLogged(accountId)];
      c := Normal;
    }

    /** The enforcement steps for a matched dispute: the user load, the chargeback activity
        on the user, the server-list load and the quarantine of the user's servers,
        notifications and risk logging. */
    method Enforce(d: Dispute, receipt: Receipt, account: Account, f: set<Call>) returns (c: Completion)
      requires Valid()
      modifies this
      ensures (Abs(), c) == R.Enforce(old(Abs()), d, receipt, account, f)
    {
      var u := account.userId;
      if LoadUser in f {
        return Abrupt(Raised(LoadUser));
      }
      if u !in serversOf {
        return Abrupt(NilUser);
      }
      if CreateChargebackActivity in f {
        return Abrupt(Raised(CreateChargebackActivity));
      }
      events := events + [R.ChargebackActivity(u, d, receipt)];
      if LoadServers in f {
        return Abrupt(Raised(LoadServers));
      }
      var servers := serversOf[u];
      c := BlockServers(servers, f);
      if c.Abrupt? {
        return;
      }
      c := NotifyAndLogRisk(u, servers, account.id, f);
    }

    /** The body of one iteration of perform, before its rescue: the three skip guards with
        the receipt lookup and the account load, enforcement, then the write-back. */
    method ReconcileDispute(d: Dispute, f: set<Call>) returns (o: Outcome)
      requires Valid()
      modifies this
      ensures (Abs(), o) == R.Reconcile(old(Abs()), d, f)
    {
      if Reconciled(d.metadata) {
        return Skipped(AlreadyReconciled);
      }
      if FindReceipt in f {
        return Failed(Raised(FindReceipt));
      }
      if d.charge !in receipts {
        return Skipped(NoReceipt);
      }
      var receipt := receipts[d.charge];
      if LoadAccount in f {
        return Failed(Raised(LoadAccount));
      }
      if receipt.accountId !in accounts {
        return Skipped(NoAccount);
      }
      var account := accounts[receipt.accountId];
      var c := Enforce(d, receipt, account, f);
      if c.Abrupt? {
        return Failed(c.error);
      }
      c := UpdateDispute(d.id, receipt, f);
      if c.Abrupt? {
        return Failed(c.error);
      }
      o := Processed;
    }

    /** perform over the disputes the gateway listed: each one is reconciled, and an
        exception is tracked with the dispute's charge and the source tag, then the
        batch goes on. */
    method Perform(listed: seq<Dispute>, oracle: Oracle)
      requires Valid()
      modifies this
      ensures Valid()
      ensures Abs() == R.Run(old(Abs()), listed, oracle)
    {
      for i := 0 to |listed|
        invariant Valid()
        invariant R.Run(Abs(), listed[i..], oracle) == R.Run(old(Abs()), listed, oracle)
      {
        var d := listed[i];
        ghost var before := Abs();
        var o := ReconcileDispute(d, FaultsFor(oracle, d.id));
        if o.Failed? {
          events := events + [ErrorTracked(o.error, d.charge, R.SOURCE)];
        }
        assert Abs() == R.Handle(before, d, FaultsFor(oracle, d.id)).0;
        assert listed[i..][1..] == listed[i + 1..];
      }
    }
  }
}
