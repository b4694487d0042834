/** Entities the chargeback reconciliation worker reads and writes. */
module DisputeTypes {

  datatype Option<T> = None | Some(value: T)

  type ServerId = nat
  type UserId = nat
  type AccountId = nat
  type ReceiptId = nat

  /** Gateway metadata: string keys to string values. */
  type Metadata = map<string, string>

  /** A dispute record as the payment gateway reports it. */
  datatype Dispute = Dispute(
    id: string,
    charge: string,
    amount: int,
    currency: string,
    reason: string,
    status: string,
    metadata: Metadata)

  /** The internal payment receipt, found by the charge reference it records. */
  datatype Receipt = Receipt(id: ReceiptId, receiptNumber: string, accountId: AccountId)

  /** An account; `userId` names its user, who may be missing from the user table. */
  datatype Account = Account(id: AccountId, userId: UserId)

  /** Every external call of one dispute's processing that can raise, the database
      reads included: the receipt lookup, the account, user and server-list loads. */
  datatype Call =
    | FindReceipt
    | LoadAccount
    | LoadUser
    | CreateChargebackActivity
    | LoadServers
    | ShutdownServer(server: ServerId)
    | CreateShutdownActivity(server: ServerId)
    | UpdateValidationReason(server: ServerId)
    | CreateValidationActivity(server: ServerId)
    | DeliverUserMail
    | NotifySupport
    | LogRiskyIps
    | LogRiskyCards
    | GetDispute
    | SaveDispute

  /** What a raised exception was about. `NilUser`: the account has no user. */
  datatype Error = Raised(call: Call) | NilUser

  /** How a sequence of calls ended: normally, or by an exception. */
  datatype Completion = Normal | Abrupt(error: Error)

  /** Why a dispute was skipped without any effect. */
  datatype Skip = AlreadyReconciled | NoReceipt | NoAccount

  /** What happened to one dispute of the batch. */
  datatype Outcome = Skipped(cause: Skip) | Processed | Failed(error: Error)

  datatype Trackable = UserRecord(user: UserId) | ServerRecord(server: ServerId)

  datatype ActivityKey = Chargeback | Shutdown | Validation

  datatype Params =
    | ChargebackParams(amount: int, currency: string, disputeReason: string, status: string, receiptId: ReceiptId)
    | NoParams
    | ReasonParams(validationReason: int)

  /** One externally visible effect, in the order the worker causes it. */
  datatype Event =
    | Activity(trackable: Trackable, owner: UserId, key: ActivityKey, params: Params)
    | ShutdownCall(user: UserId, server: ServerId)
    | ValidationMail(user: UserId, servers: seq<ServerId>)
    | SupportNotice(user: UserId, servers: seq<ServerId>)
    | RiskyIpsLogged(account: AccountId)
    | RiskyCardsLogged(account: AccountId)
    | MetadataSaved(dispute: string, metadata: Metadata)
    | ErrorTracked(error: Error, charge: string, source: string)

  /** The tables the worker only reads.
      ownerOf: each server's user_id; serversOf: each user's server list;
      receipts: keyed by charge reference. */
  datatype Tables = Tables(
    ownerOf: map<ServerId, UserId>,
    serversOf: map<UserId, seq<ServerId>>,
    accounts: map<AccountId, Account>,
    receipts: map<string, Receipt>)

  /** Everything the worker can observe or change.
      reasons: each server's validation_reason;
      gateway: the disputes held by the payment gateway, by id;
      events: the append-only trace of external effects. */
  datatype State = State(
    tables: Tables,
    reasons: map<ServerId, int>,
    gateway: map<string, Dispute>,
    events: seq<Event>)

  /** Faults injected per dispute id; a dispute without an entry meets no fault. */
  type Oracle = map<string, set<Call>>

  function FaultsFor(oracle: Oracle, id: string): set<Call>
  {
    if id in oracle then oracle[id] else {}
  }
}
