/** The durable tables that every worker process shares, as plain values.

A `Db` is one committed state of the Postgres schema, restricted to the columns that
decide control flow. Times are abstract integers that only ever get compared.
*/
module Tables {

  datatype Option<+T> = None | Some(value: T)

  type Eid = nat
  type Guid = nat
  type Hash = nat
  type Address = nat

  /** A (chain, signer) pair: the owner of one on-chain account nonce sequence. */
  datatype Lane = Lane(chain: Eid, signer: string)

  /** Identity of a pathway row. */
  datatype PathKey = PathKey(src: Eid, dst: Eid, srcOApp: Address, dstOApp: Address)

  datatype Purpose =
    | CommitVerification
    | LzReceive
    | DvnVerify
    | PricingSnapshot
    | OtherPurpose(name: string)

  datatype TxStatus = Queued | NonceAssigned | Signed | Broadcast | Held | Confirmed | Failed

  datatype FailureKind =
    | EstimateGasRevert
    | ReceiptFailed
    | Canceled
    | NonceConsumedExternally
    | LegacyFailure(name: string)

  datatype ReceiptOutcome = OutcomeConfirmed | OutcomeReceiptFailed | OutcomeCanceled

  datatype HeldReason = NonceReconcileRequired | RepriceRequired | Manual | ConsumedExternally | BroadcastExhausted

  /** What a transaction does and who pays for it; fixed for the life of a row. */
  datatype TxRequest = TxRequest(
    chain: Eid, purpose: Purpose, guid: Option<Guid>, to: Address, payload: int, signer: string)

  /** A pinned receipt resolution: the terminal outcome and the attempt that mined. */
  datatype Pin = Pin(outcome: ReceiptOutcome, attempt: nat)

  /** Signing bookkeeping that the send pipeline rewrites freely. */
  datatype Signing = Signing(
    leaseUntil: Option<int>, nextSignAt: Option<int>, cancelRequested: bool, hasAttempt: bool)

  /** Gas cost of the mined receipt, in destination and (once priced) source wei. */
  datatype ReceiptCost = ReceiptCost(dst: Option<nat>, src: Option<nat>, observedAt: int)

  datatype Row = Row(
    req: TxRequest,
    status: TxStatus,
    nonce: Option<nat>,
    attempts: nat,
    failure: Option<FailureKind>,
    nextRetryAt: Option<int>,
    retryOf: Option<nat>,
    pin: Option<Pin>,
    held: Option<HeldReason>,
    signing: Signing,
    cost: ReceiptCost)

  datatype ExecutorStatus =
    | NewPacket
    | Assigned
    | WaitingDvnVerification
    | Verifiable
    | CommitTxEnqueued
    | Committed
    | Executable
    | LzReceiveTxEnqueued
    | Delivered
    | LzReceiveFailed
    | ManualReview

  datatype ExecutorJob = ExecutorJob(
    status: ExecutorStatus, fee: Option<nat>, retryCount: nat, commitHash: Option<Hash>, receiveHash: Option<Hash>)

  datatype DvnStatus =
    | DvnNew
    | DvnAssigned
    | WaitingConfirmations
    | QuorumChecking
    | ReadyToVerify
    | WouldVerify
    | VerifyTxEnqueued
    | DvnVerified
    | QuorumConflict
    | ReorgDetected
    | DvnManualReview

  datatype DvnJob = DvnJob(status: DvnStatus, fee: Option<nat>, confirmations: nat)

  datatype Packet = Packet(key: PathKey, srcBlock: nat, srcLog: nat, status: ExecutorStatus)

  /** `meta` stands for the descriptive columns that a config sync overwrites. */
  datatype Chain = Chain(enabled: bool, paused: bool, meta: int)
  datatype Pathway = Pathway(enabled: bool, paused: bool, meta: int)

  datatype Db = Db(
    outbox: map<nat, Row>,
    nextId: nat,
    cursors: map<Lane, nat>,
    jobs: map<Guid, ExecutorJob>,
    ledger: set<(Guid, Hash)>,
    dvn: map<Guid, DvnJob>,
    packets: map<Guid, Packet>,
    chains: map<Eid, Chain>,
    pathways: map<PathKey, Pathway>)

  datatype StoreError =
    | InvalidArgument
    | NotFailed
    | NotRetryable
    | NotRequeueable
    | PinnedReceipt
    | PricingNotRetryable
    | FeedBusy
    | ScopeInactive
    | ScopeMalformed
    | NoFailedTxRetry
    | NotCloneable
    | JobNotFound
    | WrongStatus
    | RowNotFound
    | PathwayNotFound
    | ChainNotFound
    | PacketNotFound
    | NonceCursorMissing
    | NonceOverflow
    | SignerLaneBlocked
    | LeaseLost
    | NotHeldExternally

  datatype Reply<+T> = Ok(value: T) | Err(error: StoreError)

  /** The committed state after a store call together with what the call returned. */
  datatype Outcome<+T> = Outcome(db: Db, reply: Reply<T>)

  const MAX_DB_NONCE: nat := 0x7fff_ffff_ffff_ffff
  const TX_AUTO_RETRY_MAX_ATTEMPTS: nat := 5
  const MAX_LZ_RECEIVE_DELIVERY_ATTEMPTS: nat := 5
  const TX_RETRY_SCOPE_DEFER_DELAY: int := 60
  const TX_AUTO_RETRY_BASE_DELAY: nat := 60
  const TX_AUTO_RETRY_MAX_DELAY: nat := 1800

  const IdleSigning := Signing(None, None, false, false)
  const NoCost := ReceiptCost(None, None, 0)

  function LaneOf(row: Row): Lane {
    Lane(row.req.chain, row.req.signer)
  }

  predicate PacketPurpose(p: Purpose) {
    p.CommitVerification? || p.LzReceive? || p.DvnVerify?
  }

  /** A newly inserted row. */
  function FreshRow(req: TxRequest): Row {
    Row(req, Queued, None, 0, None, None, None, None, None, IdleSigning, NoCost)
  }

  /** The row a retry inserts in place of a consumed `parent`. */
  function CloneRow(parent: Row, parentId: nat): Row {
    FreshRow(parent.req).(attempts := parent.attempts + 1, retryOf := Some(parentId))
  }

  predicate HasChild(outbox: map<nat, Row>, id: nat) {
    exists c :: c in outbox && outbox[c].retryOf == Some(id)
  }

  function InsertRow(db: Db, row: Row): Db {
    db.(outbox := db.outbox[db.nextId := row], nextId := db.nextId + 1)
  }

  function SetRow(db: Db, id: nat, row: Row): Db {
    db.(outbox := db.outbox[id := row])
  }

  function Unchanged<T>(db: Db, error: StoreError): Outcome<T> {
    Outcome(db, Err(error))
  }

  /** A call that left the tables in state `db` and returned `reply` did what `out` says. */
  ghost predicate Commits<T>(out: Outcome<T>, db: Db, reply: Reply<T>) {
    db == out.db && reply == out.reply
  }
}
