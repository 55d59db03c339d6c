/**
  The three tables the settlement system writes and the outbox they share. Every
  function below is one transaction: it commits rows and events together or changes
  nothing.
 */
module Database {
  import opened Base
  import opened Events
  import AuctionDomain
  import opened AuctionRuns
  import InvoiceDomain
  import opened InvoiceAggregate
  import opened SettlementDomain

  datatype Db = Db(
    auctions: map<Id, AuctionDomain.AuctionState>,
    invoices: Invoices,
    sagas: map<Id, SettlementState>,
    outbox: seq<Event>)

  /** Why a call came back with an error. */
  datatype Fault =
    | AuctionFault(auctionError: AuctionDomain.AuctionError)
    | BillingFault(invoiceError: InvoiceDomain.InvoiceError)
    | SagaFault(sagaError: SagaError)
    | Panic

  /** A gateway call: what it left in the database and what it told the caller. */
  datatype Called = Called(db: Db, fault: Option<Fault>)

  /** Deployment settings: commission, payment term and the replacement's window. */
  datatype RawConfig = RawConfig(terms: InvoiceDomain.BillingTerms, relistDelay: Duration, relistDuration: Duration)

  type Config = c: RawConfig | c.relistDelay > 0 && c.relistDuration > 0
    witness RawConfig(InvoiceDomain.RawTerms(0, 1), 1, 1)

  /** The two clock readings of one call; only Relist needs the later one. */
  datatype Clock = Clock(now: Time, later: Time)

  // ---------- Rows ----------

  function PutAuction(db: Db, a: AuctionDomain.AuctionState, es: seq<Event>): Db {
    db.(auctions := db.auctions[a.id := a], outbox := db.outbox + es)
  }

  function PutInvoice(db: Db, i: InvoiceDomain.InvoiceState, es: seq<Event>): Db {
    db.(invoices := db.invoices[i.id := i], outbox := db.outbox + es)
  }

  function PutSaga(db: Db, s: SettlementState): Db {
    db.(sagas := db.sagas[s.auctionId := s])
  }

  /** A context writes its own table and the outbox. */
  ghost predicate OnlyAuctionsWritten(db: Db, db': Db) {
    db' == db.(auctions := db'.auctions, outbox := db'.outbox)
  }

  ghost predicate OnlyInvoicesWritten(db: Db, db': Db) {
    db' == db.(invoices := db'.invoices, outbox := db'.outbox)
  }

  // ---------- The auction context ----------

  /** Loads, runs the command, stores the next version and publishes; an error rolls back. */
  function UpdateAuction(db: Db, id: Id, c: Command): (r: Result<Db, AuctionDomain.AuctionError>)
    ensures r.Ok? ==> OnlyAuctionsWritten(db, r.value)
  {
    if id !in db.auctions then Err(AuctionDomain.ErrNotFound)
    else
      match Perform(db.auctions[id], c)
      case Err(e) => Err(e)
      case Ok(change) =>
        var stored := change.next.(version := change.next.version + 1);
        Ok(PutAuction(db, stored, MapDomainEvents(change.next, change.events)))
  }

  /** A fault that means "already in the target state" is success. */
  function Idempotent(db: Db, r: Result<Db, AuctionDomain.AuctionError>, done: AuctionDomain.AuctionError): (c: Called)
    requires r.Ok? ==> OnlyAuctionsWritten(db, r.value)
    ensures OnlyAuctionsWritten(db, c.db)
  {
    match r
    case Ok(db') => Called(db', None)
    case Err(e) => Called(db, if e == done then None else Some(AuctionFault(e)))
  }

  function AwardToRunnerUp(db: Db, id: Id, now: Time): (c: Called)
    ensures OnlyAuctionsWritten(db, c.db)
  {
    Idempotent(db, UpdateAuction(db, id, DoAward(now)), AuctionDomain.ErrWinnerAlreadyReassigned)
  }

  function ConfirmSettlement(db: Db, id: Id, now: Time): (c: Called)
    ensures OnlyAuctionsWritten(db, c.db)
  {
    Idempotent(db, UpdateAuction(db, id, DoConfirm(now)), AuctionDomain.ErrAlreadySettled)
  }

  function MarkSaleFailed(db: Db, id: Id, reason: FailureReason, now: Time): (c: Called)
    ensures OnlyAuctionsWritten(db, c.db)
  {
    Idempotent(db, UpdateAuction(db, id, DoFail(reason, now)), AuctionDomain.ErrSaleAlreadyFailed)
  }

  predicate ReplacementOf(db: Db, original: Id) {
    exists k | k in db.auctions :: db.auctions[k].relistOf == original
  }

  /** An id conflict is a silent no-op; a second replacement of the same original is refused. */
  function AddAuction(db: Db, v: AuctionDomain.Change): (r: Result<Db, AuctionDomain.AuctionError>)
    ensures r.Ok? ==> OnlyAuctionsWritten(db, r.value)
  {
    if v.next.id in db.auctions then Ok(db)
    else if v.next.relistOf != Nil && ReplacementOf(db, v.next.relistOf) then Err(AuctionDomain.ErrAlreadyRelisted)
    else Ok(PutAuction(db, v.next, MapDomainEvents(v.next, v.events)))
  }

  function Relist(db: Db, original: Id, newId: Id, startsAt: Time, endsAt: Time, now: Time): (c: Called)
    ensures OnlyAuctionsWritten(db, c.db)
  {
    match AuctionDomain.NewBiddingWindow(startsAt, endsAt)
    case None => Called(db, Some(AuctionFault(AuctionDomain.ErrInvalidBiddingWindow)))
    case Some(window) =>
      if original !in db.auctions then Called(db, Some(AuctionFault(AuctionDomain.ErrNotFound)))
      else
        match AuctionDomain.RelistedFrom(db.auctions[original], newId, window, now)
        case Err(e) => Called(db, Some(AuctionFault(e)))
        case Ok(v) => Idempotent(db, AddAuction(db, v), AuctionDomain.ErrAlreadyRelisted)
  }

  // ---------- The billing context ----------

  /**
    Reads the row, ends the invoice and publishes. A row whose amounts wrapped below zero
    cannot be read back, and every update of it fails before it starts.
   */
  function UpdateInvoice(db: Db, inv: Id, e: InvoiceDomain.Ending): (r: Result<Db, InvoiceDomain.InvoiceError>)
    ensures r.Ok? ==> OnlyInvoicesWritten(db, r.value)
  {
    if inv !in db.invoices then Err(InvoiceDomain.ErrInvoiceNotFound)
    else if !InvoiceDomain.Readable(db.invoices[inv]) then Err(InvoiceDomain.ErrUnreadableInvoice)
    else
      match InvoiceDomain.End(db.invoices[inv], e)
      case Err(err) => Err(err)
      case Ok(c) => Ok(PutInvoice(db, c.next.(version := c.next.version + 1), MapInvoiceEvent(c.event)))
  }

  function IssueInvoice(db: Db, inv: Id, auction: Id, debtor: Id, amount: Money, attempt: int, cfg: Config, now: Time)
    : (c: Called)
    ensures OnlyInvoicesWritten(db, c.db)
  {
    if !amount.Valid() then Called(db, Some(BillingFault(InvoiceDomain.ErrInvalidInvoice)))
    else
      match InvoiceDomain.NewInvoice(inv, auction, debtor, amount, cfg.terms, attempt, now)
      case Err(e) => Called(db, Some(BillingFault(e)))
      case Ok(c) =>
        if Issued(db.invoices, c.next) then Called(db, None)
        else Called(PutInvoice(db, c.next, MapInvoiceEvent(c.event)), None)
  }

  /** The expiry worker's command: losing the race against any other end is success. */
  function ExpireDue(db: Db, inv: Id, now: Time): (c: Called)
    ensures OnlyInvoicesWritten(db, c.db)
  {
    match UpdateInvoice(db, inv, InvoiceDomain.Expiry(now))
    case Ok(db') => Called(db', None)
    case Err(e) =>
      Called(db,
        if e in {InvoiceDomain.ErrInvoiceAlreadyPaid, InvoiceDomain.ErrInvoiceAlreadyExpired,
                 InvoiceDomain.ErrInvoiceVoided}
        then None
        else Some(BillingFault(e)))
  }

  /** A paid invoice is no no-op: the payment won, and the saga is told so in its own words. */
  function VoidInvoice(db: Db, inv: Id, now: Time): (c: Called)
    ensures OnlyInvoicesWritten(db, c.db)
  {
    match UpdateInvoice(db, inv, InvoiceDomain.Withdrawal(now))
    case Ok(db') => Called(db', None)
    case Err(e) =>
      Called(db,
        if e in {InvoiceDomain.ErrInvoiceAlreadyVoided, InvoiceDomain.ErrInvoiceAlreadyExpired} then None
        else if e == InvoiceDomain.ErrInvoiceAlreadyPaid then Some(SagaFault(ErrOfferAlreadyPaid))
        else Some(BillingFault(e)))
  }

  // ---------- The settlement context ----------

  /** An existing saga is left alone. */
  function AddSaga(db: Db, s: SettlementState): Db {
    if s.auctionId in db.sagas then db else PutSaga(db, s)
  }

  function GetSaga(db: Db, id: Id): Option<SettlementState> {
    if id in db.sagas then Some(db.sagas[id]) else None
  }

  /** Stores the committed saga under the next version. */
  function UpdateSaga(db: Db, v: SagaVerdict): Result<Db, SagaError> {
    match v
    case Err(e) => Err(e)
    case Ok(s) => Ok(PutSaga(db, s.(version := s.version + 1)))
  }
}
