/**
  The composed settlement system as a step machine.

  A handler reads a snapshot of its saga, calls the other contexts outside any
  transaction, and commits under a guard. Every call is one step; between any two
  steps of one handler anything else may happen, and a handler may crash, leaving its
  event unacknowledged. A published event is delivered any number of times, in any
  order, to any number of concurrent handlers.
 */
module Saga {
  import opened Base
  import opened Events
  import AuctionDomain
  import opened AuctionRuns
  import InvoiceDomain
  import opened SettlementDomain
  import opened Database

  datatype Trigger = OnEvent(event: Event) | OnDecline(actor: Id)

  datatype DeclineAnswer =
    | Declined
    | OfferAlreadyPaid
    | NotOfferRecipient
    | SettlementNotFound
    | DeclineFailed(fault: Fault)

  /** The call a handler makes next, with what it remembers from its decide phase. */
  datatype Pc =
    | Begin
    | Loading(closing: Closing)
    | Issuing(snapshot: SettlementState)
    | Confirming
    | Voiding(step: NextStep, offer: Id)
    | Compensating(step: NextStep)
    | Relisting(step: NextStep)
    | CommitIssued(invoice: Id)
    | CommitPaid
    | CommitStep(step: NextStep)
    | CommitOffer
    | Rereading
    | Acking
    | Nacked(fault: Fault)
    | Answered(answer: DeclineAnswer)

  datatype Task = Task(auction: Id, trigger: Trigger, pc: Pc)

  predicate SagaEvent(e: Event) {
    e.AuctionClosedV1? || e.WinnerReassignedV1? || e.InvoicePaidV1? || e.InvoiceExpiredV1?
  }

  function TaskFor(e: Event): Task
    requires SagaEvent(e)
  {
    Task(e.auctionId, OnEvent(e), Begin)
  }

  datatype Stepped = Stepped(db: Db, pc: Pc)

  /** ErrUnexpectedTransition is a duplicate or a lost benign race: acknowledged. */
  function AckUnexpected(e: SagaError): Pc {
    if e == ErrUnexpectedTransition then Acking else Nacked(SagaFault(e))
  }

  function AfterCommit(db: Db, r: Result<Db, SagaError>): Stepped {
    match r
    case Ok(db') => Stepped(db', Acking)
    case Err(e) => Stepped(db, AckUnexpected(e))
  }

  function AfterCall(c: Called, next: Pc): Stepped {
    Stepped(c.db, if c.fault.Some? then Nacked(c.fault.value) else next)
  }

  // ---------- The four event handlers ----------

  /** Only a sold auction gets a saga; one that exists already is left alone. */
  function BeginSettlement(db: Db, e: Event): Stepped
    requires e.AuctionClosedV1?
  {
    match RequiresSettlement(e.outcome)
    case None => Stepped(db, Nacked(SagaFault(ErrUnknownOutcome)))
    case Some(false) => Stepped(db, Acking)
    case Some(true) =>
      match BuildClosing(e)
      case Err(err) => Stepped(db, Nacked(SagaFault(err)))
      case Ok(closing) => Stepped(AddSaga(db, Start(closing)), Loading(closing))
  }

  function LoadStarted(db: Db, id: Id): Pc {
    match GetSaga(db, id)
    case None => Nacked(SagaFault(ErrSagaNotFound))
    case Some(s) => if s.state == Started then Issuing(s) else Acking
  }

  function StepOnAuctionClosed(db: Db, t: Task, e: Event, cfg: Config, clk: Clock): Stepped
    requires e.AuctionClosedV1?
  {
    if t.pc.Begin? then BeginSettlement(db, e)
    else if t.pc.Loading? then Stepped(db, LoadStarted(db, t.pc.closing.auctionId))
    else if t.pc.Issuing? then
      var s := t.pc.snapshot;
      AfterCall(IssueInvoice(db, s.invoiceId, s.auctionId, s.winner, s.hammer, s.attempt, cfg, clk.now),
                CommitIssued(s.invoiceId))
    else if t.pc.CommitIssued? then
      if t.auction !in db.sagas then Stepped(db, Nacked(SagaFault(ErrSagaNotFound)))
      else AfterCommit(db, UpdateSaga(db, InvoiceIssued(db.sagas[t.auction], t.pc.invoice)))
    else Stepped(db, t.pc)
  }

  function DecidePaid(db: Db, e: Event): Pc
    requires e.InvoicePaidV1?
  {
    if e.auctionId == Nil || e.invoiceId == Nil then Nacked(SagaFault(ErrMalformedEvent))
    else
      match GetSaga(db, e.auctionId)
      case None => Nacked(SagaFault(ErrSagaNotFound))
      case Some(s) => if AwaitsInvoice(s, e.invoiceId) then Confirming else Acking
  }

  function StepOnInvoicePaid(db: Db, t: Task, e: Event, clk: Clock): Stepped
    requires e.InvoicePaidV1?
  {
    if t.pc.Begin? then Stepped(db, DecidePaid(db, e))
    else if t.pc.Confirming? then AfterCall(ConfirmSettlement(db, t.auction, clk.now), CommitPaid)
    else if t.pc.CommitPaid? then
      if t.auction !in db.sagas then Stepped(db, Nacked(SagaFault(ErrSagaNotFound)))
      else AfterCommit(db, UpdateSaga(db, PaymentReceived(db.sagas[t.auction], e.invoiceId)))
    else Stepped(db, t.pc)
  }

  function DecideExpired(db: Db, e: Event): Pc
    requires e.InvoiceExpiredV1?
  {
    if e.auctionId == Nil || e.invoiceId == Nil then Nacked(SagaFault(ErrMalformedEvent))
    else
      match GetSaga(db, e.auctionId)
      case None => Nacked(SagaFault(ErrSagaNotFound))
      case Some(s) =>
        match DecideOnPaymentTimeout(s, e.invoiceId)
        case Err(err) => AckUnexpected(err)
        case Ok(step) => Compensating(step)
  }

  function StepOnInvoiceExpired(db: Db, t: Task, e: Event, cfg: Config, clk: Clock): Stepped
    requires e.InvoiceExpiredV1?
  {
    if t.pc.Begin? then Stepped(db, DecideExpired(db, e))
    else if t.pc.Compensating? then
      if t.pc.step == StepAwardRunnerUp
      then AfterCall(AwardToRunnerUp(db, t.auction, clk.now), CommitStep(t.pc.step))
      else AfterCall(MarkSaleFailed(db, t.auction, PaymentTimeout, clk.now), AfterFailing(t.pc.step))
    else if t.pc.Relisting? then AfterCall(RelistEffect(db, t.auction, cfg, clk), CommitStep(t.pc.step))
    else if t.pc.CommitStep? then
      if t.auction !in db.sagas then Stepped(db, Nacked(SagaFault(ErrSagaNotFound)))
      else
        var reason := if t.pc.step == StepAwardRunnerUp then NoReason else PaymentTimeout;
        AfterCommit(db, UpdateSaga(db, ApplyNextStep(db.sagas[t.auction], t.pc.step, reason)))
    else Stepped(db, t.pc)
  }

  function AfterFailing(step: NextStep): Pc {
    if step == StepRelist then Relisting(step) else CommitStep(step)
  }

  function RelistEffect(db: Db, auction: Id, cfg: Config, clk: Clock): Called {
    var startsAt := clk.now + cfg.relistDelay;
    Relist(db, auction, RelistOf(auction), startsAt, startsAt + cfg.relistDuration, clk.later)
  }

  function DecideReassigned(db: Db, e: Event): Pc
    requires e.WinnerReassignedV1?
  {
    var price := Money(e.priceMinor, e.currency);
    if e.auctionId == Nil || e.newWinnerId == Nil || !price.Valid() then Nacked(SagaFault(ErrMalformedEvent))
    else
      match GetSaga(db, e.auctionId)
      case None => Nacked(SagaFault(ErrSagaNotFound))
      case Some(s) =>
        match DecideOnWinnerReassigned(s, e.newWinnerId, price)
        case Some(err) => AckUnexpected(err)
        case None => Issuing(s)
  }

  function StepOnWinnerReassigned(db: Db, t: Task, e: Event, cfg: Config, clk: Clock): Stepped
    requires e.WinnerReassignedV1?
  {
    var price := Money(e.priceMinor, e.currency);
    if t.pc.Begin? then Stepped(db, DecideReassigned(db, e))
    else if t.pc.Issuing? then
      var s := t.pc.snapshot;
      AfterCall(IssueInvoice(db, InvoiceFor(t.auction, 2), t.auction, s.runnerUp, s.runnerUpAmount, 2, cfg, clk.now),
                CommitOffer)
    else if t.pc.CommitOffer? then
      if t.auction !in db.sagas then Stepped(db, Nacked(SagaFault(ErrSagaNotFound)))
      else
        AfterCommit(db, UpdateSaga(db,
          SecondChanceOffered(db.sagas[t.auction], e.newWinnerId, price, InvoiceFor(t.auction, 2))))
    else Stepped(db, t.pc)
  }

  // ---------- The runner-up's decline ----------

  function DeclineOutcome(e: Option<SagaError>): DeclineAnswer {
    match e
    case None => Declined
    case Some(ErrUnexpectedTransition) => Declined
    case Some(ErrOfferAlreadyPaid) => OfferAlreadyPaid
    case Some(ErrNotOfferRecipient) => NotOfferRecipient
    case Some(err) => DeclineFailed(SagaFault(err))
  }

  function AfterDeclineCall(c: Called, next: Pc): Stepped {
    match c.fault
    case None => Stepped(c.db, next)
    case Some(SagaFault(ErrOfferAlreadyPaid)) => Stepped(c.db, Answered(OfferAlreadyPaid))
    case Some(f) => Stepped(c.db, Answered(DeclineFailed(f)))
  }

  function DecideDecline(db: Db, id: Id, actor: Id): Pc {
    match GetSaga(db, id)
    case None => Answered(SettlementNotFound)
    case Some(s) =>
      match DecideOnDecline(s, actor)
      case Err(e) => Answered(DeclineOutcome(Some(e)))
      case Ok(step) => Voiding(step, s.invoiceId)
  }

  /** A lost commit race is answered from the stored saga. */
  function AfterDeclineCommit(db: Db, r: Result<Db, SagaError>): Stepped {
    match r
    case Ok(db') => Stepped(db', Answered(Declined))
    case Err(ErrUnexpectedTransition) => Stepped(db, Rereading)
    case Err(e) => Stepped(db, Answered(DeclineFailed(SagaFault(e))))
  }

  function RereadDecline(db: Db, id: Id, actor: Id): Pc {
    match GetSaga(db, id)
    case None => Answered(SettlementNotFound)
    case Some(s) =>
      match DecideOnDecline(s, actor)
      case Err(e) => Answered(DeclineOutcome(Some(e)))
      case Ok(_) => Answered(DeclineOutcome(None))
  }

  function StepOnDecline(db: Db, t: Task, actor: Id, cfg: Config, clk: Clock): Stepped {
    if t.pc.Begin? then Stepped(db, DecideDecline(db, t.auction, actor))
    else if t.pc.Voiding? then AfterDeclineCall(VoidInvoice(db, t.pc.offer, clk.now), Compensating(t.pc.step))
    else if t.pc.Compensating? then
      if t.pc.step == StepAwardRunnerUp then Stepped(db, Answered(DeclineFailed(Panic)))
      else AfterDeclineCall(MarkSaleFailed(db, t.auction, SecondChanceDeclined, clk.now), AfterFailing(t.pc.step))
    else if t.pc.Relisting? then AfterDeclineCall(RelistEffect(db, t.auction, cfg, clk), CommitStep(t.pc.step))
    else if t.pc.CommitStep? then
      if t.auction !in db.sagas then Stepped(db, Answered(SettlementNotFound))
      else AfterDeclineCommit(db, UpdateSaga(db, ApplyNextStep(db.sagas[t.auction], t.pc.step, SecondChanceDeclined)))
    else if t.pc.Rereading? then Stepped(db, RereadDecline(db, t.auction, actor))
    else Stepped(db, t.pc)
  }

  function TaskStep(db: Db, t: Task, cfg: Config, clk: Clock): Stepped {
    match t.trigger
    case OnDecline(actor) => StepOnDecline(db, t, actor, cfg, clk)
    case OnEvent(e) =>
      if e.AuctionClosedV1? then StepOnAuctionClosed(db, t, e, cfg, clk)
      else if e.InvoicePaidV1? then StepOnInvoicePaid(db, t, e, clk)
      else if e.InvoiceExpiredV1? then StepOnInvoiceExpired(db, t, e, cfg, clk)
      else if e.WinnerReassignedV1? then StepOnWinnerReassigned(db, t, e, cfg, clk)
      else Stepped(db, t.pc)
  }

  predicate Returned(pc: Pc) { pc.Acking? || pc.Nacked? || pc.Answered? }

  /** How many calls a handler may still make. */
  function CallsLeft(pc: Pc): nat {
    if pc.Begin? then 6
    else if pc.Loading? || pc.Voiding? then 5
    else if pc.Issuing? || pc.Confirming? || pc.Compensating? then 4
    else if pc.Relisting? then 3
    else if Returned(pc) then 0
    else if pc.Rereading? then 1
    else 2
  }

  /** One handler alone, from where it stands, reading one clock for each call. */
  function RunAlone(db: Db, t: Task, cfg: Config, clks: seq<Clock>): Stepped
    decreases |clks|
  {
    if Returned(t.pc) || clks == [] then Stepped(db, t.pc)
    else
      var r := TaskStep(db, t, cfg, clks[0]);
      RunAlone(r.db, t.(pc := r.pc), cfg, clks[1..])
  }

  // ---------- The whole system ----------

  /**
    early is a history variable: the events whose handler looked at the saga before the
    commit the event belongs after, and which the guard therefore acknowledges unheard.
   */
  datatype World = World(db: Db, tasks: map<nat, Task>, acked: set<Event>, early: set<Event>)

  datatype Act =
    | ListAuction(listing: AuctionDomain.AuctionState, now: Time)
    | Manage(auction: Id, command: Command)
    | PayInvoice(invoice: Id, ref: InvoiceDomain.PaymentReference, now: Time)
    | ExpireInvoice(invoice: Id, now: Time)
    | Deliver(task: nat, event: Event)
    | RequestDecline(task: nat, auction: Id, actor: Id)
    | Advance(task: nat, clk: Clock)
    | Crash(task: nat)

  /** Looking at a reassignment while Started, or at the second invoice before it is awaited. */
  predicate TooEarly(db: Db, t: Task) {
    && t.pc.Begin? && t.trigger.OnEvent? && t.auction in db.sagas
    && var s := db.sagas[t.auction];
       var e := t.trigger.event;
       || (e.WinnerReassignedV1? && s.state == Started)
       || ((e.InvoicePaidV1? || e.InvoiceExpiredV1?)
           && e.invoiceId == InvoiceFor(t.auction, 2) && Rank(s.state) < 3)
  }

  ghost function Next(w: World, act: Act, cfg: Config): World {
    match act
    case ListAuction(a, now) =>
      if !Fresh(a) || !a.id.Client? || a.relistOf != Nil then w
      else
        (match AddAuction(w.db, AuctionDomain.Change(a, [AuctionDomain.AuctionListed(now)]))
         case Ok(db) => w.(db := db)
         case Err(_) => w)
    case Manage(id, c) =>
      if !WellTyped(c) || !(c.DoBid? || c.DoCancel? || c.DoClose?) then w
      else
        (match UpdateAuction(w.db, id, c)
         case Ok(db) => w.(db := db)
         case Err(_) => w)
    case PayInvoice(id, ref, now) =>
      (match UpdateInvoice(w.db, id, InvoiceDomain.Payment(ref, now))
       case Ok(db) => w.(db := db)
       case Err(_) => w)
    case ExpireInvoice(id, now) => w.(db := ExpireDue(w.db, id, now).db)
    case Deliver(n, e) =>
      if n in w.tasks || e !in w.db.outbox || !SagaEvent(e) then w else w.(tasks := w.tasks[n := TaskFor(e)])
    case RequestDecline(n, id, actor) =>
      if n in w.tasks then w else w.(tasks := w.tasks[n := Task(id, OnDecline(actor), Begin)])
    case Advance(n, clk) =>
      if n !in w.tasks then w
      else if w.tasks[n].pc.Acking? && w.tasks[n].trigger.OnEvent? then
        w.(tasks := w.tasks - {n}, acked := w.acked + {w.tasks[n].trigger.event})
      else
        var t := w.tasks[n];
        var r := TaskStep(w.db, t, cfg, clk);
        w.(db := r.db, tasks := w.tasks[n := t.(pc := r.pc)],
           early := if TooEarly(w.db, t) then w.early + {t.trigger.event} else w.early)
    case Crash(n) => w.(tasks := w.tasks - {n})
  }

  const NOTHING := World(Db(map[], map[], map[], []), map[], {}, {})

  ghost function Reach(acts: seq<Act>, cfg: Config): World {
    if acts == [] then NOTHING else Next(Reach(acts[..|acts| - 1], cfg), acts[|acts| - 1], cfg)
  }
}
