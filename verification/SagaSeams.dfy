/**
  Crashes heal. A handler that broke off after any number of calls and is run again from
  the start leaves exactly what one uninterrupted run would have left: the same three
  stores and the same published events, nothing twice.
 */
module SagaSeams {
  import opened Base
  import opened Events
  import InvoiceDomain
  import opened SettlementDomain
  import opened Database
  import opened Saga
  import opened SagaView
  import opened SagaEffects
  import opened SagaCalls
  import opened SagaInvariant
  import opened SagaSteps
  import opened SagaReach
  import opened SagaTheorems
  import opened SagaProgress

  // ---------- Where a repeated run stands ----------

  /** The calls an undisturbed handler has made when it stands at pc. */
  function CallsMade(t: Task): nat {
    match t.pc
    case Begin => 0
    case Loading(_) | Voiding(_, _) | Confirming => 1
    case Issuing(_) => if t.trigger.OnEvent? && t.trigger.event.AuctionClosedV1? then 2 else 1
    case Compensating(_) => if t.trigger.OnDecline? then 2 else 1
    case Relisting(_) => if t.trigger.OnDecline? then 3 else 2
    case CommitStep(step) =>
      (if t.trigger.OnDecline? then 3 else 2) + (if step == StepRelist then 1 else 0)
    case CommitIssued(_) => 3
    case CommitPaid | CommitOffer => 2
    case _ => 6
  }

  /**
    The saga is where the handler saw it in its decide phase, and the effects the handler
    has issued so far have landed.
   */
  ghost predicate Undisturbed(db: Db, t: Task) {
    match t.trigger
    case OnEvent(e) => SagaEvent(e) && t.auction == e.auctionId && UndisturbedEvent(db, e, t.pc)
    case OnDecline(actor) => UndisturbedDecline(db, t.auction, actor, t.pc)
  }

  ghost predicate UndisturbedEvent(db: Db, e: Event, pc: Pc)
    requires SagaEvent(e)
  {
    if pc.Begin? then true
    else if pc.Acking? then NothingToDo(db, e)
    else if e.AuctionClosedV1? then UndisturbedClosed(db, e, pc)
    else if e.InvoicePaidV1? then UndisturbedPaid(db, e, pc)
    else if e.InvoiceExpiredV1? then UndisturbedExpired(db, e, pc)
    else UndisturbedReassigned(db, e, pc)
  }

  ghost predicate UndisturbedClosed(db: Db, e: Event, pc: Pc)
    requires e.AuctionClosedV1?
  {
    && e.outcome == "sold" && BuildClosing(e).Ok? && e.auctionId in db.sagas
    && var s := db.sagas[e.auctionId];
       match pc
       case Loading(closing) => closing == BuildClosing(e).value
       case Issuing(snapshot) => snapshot == s && s.state == Started
       case CommitIssued(inv) => s.state == Started && inv == s.invoiceId && inv in db.invoices
       case _ => false
  }

  ghost predicate UndisturbedPaid(db: Db, e: Event, pc: Pc)
    requires e.InvoicePaidV1?
  {
    && DecidePaid(db, e) == Confirming
    && match pc
       case Confirming => true
       case CommitPaid => SoldAndSettled(ViewOf(db, e.auctionId))
       case _ => false
  }

  ghost predicate UndisturbedExpired(db: Db, e: Event, pc: Pc)
    requires e.InvoiceExpiredV1?
  {
    match pc
    case Compensating(step) => DecideExpired(db, e) == Compensating(step)
    case Relisting(step) =>
      DecideExpired(db, e) == Compensating(step) && step == StepRelist && SaleFailed(ViewOf(db, e.auctionId))
    case CommitStep(step) => DecideExpired(db, e) == Compensating(step) && StepDone(ViewOf(db, e.auctionId), step)
    case _ => false
  }

  ghost predicate UndisturbedReassigned(db: Db, e: Event, pc: Pc)
    requires e.WinnerReassignedV1?
  {
    && e.auctionId in db.sagas && DecideReassigned(db, e) == Issuing(db.sagas[e.auctionId])
    && match pc
       case Issuing(snapshot) => snapshot == db.sagas[e.auctionId]
       case CommitOffer => InvoiceFor(e.auctionId, 2) in db.invoices
       case _ => false
  }

  /** The offer was void by the time the handler went on. */
  ghost predicate OfferVoid(db: Db, a: Id) {
    && ReadableOffer(ViewOf(db, a))
    && (SecondIs(ViewOf(db, a), InvoiceDomain.Voided) || SecondIs(ViewOf(db, a), InvoiceDomain.Expired))
  }

  /** Why a decline ended with its void: the offer was paid, or cannot be read back. */
  ghost predicate OfferAnswer(db: Db, a: Id, answer: DeclineAnswer) {
    if Unreadable(ViewOf(db, a)) then answer == DeclineFailed(UNREADABLE)
    else answer == OfferAlreadyPaid && SecondIs(ViewOf(db, a), InvoiceDomain.Paid)
  }

  ghost predicate UndisturbedDecline(db: Db, a: Id, actor: Id, pc: Pc) {
    match pc
    case Begin => true
    case Voiding(step, offer) => DecideDecline(db, a, actor) == pc
    case Compensating(step) =>
      DecideDecline(db, a, actor) == Voiding(step, InvoiceFor(a, 2)) && OfferVoid(db, a)
    case Relisting(step) =>
      DecideDecline(db, a, actor) == Voiding(step, InvoiceFor(a, 2)) && OfferVoid(db, a)
      && step == StepRelist && SaleFailed(ViewOf(db, a))
    case CommitStep(step) =>
      DecideDecline(db, a, actor) == Voiding(step, InvoiceFor(a, 2)) && OfferVoid(db, a)
      && StepDone(ViewOf(db, a), step)
    case Answered(answer) =>
      || DecideDecline(db, a, actor) == pc
      || (DecideDecline(db, a, actor).Voiding? && DecideDecline(db, a, actor).offer == InvoiceFor(a, 2)
          && OfferAnswer(db, a, answer))
    case _ => false
  }

  // ---------- Runs compose ----------

  lemma {:induction false} RunsCompose(db: Db, t: Task, cfg: Config, xs: seq<Clock>, ys: seq<Clock>)
    ensures var r := RunAlone(db, t, cfg, xs);
      RunAlone(db, t, cfg, xs + ys) == RunAlone(r.db, t.(pc := r.pc), cfg, ys)
    decreases |xs|
  {
    if Returned(t.pc) || xs == [] {
      assert xs == [] ==> xs + ys == ys;
      assert t.(pc := t.pc) == t;
    } else {
      var r := TaskStep(db, t, cfg, xs[0]);
      RunsCompose(r.db, t.(pc := r.pc), cfg, xs[1..], ys);
      assert (xs + ys)[0] == xs[0] && (xs + ys)[1..] == xs[1..] + ys;
    }
  }

  // ---------- One undisturbed step ----------

  /** A handler's effects do not touch sagas, so its decision stands. */
  lemma DecisionsStand(db: Db, db': Db, e: Event, a: Id, actor: Id)
    requires db'.sagas == db.sagas && SagaEvent(e)
    ensures e.InvoicePaidV1? ==> DecidePaid(db', e) == DecidePaid(db, e)
    ensures e.InvoiceExpiredV1? ==> DecideExpired(db', e) == DecideExpired(db, e)
    ensures e.WinnerReassignedV1? ==> DecideReassigned(db', e) == DecideReassigned(db, e)
    ensures DecideDecline(db', a, actor) == DecideDecline(db, a, actor)
  {
  }

  ghost predicate EventStays(e: Event, r: Stepped)
    requires SagaEvent(e)
  {
    r.pc.Nacked? || UndisturbedEvent(r.db, e, r.pc)
  }

  lemma ClosedBeginStays(db: Db, e: Event)
    requires e.AuctionClosedV1?
    ensures EventStays(e, BeginSettlement(db, e))
  {
  }

  lemma ClosedLoadStays(db: Db, e: Event, closing: Closing)
    requires e.AuctionClosedV1? && UndisturbedClosed(db, e, Loading(closing))
    ensures EventStays(e, Stepped(db, LoadStarted(db, closing.auctionId)))
  {
  }

  lemma ClosedIssueStays(db: Db, e: Event, s: SettlementState, cfg: Config, now: Time)
    requires e.AuctionClosedV1? && Standing(db, e.auctionId, e, Issuing(s)) && UndisturbedClosed(db, e, Issuing(s))
    ensures EventStays(e,
      AfterCall(IssueInvoice(db, s.invoiceId, s.auctionId, s.winner, s.hammer, s.attempt, cfg, now),
                CommitIssued(s.invoiceId)))
  {
    IssueFirstCall(db, e.auctionId, s.winner, s.hammer, cfg, now);
  }

  lemma ClosedCommitStays(db: Db, e: Event, inv: Id)
    requires e.AuctionClosedV1? && UndisturbedClosed(db, e, CommitIssued(inv))
    requires db.sagas[e.auctionId].auctionId == e.auctionId
    requires inv != Nil
    ensures EventStays(e, AfterCommit(db, UpdateSaga(db, InvoiceIssued(db.sagas[e.auctionId], inv))))
  {
  }

  lemma PaidConfirmStays(db: Db, e: Event, now: Time)
    requires e.InvoicePaidV1? && Standing(db, e.auctionId, e, Confirming) && UndisturbedPaid(db, e, Confirming)
    ensures EventStays(e, AfterCall(ConfirmSettlement(db, e.auctionId, now), CommitPaid))
  {
    ConfirmCall(db, e.auctionId, now);
    DecisionsStand(db, ConfirmSettlement(db, e.auctionId, now).db, e, Nil, Nil);
  }

  lemma PaidCommitStays(db: Db, e: Event)
    requires e.InvoicePaidV1? && UndisturbedPaid(db, e, CommitPaid) && db.sagas[e.auctionId].auctionId == e.auctionId
    ensures EventStays(e, AfterCommit(db, UpdateSaga(db, PaymentReceived(db.sagas[e.auctionId], e.invoiceId))))
  {
  }

  lemma ExpiredAwardStays(db: Db, e: Event, now: Time)
    requires e.InvoiceExpiredV1? && Standing(db, e.auctionId, e, Compensating(StepAwardRunnerUp))
    requires UndisturbedExpired(db, e, Compensating(StepAwardRunnerUp))
    ensures EventStays(e, AfterCall(AwardToRunnerUp(db, e.auctionId, now), CommitStep(StepAwardRunnerUp)))
  {
    AwardCall(db, e.auctionId, now);
    DecisionsStand(db, AwardToRunnerUp(db, e.auctionId, now).db, e, Nil, Nil);
  }

  lemma ExpiredFailStays(db: Db, e: Event, step: NextStep, now: Time)
    requires e.InvoiceExpiredV1? && Standing(db, e.auctionId, e, Compensating(step)) && step != StepAwardRunnerUp
    requires UndisturbedExpired(db, e, Compensating(step))
    ensures EventStays(e, AfterCall(MarkSaleFailed(db, e.auctionId, PaymentTimeout, now), AfterFailing(step)))
  {
    FailCall(db, e.auctionId, PaymentTimeout, now);
    DecisionsStand(db, MarkSaleFailed(db, e.auctionId, PaymentTimeout, now).db, e, Nil, Nil);
  }

  lemma ExpiredRelistStays(db: Db, e: Event, step: NextStep, cfg: Config, clk: Clock)
    requires e.InvoiceExpiredV1? && Standing(db, e.auctionId, e, Relisting(step))
    requires UndisturbedExpired(db, e, Relisting(step))
    ensures EventStays(e, AfterCall(RelistEffect(db, e.auctionId, cfg, clk), CommitStep(step)))
  {
    RelistCall(db, e.auctionId, cfg, clk);
    DecisionsStand(db, RelistEffect(db, e.auctionId, cfg, clk).db, e, Nil, Nil);
  }

  lemma ExpiredCommitStays(db: Db, e: Event, step: NextStep)
    requires e.InvoiceExpiredV1? && UndisturbedExpired(db, e, CommitStep(step))
    requires SagaPart(e.auctionId, ViewOf(db, e.auctionId))
    ensures var reason := if step == StepAwardRunnerUp then NoReason else PaymentTimeout;
      EventStays(e, AfterCommit(db, UpdateSaga(db, ApplyNextStep(db.sagas[e.auctionId], step, reason))))
  {
  }

  lemma ReassignedIssueStays(db: Db, e: Event, s: SettlementState, cfg: Config, now: Time)
    requires e.WinnerReassignedV1? && Standing(db, e.auctionId, e, Issuing(s))
    requires UndisturbedReassigned(db, e, Issuing(s))
    ensures EventStays(e,
      AfterCall(IssueInvoice(db, InvoiceFor(e.auctionId, 2), e.auctionId, s.runnerUp, s.runnerUpAmount, 2, cfg, now),
                CommitOffer))
  {
    IssueSecondCall(db, e.auctionId, s.runnerUp, s.runnerUpAmount, cfg, now);
    var c := IssueInvoice(db, InvoiceFor(e.auctionId, 2), e.auctionId, s.runnerUp, s.runnerUpAmount, 2, cfg, now);
    DecisionsStand(db, c.db, e, Nil, Nil);
  }

  lemma ReassignedCommitStays(db: Db, e: Event)
    requires e.WinnerReassignedV1? && UndisturbedReassigned(db, e, CommitOffer)
    requires db.sagas[e.auctionId].auctionId == e.auctionId
    ensures var price := Money(e.priceMinor, e.currency); var inv := InvoiceFor(e.auctionId, 2);
      EventStays(e,
        AfterCommit(db, UpdateSaga(db, SecondChanceOffered(db.sagas[e.auctionId], e.newWinnerId, price, inv))))
  {
  }

  ghost predicate DeclineStays(a: Id, actor: Id, r: Stepped) { UndisturbedDecline(r.db, a, actor, r.pc) }

  lemma DeclineVoidStays(db: Db, a: Id, actor: Id, step: NextStep, offer: Id, now: Time)
    requires Declining(db, a, actor, Voiding(step, offer), true)
    requires UndisturbedDecline(db, a, actor, Voiding(step, offer))
    ensures DeclineStays(a, actor, AfterDeclineCall(VoidInvoice(db, offer, now), Compensating(step)))
  {
    VoidCall(db, a, now);
  }

  lemma DeclineFailStays(db: Db, a: Id, actor: Id, step: NextStep, now: Time)
    requires Declining(db, a, actor, Compensating(step), true) && UndisturbedDecline(db, a, actor, Compensating(step))
    ensures DeclineStays(a, actor,
      AfterDeclineCall(MarkSaleFailed(db, a, SecondChanceDeclined, now), AfterFailing(step)))
  {
    FailCall(db, a, SecondChanceDeclined, now);
  }

  lemma DeclineRelistStays(db: Db, a: Id, actor: Id, step: NextStep, cfg: Config, clk: Clock)
    requires Declining(db, a, actor, Relisting(step), true) && UndisturbedDecline(db, a, actor, Relisting(step))
    requires Sane(clk, cfg)
    ensures DeclineStays(a, actor, AfterDeclineCall(RelistEffect(db, a, cfg, clk), CommitStep(step)))
  {
    RelistCall(db, a, cfg, clk);
  }

  lemma DeclineCommitStays(db: Db, a: Id, actor: Id, step: NextStep)
    requires Declining(db, a, actor, CommitStep(step), true) && UndisturbedDecline(db, a, actor, CommitStep(step))
    requires db.sagas[a].auctionId == a
    ensures DeclineStays(a, actor,
      AfterDeclineCommit(db, UpdateSaga(db, ApplyNextStep(db.sagas[a], step, SecondChanceDeclined))))
  {
  }

  /** Any step of an undisturbed event handler. */
  lemma EventStepStays(db: Db, t: Task, e: Event, cfg: Config, clk: Clock)
    requires t.trigger == OnEvent(e) && SagaEvent(e) && t.auction == e.auctionId && Sane(clk, cfg)
    requires Standing(db, t.auction, e, t.pc) && UndisturbedEvent(db, e, t.pc)
    requires ViewInv(t.auction, ViewOf(db, t.auction))
    ensures EventStays(e, TaskStep(db, t, cfg, clk))
  {
    if e.AuctionClosedV1? {
      ClosedStepStays(db, t, e, cfg, clk);
    } else if e.InvoicePaidV1? {
      PaidStepStays(db, t, e, clk);
    } else if e.InvoiceExpiredV1? {
      ExpiredStepStays(db, t, e, cfg, clk);
    } else {
      ReassignedStepStays(db, t, e, cfg, clk);
    }
  }

  lemma ClosedStepStays(db: Db, t: Task, e: Event, cfg: Config, clk: Clock)
    requires e.AuctionClosedV1? && t.auction == e.auctionId
    requires Standing(db, t.auction, e, t.pc) && UndisturbedEvent(db, e, t.pc)
    requires ViewInv(t.auction, ViewOf(db, t.auction))
    ensures EventStays(e, StepOnAuctionClosed(db, t, e, cfg, clk))
  {
    match t.pc
    case Begin => ClosedBeginStays(db, e);
    case Loading(closing) => ClosedLoadStays(db, e, closing);
    case Issuing(s) => ClosedIssueStays(db, e, s, cfg, clk.now);
    case CommitIssued(inv) => ClosedCommitStays(db, e, inv);
    case _ => assert false;
  }

  lemma PaidStepStays(db: Db, t: Task, e: Event, clk: Clock)
    requires e.InvoicePaidV1? && t.auction == e.auctionId
    requires Standing(db, t.auction, e, t.pc) && UndisturbedEvent(db, e, t.pc)
    requires ViewInv(t.auction, ViewOf(db, t.auction))
    ensures EventStays(e, StepOnInvoicePaid(db, t, e, clk))
  {
    match t.pc
    case Begin => assert DecidePaid(db, e) in {Confirming, Acking} || DecidePaid(db, e).Nacked?;
    case Confirming => PaidConfirmStays(db, e, clk.now);
    case CommitPaid => PaidCommitStays(db, e);
    case _ => assert false;
  }

  lemma ExpiredStepStays(db: Db, t: Task, e: Event, cfg: Config, clk: Clock)
    requires e.InvoiceExpiredV1? && t.auction == e.auctionId
    requires Standing(db, t.auction, e, t.pc) && UndisturbedEvent(db, e, t.pc)
    requires ViewInv(t.auction, ViewOf(db, t.auction))
    ensures EventStays(e, StepOnInvoiceExpired(db, t, e, cfg, clk))
  {
    match t.pc
    case Begin =>
    case Compensating(step) =>
      if step == StepAwardRunnerUp {
        ExpiredAwardStays(db, e, clk.now);
      } else {
        ExpiredFailStays(db, e, step, clk.now);
      }
    case Relisting(step) => ExpiredRelistStays(db, e, step, cfg, clk);
    case CommitStep(step) => ExpiredCommitStays(db, e, step);
    case _ => assert false;
  }

  lemma ReassignedStepStays(db: Db, t: Task, e: Event, cfg: Config, clk: Clock)
    requires e.WinnerReassignedV1? && t.auction == e.auctionId
    requires Standing(db, t.auction, e, t.pc) && UndisturbedEvent(db, e, t.pc)
    requires ViewInv(t.auction, ViewOf(db, t.auction))
    ensures EventStays(e, StepOnWinnerReassigned(db, t, e, cfg, clk))
  {
    match t.pc
    case Begin =>
    case Issuing(s) => ReassignedIssueStays(db, e, s, cfg, clk.now);
    case CommitOffer => ReassignedCommitStays(db, e);
    case _ => assert false;
  }

  lemma DeclineStepStays(db: Db, t: Task, actor: Id, cfg: Config, clk: Clock)
    requires Declining(db, t.auction, actor, t.pc, true) && UndisturbedDecline(db, t.auction, actor, t.pc)
    requires ViewInv(t.auction, ViewOf(db, t.auction)) && Sane(clk, cfg)
    ensures DeclineStays(t.auction, actor, StepOnDecline(db, t, actor, cfg, clk))
  {
    match t.pc
    case Begin =>
    case Voiding(step, offer) => DeclineVoidStays(db, t.auction, actor, step, offer, clk.now);
    case Compensating(step) => DeclineFailStays(db, t.auction, actor, step, clk.now);
    case Relisting(step) => DeclineRelistStays(db, t.auction, actor, step, cfg, clk);
    case CommitStep(step) => DeclineCommitStays(db, t.auction, actor, step);
    case Answered(_) =>
    case _ => assert false;
  }

  // ---------- The repeated run catches up ----------

  /** The call a handler made just before it stood at pc. */
  ghost function Before(db: Db, t: Task): Pc
    requires Undisturbed(db, t) && !Returned(t.pc) && !t.pc.Begin?
  {
    match t.pc
    case Loading(_) | Confirming | Voiding(_, _) => Begin
    case Issuing(s) => if t.trigger.event.AuctionClosedV1? then Loading(BuildClosing(t.trigger.event).value) else Begin
    case CommitIssued(_) | CommitOffer => Issuing(db.sagas[t.auction])
    case CommitPaid => Confirming
    case Compensating(step) => if t.trigger.OnEvent? then Begin else Voiding(step, InvoiceFor(t.auction, 2))
    case Relisting(step) => Compensating(step)
    case CommitStep(step) => if step == StepRelist then Relisting(step) else Compensating(step)
  }

  lemma BeforeIsUndisturbed(db: Db, t: Task)
    requires Undisturbed(db, t) && !Returned(t.pc) && !t.pc.Begin?
    ensures var p := t.(pc := Before(db, t)); Undisturbed(db, p) && CallsMade(p) + 1 == CallsMade(t) && !Returned(p.pc)
  {
  }

  // ---------- Landed effects are no-ops ----------

  lemma ConfirmAgain(db: Db, a: Id, now: Time)
    requires ViewInv(a, ViewOf(db, a)) && SoldAndSettled(ViewOf(db, a))
    ensures ConfirmSettlement(db, a, now) == Called(db, None)
  {
  }

  lemma AwardAgain(db: Db, a: Id, now: Time)
    requires Reassigned(ViewOf(db, a))
    ensures AwardToRunnerUp(db, a, now) == Called(db, None)
  {
  }

  lemma FailAgain(db: Db, a: Id, reason: FailureReason, now: Time)
    requires ViewInv(a, ViewOf(db, a)) && SaleFailed(ViewOf(db, a)) && reason != NoReason
    ensures MarkSaleFailed(db, a, reason, now) == Called(db, None)
  {
  }

  lemma RelistAgain(db: Db, a: Id, cfg: Config, clk: Clock)
    requires ViewInv(a, ViewOf(db, a)) && ViewOf(db, a).relisted && Sane(clk, cfg)
    ensures RelistEffect(db, a, cfg, clk) == Called(db, None)
  {
    RelistUnfolds(db, a, cfg, clk);
    ReplacementBuilt(db.auctions[a], cfg, clk);
  }

  lemma IssueAgain(db: Db, a: Id, attempt: int, debtor: Id, amount: Money, cfg: Config, now: Time)
    requires a != Nil && debtor != Nil && amount.Valid() && attempt in {1, 2} && now != ZERO_TIME
    requires InvoiceFor(a, attempt) in db.invoices
    ensures IssueInvoice(db, InvoiceFor(a, attempt), a, debtor, amount, attempt, cfg, now) == Called(db, None)
  {
    BillBuilt(a, debtor, amount, attempt, cfg, now);
  }

  lemma VoidAgain(db: Db, a: Id, now: Time)
    requires OfferVoid(db, a)
    ensures VoidInvoice(db, InvoiceFor(a, 2), now) == Called(db, None)
  {
  }

  lemma RedoClosed(db: Db, t: Task, e: Event, cfg: Config, clk: Clock)
    requires t.trigger == OnEvent(e) && e.AuctionClosedV1? && Undisturbed(db, t) && !Returned(t.pc) && !t.pc.Begin?
    requires ViewInv(t.auction, ViewOf(db, t.auction)) && Sane(clk, cfg)
    ensures StepOnAuctionClosed(db, t.(pc := Before(db, t)), e, cfg, clk) == Stepped(db, t.pc)
  {
    if t.pc.CommitIssued? {
      var s := db.sagas[t.auction];
      IssueAgain(db, t.auction, 1, s.winner, s.hammer, cfg, clk.now);
    }
  }

  lemma RedoPaid(db: Db, t: Task, e: Event, clk: Clock)
    requires t.trigger == OnEvent(e) && e.InvoicePaidV1? && Undisturbed(db, t) && !Returned(t.pc) && !t.pc.Begin?
    requires ViewInv(t.auction, ViewOf(db, t.auction))
    ensures StepOnInvoicePaid(db, t.(pc := Before(db, t)), e, clk) == Stepped(db, t.pc)
  {
    if t.pc.CommitPaid? { ConfirmAgain(db, t.auction, clk.now); }
  }

  lemma RedoExpired(db: Db, t: Task, e: Event, cfg: Config, clk: Clock)
    requires t.trigger == OnEvent(e) && e.InvoiceExpiredV1? && Undisturbed(db, t) && !Returned(t.pc) && !t.pc.Begin?
    requires ViewInv(t.auction, ViewOf(db, t.auction)) && Sane(clk, cfg)
    ensures StepOnInvoiceExpired(db, t.(pc := Before(db, t)), e, cfg, clk) == Stepped(db, t.pc)
  {
    if t.pc.Relisting? || t.pc.CommitStep? {
      if t.pc.step == StepAwardRunnerUp { AwardAgain(db, t.auction, clk.now); }
      else {
        FailAgain(db, t.auction, PaymentTimeout, clk.now);
        if t.pc == CommitStep(StepRelist) { RelistAgain(db, t.auction, cfg, clk); }
      }
    }
  }

  lemma RedoReassigned(db: Db, t: Task, e: Event, cfg: Config, clk: Clock)
    requires t.trigger == OnEvent(e) && e.WinnerReassignedV1? && Undisturbed(db, t) && !Returned(t.pc) && !t.pc.Begin?
    requires ViewInv(t.auction, ViewOf(db, t.auction)) && EventPart(t.auction, ViewOf(db, t.auction), e)
    requires Sane(clk, cfg)
    ensures StepOnWinnerReassigned(db, t.(pc := Before(db, t)), e, cfg, clk) == Stepped(db, t.pc)
  {
    if t.pc.CommitOffer? {
      var s := db.sagas[t.auction];
      RunnerUpIsBillable(t.auction, ViewOf(db, t.auction));
      IssueAgain(db, t.auction, 2, s.runnerUp, s.runnerUpAmount, cfg, clk.now);
    }
  }

  lemma RedoDecide(db: Db, t: Task, actor: Id, cfg: Config, clk: Clock)
    requires t.trigger == OnDecline(actor) && Undisturbed(db, t) && (t.pc.Voiding? || t.pc.Compensating?)
    ensures StepOnDecline(db, t.(pc := Before(db, t)), actor, cfg, clk) == Stepped(db, t.pc)
  {
    if t.pc.Compensating? { VoidAgain(db, t.auction, clk.now); }
  }

  lemma RedoFail(db: Db, t: Task, actor: Id, step: NextStep, cfg: Config, clk: Clock)
    requires ViewInv(t.auction, ViewOf(db, t.auction)) && SaleFailed(ViewOf(db, t.auction)) && step != StepAwardRunnerUp
    ensures StepOnDecline(db, t.(pc := Compensating(step)), actor, cfg, clk) == Stepped(db, AfterFailing(step))
  {
    FailAgain(db, t.auction, SecondChanceDeclined, clk.now);
  }

  lemma RedoRelist(db: Db, t: Task, actor: Id, step: NextStep, cfg: Config, clk: Clock)
    requires ViewInv(t.auction, ViewOf(db, t.auction)) && ViewOf(db, t.auction).relisted && Sane(clk, cfg)
    ensures StepOnDecline(db, t.(pc := Relisting(step)), actor, cfg, clk) == Stepped(db, CommitStep(step))
  {
    RelistAgain(db, t.auction, cfg, clk);
  }

  lemma RedoDecline(db: Db, t: Task, actor: Id, cfg: Config, clk: Clock)
    requires t.trigger == OnDecline(actor) && Undisturbed(db, t) && (t.pc.Relisting? || t.pc.CommitStep?)
    requires t.pc.step != StepAwardRunnerUp
    requires ViewInv(t.auction, ViewOf(db, t.auction)) && Sane(clk, cfg)
    ensures StepOnDecline(db, t.(pc := Before(db, t)), actor, cfg, clk) == Stepped(db, t.pc)
  {
    if t.pc == CommitStep(StepRelist) {
      RedoRelist(db, t, actor, StepRelist, cfg, clk);
    } else {
      RedoFail(db, t, actor, t.pc.step, cfg, clk);
    }
  }

  lemma SecondChanceIsLast(db: Db, a: Id, actor: Id)
    requires ViewInv(a, ViewOf(db, a)) && DecideDecline(db, a, actor).Voiding?
    ensures DecideDecline(db, a, actor).step != StepAwardRunnerUp
  {
  }

  lemma RedoStep(db: Db, t: Task, cfg: Config, clk: Clock)
    requires DbInv(db) && Undisturbed(db, t) && !Returned(t.pc) && !t.pc.Begin? && Sane(clk, cfg)
    requires t.trigger.OnEvent? ==> t.trigger.event in db.outbox
    ensures TaskStep(db, t.(pc := Before(db, t)), cfg, clk) == Stepped(db, t.pc)
  {
    assert ViewInv(t.auction, ViewOf(db, t.auction));
    match t.trigger
    case OnDecline(actor) =>
      if t.pc.Voiding? || t.pc.Compensating? {
        RedoDecide(db, t, actor, cfg, clk);
      } else {
        SecondChanceIsLast(db, t.auction, actor);
        RedoDecline(db, t, actor, cfg, clk);
      }
    case OnEvent(e) =>
      if e.AuctionClosedV1? { RedoClosed(db, t, e, cfg, clk); }
      else if e.InvoicePaidV1? { RedoPaid(db, t, e, clk); }
      else if e.InvoiceExpiredV1? { RedoExpired(db, t, e, cfg, clk); }
      else {
        EventHolds(db, t.auction, e);
        RedoReassigned(db, t, e, cfg, clk);
      }
  }

  /** From the start, in the state the crash left, the run gets to where it broke off without changing anything. */
  lemma {:induction false} RunCatchesUp(db: Db, t: Task, cfg: Config, clks: seq<Clock>)
    requires DbInv(db) && Undisturbed(db, t) && !Returned(t.pc)
    requires t.trigger.OnEvent? ==> t.trigger.event in db.outbox
    requires AllSane(clks, cfg) && |clks| >= CallsMade(t)
    ensures RunAlone(db, t.(pc := Begin), cfg, clks) == RunAlone(db, t, cfg, clks[CallsMade(t)..])
    decreases CallsMade(t)
  {
    if t.pc.Begin? {
      assert t.(pc := Begin) == t && clks[0..] == clks;
    } else {
      var p := t.(pc := Before(db, t));
      BeforeIsUndisturbed(db, t);
      RunCatchesUp(db, p, cfg, clks);
      var rest := clks[CallsMade(p)..];
      RedoStep(db, t, cfg, rest[0]);
      assert p.(pc := t.pc) == t && p.(pc := Begin) == t.(pc := Begin);
      assert rest[1..] == clks[CallsMade(t)..];
    }
  }

  // ---------- The run before the crash ----------

  lemma EventStepCounts(db: Db, t: Task, e: Event, cfg: Config, clk: Clock)
    requires t.trigger == OnEvent(e) && Undisturbed(db, t) && !Returned(t.pc)
    ensures var r := TaskStep(db, t, cfg, clk); !Returned(r.pc) ==> CallsMade(t.(pc := r.pc)) == CallsMade(t) + 1
  {
    if e.AuctionClosedV1? { ClosedStepCounts(db, t, e, cfg, clk); }
    else if e.InvoicePaidV1? { PaidStepCounts(db, t, e, clk); }
    else if e.InvoiceExpiredV1? { ExpiredStepCounts(db, t, e, cfg, clk); }
    else { ReassignedStepCounts(db, t, e, cfg, clk); }
  }

  lemma ClosedStepCounts(db: Db, t: Task, e: Event, cfg: Config, clk: Clock)
    requires t.trigger == OnEvent(e) && e.AuctionClosedV1? && Undisturbed(db, t) && !Returned(t.pc)
    ensures var r := StepOnAuctionClosed(db, t, e, cfg, clk);
      !Returned(r.pc) ==> CallsMade(t.(pc := r.pc)) == CallsMade(t) + 1
  {
  }

  lemma PaidStepCounts(db: Db, t: Task, e: Event, clk: Clock)
    requires t.trigger == OnEvent(e) && e.InvoicePaidV1? && Undisturbed(db, t) && !Returned(t.pc)
    ensures var r := StepOnInvoicePaid(db, t, e, clk);
      !Returned(r.pc) ==> CallsMade(t.(pc := r.pc)) == CallsMade(t) + 1
  {
  }

  lemma ExpiredStepCounts(db: Db, t: Task, e: Event, cfg: Config, clk: Clock)
    requires t.trigger == OnEvent(e) && e.InvoiceExpiredV1? && Undisturbed(db, t) && !Returned(t.pc)
    ensures var r := StepOnInvoiceExpired(db, t, e, cfg, clk);
      !Returned(r.pc) ==> CallsMade(t.(pc := r.pc)) == CallsMade(t) + 1
  {
  }

  lemma ReassignedStepCounts(db: Db, t: Task, e: Event, cfg: Config, clk: Clock)
    requires t.trigger == OnEvent(e) && e.WinnerReassignedV1? && Undisturbed(db, t) && !Returned(t.pc)
    ensures var r := StepOnWinnerReassigned(db, t, e, cfg, clk);
      !Returned(r.pc) ==> CallsMade(t.(pc := r.pc)) == CallsMade(t) + 1
  {
  }

  lemma DeclineStepCounts(db: Db, t: Task, actor: Id, cfg: Config, clk: Clock)
    requires t.trigger == OnDecline(actor) && Undisturbed(db, t) && !Returned(t.pc)
    requires t.pc.Compensating? ==> t.pc.step != StepAwardRunnerUp
    ensures var r := StepOnDecline(db, t, actor, cfg, clk);
      !Returned(r.pc) && !r.pc.Rereading? ==> CallsMade(t.(pc := r.pc)) == CallsMade(t) + 1
  {
    if t.pc.Begin? || t.pc.Voiding? {
      DecideCounts(db, t, actor, cfg, clk);
    } else if t.pc.Compensating? || t.pc.Relisting? {
      EffectCounts(db, t, actor, cfg, clk);
    }
  }

  lemma DecideCounts(db: Db, t: Task, actor: Id, cfg: Config, clk: Clock)
    requires t.trigger == OnDecline(actor) && (t.pc.Begin? || t.pc.Voiding?)
    ensures var r := StepOnDecline(db, t, actor, cfg, clk);
      !Returned(r.pc) ==> CallsMade(t.(pc := r.pc)) == CallsMade(t) + 1
  {
  }

  lemma EffectCounts(db: Db, t: Task, actor: Id, cfg: Config, clk: Clock)
    requires t.trigger == OnDecline(actor) && (t.pc.Compensating? || t.pc.Relisting?) && t.pc.step != StepAwardRunnerUp
    requires t.pc.Relisting? ==> t.pc.step == StepRelist
    ensures var r := StepOnDecline(db, t, actor, cfg, clk);
      !Returned(r.pc) ==> CallsMade(t.(pc := r.pc)) == CallsMade(t) + 1
  {
  }

  /** The handler started, on an event that was published or on a runner-up's request. */
  ghost predicate Starts(db: Db, t: Task) {
    && t.pc.Begin?
    && (t.trigger.OnEvent? ==>
          var e := t.trigger.event;
          SagaEvent(e) && e in db.outbox && t == TaskFor(e))
  }

  /** The handler is on its way, alone, with true memories. */
  ghost predicate OnItsWay(db: Db, t: Task) {
    && DbInv(db) && Undisturbed(db, t) && TaskInv(t, ViewOf(db, t.auction), Early(t), true)
  }

  ghost function Early(t: Task): set<Event> {
    if t.trigger.OnEvent? then {t.trigger.event} else {}
  }

  lemma StepStaysOnItsWay(db: Db, t: Task, cfg: Config, clk: Clock)
    requires OnItsWay(db, t) && !Returned(t.pc) && Sane(clk, cfg)
    ensures var r := TaskStep(db, t, cfg, clk); var t' := t.(pc := r.pc);
      OnItsWay(r.db, t') && (Returned(r.pc) || CallsMade(t') == CallsMade(t) + 1)
  {
    assert ViewInv(t.auction, ViewOf(db, t.auction));
    AnyStep(db, t, cfg, clk, Early(t), true);
    match t.trigger
    case OnDecline(actor) =>
      DeclineStepStays(db, t, actor, cfg, clk);
      DeclineStepCounts(db, t, actor, cfg, clk);
    case OnEvent(e) =>
      EventStepStays(db, t, e, cfg, clk);
      EventStepCounts(db, t, e, cfg, clk);
  }

  lemma {:induction false} RunStaysOnItsWay(db: Db, t: Task, cfg: Config, clks: seq<Clock>)
    requires OnItsWay(db, t) && AllSane(clks, cfg)
    ensures var r := RunAlone(db, t, cfg, clks); var t' := t.(pc := r.pc);
      OnItsWay(r.db, t') && (Returned(r.pc) || CallsMade(t') == CallsMade(t) + |clks|)
    decreases |clks|
  {
    if Returned(t.pc) || clks == [] {
      assert t.(pc := t.pc) == t;
    } else {
      var r := TaskStep(db, t, cfg, clks[0]);
      StepStaysOnItsWay(db, t, cfg, clks[0]);
      RunStaysOnItsWay(r.db, t.(pc := r.pc), cfg, clks[1..]);
    }
  }

  /** A handler that had returned returns the same way again and changes nothing. */
  lemma RepeatIsSilent(db: Db, t: Task, cfg: Config, clks: seq<Clock>)
    requires Undisturbed(db, t) && Returned(t.pc) && !t.pc.Nacked? && |clks| >= 2
    ensures RunAlone(db, t.(pc := Begin), cfg, clks) == Stepped(db, t.pc)
  {
    match t.trigger
    case OnEvent(e) => SilentRun(db, e, cfg, clks);
    case OnDecline(actor) =>
      var again := t.(pc := Begin);
      var r := TaskStep(db, again, cfg, clks[0]);
      assert r == Stepped(db, DecideDecline(db, t.auction, actor));
      if !Returned(r.pc) {
        assert TaskStep(db, t.(pc := r.pc), cfg, clks[1]) == Stepped(db, t.pc);
        assert RunAlone(db, t.(pc := r.pc), cfg, clks[1..]) == RunAlone(db, t, cfg, clks[1..][1..]);
      }
  }

  /**
    Crash seams heal. Whatever calls a handler or a decline has made before it broke off,
    running it again from the start leaves the database - auctions, invoices, sagas and
    published events - and gives the answer that one uninterrupted run would have, with
    the clocks of the calls that did the work.
   */
  lemma CrashSeamHeals(acts: seq<Act>, cfg: Config, t: Task, made: seq<Clock>, clks: seq<Clock>)
    requires Starts(Reach(acts, cfg).db, t) && AllSane(made + clks, cfg)
    requires |made| <= CallsLeft(Begin) <= |clks|
    ensures var db := Reach(acts, cfg).db; var crashed := RunAlone(db, t, cfg, made);
      RunAlone(crashed.db, t, cfg, clks) == RunAlone(db, t, cfg, made + clks[|made|..])
  {
    var db := Reach(acts, cfg).db;
    Reached(acts, cfg, t.auction);
    forall clk | clk in made ensures Sane(clk, cfg) { assert clk in made + clks; }
    forall clk | clk in clks ensures Sane(clk, cfg) { assert clk in made + clks; }
    RunStaysOnItsWay(db, t, cfg, made);
    RunsCompose(db, t, cfg, made, clks[|made|..]);
    var crashed := RunAlone(db, t, cfg, made);
    SeamHeals(crashed.db, t.(pc := crashed.pc), cfg, clks, |made|);
  }

  lemma SeamHeals(db: Db, t: Task, cfg: Config, clks: seq<Clock>, made: nat)
    requires OnItsWay(db, t) && AllSane(clks, cfg) && made <= CallsLeft(Begin) <= |clks|
    requires t.trigger.OnEvent? ==> t.trigger.event in db.outbox
    requires Returned(t.pc) || CallsMade(t) == made
    ensures RunAlone(db, t.(pc := Begin), cfg, clks) == RunAlone(db, t, cfg, clks[made..])
  {
    if Returned(t.pc) {
      RepeatIsSilent(db, t, cfg, clks);
    } else {
      RunCatchesUp(db, t, cfg, clks);
    }
  }
}
