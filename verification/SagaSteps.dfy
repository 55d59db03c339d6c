/**
  Every step of every handler, taken in any state its memories allow, keeps the invariant
  and leaves memories that are true again.
 */
module SagaSteps {
  import opened Base
  import opened Events
  import opened SettlementDomain
  import opened Database
  import opened Saga
  import opened SagaView
  import opened SagaEffects
  import opened SagaCalls
  import opened SagaInvariant

  /** A step of the handler of e left true memories. */
  ghost predicate EventGood(db: Db, a: Id, e: Event, r: Stepped, early: set<Event>, sane: bool)
    requires SagaEvent(e)
  {
    DbKept(db, r.db) && Memory(a, ViewOf(r.db, a), e, r.pc, early, sane)
  }

  /** The handler of e stands at pc, with true memories. */
  ghost predicate Standing(db: Db, a: Id, e: Event, pc: Pc) {
    DbInv(db) && SagaEvent(e) && EventTask(a, ViewOf(db, a), e, pc)
  }

  ghost predicate Published(db: Db, a: Id, e: Event) {
    SagaEvent(e) && e.auctionId == a && e in ViewOf(db, a).events
  }

  lemma EventHolds(db: Db, a: Id, e: Event)
    requires DbInv(db) && Published(db, a, e)
    ensures EventPart(a, ViewOf(db, a), e) && RowsAgree(a, ViewOf(db, a))
  {
    assert ViewInv(a, ViewOf(db, a));
  }

  lemma CommitCall(db: Db, a: Id, s: SettlementState)
    requires DbInv(db) && Kept(a, ViewOf(db, a), AfterSagaCommit(ViewOf(db, a), s))
    ensures var r := UpdateSaga(db, Ok(s));
      r.Ok? && DbKept(db, r.value) && ViewOf(r.value, a) == AfterSagaCommit(ViewOf(db, a), s)
  {
    SagaCommitCall(db, a, s.(version := s.version + 1));
  }

  lemma CallGood(db: Db, a: Id, e: Event, c: Called, next: Pc, early: set<Event>, sane: bool)
    requires SagaEvent(e) && DbKept(db, c.db) && !Returned(next)
    requires c.fault.Some? ==> ClockFault(c.fault.value) && !sane
    requires c.fault.None? ==> EventTask(a, ViewOf(c.db, a), e, next)
    ensures EventGood(db, a, e, AfterCall(c, next), early, sane)
  {
  }

  lemma CommitGood(db: Db, a: Id, e: Event, verdict: SagaVerdict, early: set<Event>, sane: bool)
    requires DbInv(db) && SagaEvent(e) && e in ViewOf(db, a).events
    requires verdict.Ok? ==>
      var v' := AfterSagaCommit(ViewOf(db, a), verdict.value);
      Kept(a, ViewOf(db, a), v') && Heard(a, v', e, early)
    requires verdict.Err? ==> verdict.error == ErrUnexpectedTransition && Heard(a, ViewOf(db, a), e, early)
    ensures EventGood(db, a, e, AfterCommit(db, UpdateSaga(db, verdict)), early, sane)
  {
    NothingChanged(db);
    if verdict.Ok? {
      CommitCall(db, a, verdict.value);
    }
  }

  // ---------- AuctionClosed ----------

  lemma ClosedBegins(db: Db, a: Id, e: Event, early: set<Event>, sane: bool)
    requires Standing(db, a, e, Begin) && Published(db, a, e) && e.AuctionClosedV1?
    ensures EventGood(db, a, e, BeginSettlement(db, e), early, sane)
  {
    NothingChanged(db);
    EventHolds(db, a, e);
    if e.outcome == "sold" {
      AddSagaCall(db, e);
    }
  }

  lemma ClosedLoads(db: Db, a: Id, e: Event, closing: Closing, early: set<Event>, sane: bool)
    requires Standing(db, a, e, Loading(closing)) && Published(db, a, e) && e.AuctionClosedV1?
    ensures EventGood(db, a, e, Stepped(db, LoadStarted(db, closing.auctionId)), early, sane)
  {
    NothingChanged(db);
    EventHolds(db, a, e);
  }

  lemma IssuedRemembered(a: Id, v: View, v': View, e: Event, s: SettlementState)
    requires e.AuctionClosedV1? && EventTask(a, v, e, Issuing(s)) && Evolves(v, v') && v'.first.Some?
    ensures EventTask(a, v', e, CommitIssued(s.invoiceId))
  {
  }

  lemma ClosedIssues(
    db: Db, a: Id, e: Event, s: SettlementState, cfg: Config, clk: Clock, early: set<Event>, sane: bool)
    requires Standing(db, a, e, Issuing(s)) && e.AuctionClosedV1? && (sane ==> Sane(clk, cfg))
    ensures EventGood(db, a, e,
      AfterCall(IssueInvoice(db, s.invoiceId, s.auctionId, s.winner, s.hammer, s.attempt, cfg, clk.now),
                CommitIssued(s.invoiceId)),
      early, sane)
  {
    var c := IssueInvoice(db, s.invoiceId, s.auctionId, s.winner, s.hammer, s.attempt, cfg, clk.now);
    IssueFirstCall(db, a, s.winner, s.hammer, cfg, clk.now);
    if c.fault.None? {
      IssuedRemembered(a, ViewOf(db, a), ViewOf(c.db, a), e, s);
    }
    CallGood(db, a, e, c, CommitIssued(s.invoiceId), early, sane);
  }

  lemma IssuedIsHeard(a: Id, v: View, e: Event, inv: Id, early: set<Event>)
    requires e.AuctionClosedV1? && e.auctionId == a
    requires RowsAgree(a, v) && e in v.events && EventTask(a, v, e, CommitIssued(inv))
    ensures var r := InvoiceIssued(v.saga.value, inv);
      Heard(a, if r.Ok? then AfterSagaCommit(v, r.value) else v, e, early)
  {
  }

  lemma ClosedCommits(db: Db, a: Id, e: Event, inv: Id, early: set<Event>, sane: bool)
    requires Standing(db, a, e, CommitIssued(inv)) && Published(db, a, e) && e.AuctionClosedV1?
    ensures EventGood(db, a, e, AfterCommit(db, UpdateSaga(db, InvoiceIssued(db.sagas[a], inv))), early, sane)
  {
    EventHolds(db, a, e);
    InvoiceIssuedKeeps(a, ViewOf(db, a), inv);
    IssuedIsHeard(a, ViewOf(db, a), e, inv, early);
    CommitGood(db, a, e, InvoiceIssued(db.sagas[a], inv), early, sane);
  }

  // ---------- InvoicePaid ----------

  lemma PaidBegins(db: Db, a: Id, e: Event, early: set<Event>, sane: bool)
    requires Standing(db, a, e, Begin) && Published(db, a, e) && e.InvoicePaidV1?
    requires TooEarly(db, TaskFor(e)) ==> e in early
    ensures EventGood(db, a, e, Stepped(db, DecidePaid(db, e)), early, sane)
  {
    NothingChanged(db);
    EventHolds(db, a, e);
  }

  lemma ConfirmRemembered(a: Id, v: View, v': View, e: Event)
    requires e.InvoicePaidV1? && EventTask(a, v, e, Confirming) && Evolves(v, v') && SoldAndSettled(v')
    ensures EventTask(a, v', e, CommitPaid)
  {
  }

  lemma PaidConfirms(db: Db, a: Id, e: Event, now: Time, early: set<Event>, sane: bool)
    requires Standing(db, a, e, Confirming) && e.InvoicePaidV1?
    ensures EventGood(db, a, e, AfterCall(ConfirmSettlement(db, a, now), CommitPaid), early, sane)
  {
    ConfirmCall(db, a, now);
    var c := ConfirmSettlement(db, a, now);
    ConfirmRemembered(a, ViewOf(db, a), ViewOf(c.db, a), e);
    CallGood(db, a, e, c, CommitPaid, early, sane);
  }

  /** A paid invoice that the saga no longer awaits was settled. */
  lemma PaymentIsHeard(a: Id, v: View, e: Event, early: set<Event>)
    requires RowsAgree(a, v) && EventPart(a, v, e) && e in v.events
    requires e.InvoicePaidV1? && EventTask(a, v, e, CommitPaid)
    ensures var r := PaymentReceived(v.saga.value, e.invoiceId);
      Heard(a, if r.Ok? then AfterSagaCommit(v, r.value) else v, e, early)
  {
  }

  lemma PaidCommits(db: Db, a: Id, e: Event, early: set<Event>, sane: bool)
    requires Standing(db, a, e, CommitPaid) && Published(db, a, e) && e.InvoicePaidV1?
    ensures EventGood(db, a, e, AfterCommit(db, UpdateSaga(db, PaymentReceived(db.sagas[a], e.invoiceId))), early, sane)
  {
    EventHolds(db, a, e);
    PaymentReceivedKeeps(a, ViewOf(db, a), e.invoiceId);
    PaymentIsHeard(a, ViewOf(db, a), e, early);
    CommitGood(db, a, e, PaymentReceived(db.sagas[a], e.invoiceId), early, sane);
  }

  // ---------- InvoiceExpired ----------

  lemma TimeoutDecided(a: Id, v: View, e: Event, early: set<Event>)
    requires ViewInv(a, v) && EventPart(a, v, e) && e in v.events && e.InvoiceExpiredV1?
    requires e.invoiceId == InvoiceFor(a, 2) && !Offered(v) ==> e in early
    ensures match DecideOnPaymentTimeout(v.saga.value, e.invoiceId)
      case Ok(step) => EventTask(a, v, e, Compensating(step))
      case Err(err) => err == ErrUnexpectedTransition && Heard(a, v, e, early)
  {
  }

  lemma ExpiredBegins(db: Db, a: Id, e: Event, early: set<Event>, sane: bool)
    requires Standing(db, a, e, Begin) && Published(db, a, e) && e.InvoiceExpiredV1?
    requires TooEarly(db, TaskFor(e)) ==> e in early
    ensures EventGood(db, a, e, Stepped(db, DecideExpired(db, e)), early, sane)
  {
    NothingChanged(db);
    EventHolds(db, a, e);
    TimeoutDecided(a, ViewOf(db, a), e, early);
  }

  lemma AwardRemembered(a: Id, v: View, v': View, e: Event)
    requires e.InvoiceExpiredV1? && EventTask(a, v, e, Compensating(StepAwardRunnerUp))
    requires Evolves(v, v') && Reassigned(v')
    ensures EventTask(a, v', e, CommitStep(StepAwardRunnerUp))
  {
  }

  lemma ExpiredAwards(db: Db, a: Id, e: Event, now: Time, early: set<Event>, sane: bool)
    requires Standing(db, a, e, Compensating(StepAwardRunnerUp)) && e.InvoiceExpiredV1?
    ensures EventGood(db, a, e, AfterCall(AwardToRunnerUp(db, a, now), CommitStep(StepAwardRunnerUp)), early, sane)
  {
    AwardCall(db, a, now);
    var c := AwardToRunnerUp(db, a, now);
    assert Evolves(ViewOf(db, a), ViewOf(c.db, a));
    AwardRemembered(a, ViewOf(db, a), ViewOf(c.db, a), e);
    CallGood(db, a, e, c, CommitStep(StepAwardRunnerUp), early, sane);
  }

  lemma FailRemembered(a: Id, v: View, v': View, e: Event, step: NextStep)
    requires e.InvoiceExpiredV1? && EventTask(a, v, e, Compensating(step)) && step != StepAwardRunnerUp
    requires Evolves(v, v') && SaleFailed(v')
    ensures EventTask(a, v', e, AfterFailing(step))
  {
  }

  lemma ExpiredFails(db: Db, a: Id, e: Event, step: NextStep, now: Time, early: set<Event>, sane: bool)
    requires Standing(db, a, e, Compensating(step)) && e.InvoiceExpiredV1? && step != StepAwardRunnerUp
    ensures EventGood(db, a, e, AfterCall(MarkSaleFailed(db, a, PaymentTimeout, now), AfterFailing(step)), early, sane)
  {
    FailCall(db, a, PaymentTimeout, now);
    var c := MarkSaleFailed(db, a, PaymentTimeout, now);
    assert Evolves(ViewOf(db, a), ViewOf(c.db, a));
    FailRemembered(a, ViewOf(db, a), ViewOf(c.db, a), e, step);
    CallGood(db, a, e, c, AfterFailing(step), early, sane);
  }

  lemma RelistRemembered(a: Id, v: View, v': View, e: Event, step: NextStep)
    requires e.InvoiceExpiredV1? && EventTask(a, v, e, Relisting(step))
    requires Evolves(v, v') && v'.relisted && SaleFailed(v')
    ensures EventTask(a, v', e, CommitStep(step))
  {
  }

  lemma ExpiredRelists(db: Db, a: Id, e: Event, step: NextStep, cfg: Config, clk: Clock, early: set<Event>, sane: bool)
    requires Standing(db, a, e, Relisting(step)) && e.InvoiceExpiredV1? && (sane ==> Sane(clk, cfg))
    ensures EventGood(db, a, e, AfterCall(RelistEffect(db, a, cfg, clk), CommitStep(step)), early, sane)
  {
    RelistCall(db, a, cfg, clk);
    var c := RelistEffect(db, a, cfg, clk);
    if c.fault.None? {
      RelistRemembered(a, ViewOf(db, a), ViewOf(c.db, a), e, step);
    }
    CallGood(db, a, e, c, CommitStep(step), early, sane);
  }

  lemma StepIsHeard(a: Id, v: View, e: Event, step: NextStep, reason: FailureReason, early: set<Event>)
    requires ViewInv(a, v) && e in v.events && e.auctionId == a
    requires e.InvoiceExpiredV1? && EventTask(a, v, e, CommitStep(step))
    requires reason == NoReason <==> step == StepAwardRunnerUp
    ensures var r := ApplyNextStep(v.saga.value, step, reason);
      Heard(a, if r.Ok? then AfterSagaCommit(v, r.value) else v, e, early)
  {
  }

  lemma ExpiredCommits(db: Db, a: Id, e: Event, step: NextStep, early: set<Event>, sane: bool)
    requires Standing(db, a, e, CommitStep(step)) && Published(db, a, e) && e.InvoiceExpiredV1?
    ensures var reason := if step == StepAwardRunnerUp then NoReason else PaymentTimeout;
      EventGood(db, a, e, AfterCommit(db, UpdateSaga(db, ApplyNextStep(db.sagas[a], step, reason))), early, sane)
  {
    EventHolds(db, a, e);
    var reason := if step == StepAwardRunnerUp then NoReason else PaymentTimeout;
    ApplyNextStepKeeps(a, ViewOf(db, a), step, reason);
    StepIsHeard(a, ViewOf(db, a), e, step, reason, early);
    CommitGood(db, a, e, ApplyNextStep(db.sagas[a], step, reason), early, sane);
  }

  // ---------- WinnerReassigned ----------

  lemma ReassignedBegins(db: Db, a: Id, e: Event, early: set<Event>, sane: bool)
    requires Standing(db, a, e, Begin) && Published(db, a, e) && e.WinnerReassignedV1?
    requires TooEarly(db, TaskFor(e)) ==> e in early
    ensures EventGood(db, a, e, Stepped(db, DecideReassigned(db, e)), early, sane)
  {
    NothingChanged(db);
    EventHolds(db, a, e);
    RunnerUpIsBillable(a, ViewOf(db, a));
  }

  lemma OfferRemembered(a: Id, v: View, v': View, e: Event, s: SettlementState)
    requires e.WinnerReassignedV1? && EventTask(a, v, e, Issuing(s)) && Evolves(v, v') && v'.second.Some?
    ensures EventTask(a, v', e, CommitOffer)
  {
  }

  lemma ReassignedIssues(
    db: Db, a: Id, e: Event, s: SettlementState, cfg: Config, clk: Clock, early: set<Event>, sane: bool)
    requires Standing(db, a, e, Issuing(s)) && e.WinnerReassignedV1? && (sane ==> Sane(clk, cfg))
    ensures EventGood(db, a, e,
      AfterCall(IssueInvoice(db, InvoiceFor(a, 2), a, s.runnerUp, s.runnerUpAmount, 2, cfg, clk.now), CommitOffer),
      early, sane)
  {
    var c := IssueInvoice(db, InvoiceFor(a, 2), a, s.runnerUp, s.runnerUpAmount, 2, cfg, clk.now);
    IssueSecondCall(db, a, s.runnerUp, s.runnerUpAmount, cfg, clk.now);
    if c.fault.None? {
      OfferRemembered(a, ViewOf(db, a), ViewOf(c.db, a), e, s);
    }
    CallGood(db, a, e, c, CommitOffer, early, sane);
  }

  lemma ReassignedCommits(db: Db, a: Id, e: Event, early: set<Event>, sane: bool)
    requires Standing(db, a, e, CommitOffer) && Published(db, a, e) && e.WinnerReassignedV1?
    ensures var price := Money(e.priceMinor, e.currency);
      EventGood(db, a, e,
        AfterCommit(db, UpdateSaga(db, SecondChanceOffered(db.sagas[a], e.newWinnerId, price, InvoiceFor(a, 2)))),
        early, sane)
  {
    EventHolds(db, a, e);
    var price := Money(e.priceMinor, e.currency);
    OfferKeeps(a, ViewOf(db, a), e.newWinnerId, price);
    CommitGood(db, a, e, SecondChanceOffered(db.sagas[a], e.newWinnerId, price, InvoiceFor(a, 2)), early, sane);
  }

  // ---------- The decline ----------

  ghost predicate Declining(db: Db, a: Id, actor: Id, pc: Pc, sane: bool) {
    DbInv(db) && DeclineTask(a, ViewOf(db, a), actor, pc, sane)
  }

  ghost predicate DeclineGood(db: Db, a: Id, actor: Id, r: Stepped, sane: bool) {
    DbKept(db, r.db) && DeclineTask(a, ViewOf(r.db, a), actor, r.pc, sane)
  }

  lemma DeclineDecided(a: Id, v: View, actor: Id, sane: bool)
    requires RowsAgree(a, v) && v.saga.Some?
    ensures match DecideOnDecline(v.saga.value, actor)
      case Ok(step) => DeclineTask(a, v, actor, Voiding(step, v.saga.value.invoiceId), sane)
      case Err(e) => DeclineTask(a, v, actor, Answered(DeclineOutcome(Some(e))), sane)
  {
  }

  lemma DeclineBegins(db: Db, a: Id, actor: Id, sane: bool)
    requires Declining(db, a, actor, Begin, sane)
    ensures DeclineGood(db, a, actor, Stepped(db, DecideDecline(db, a, actor)), sane)
  {
    NothingChanged(db);
    assert ViewInv(a, ViewOf(db, a));
    if a in db.sagas {
      DeclineDecided(a, ViewOf(db, a), actor, sane);
    }
  }

  lemma DeclineRereads(db: Db, a: Id, actor: Id, sane: bool)
    requires Declining(db, a, actor, Rereading, sane)
    ensures DeclineGood(db, a, actor, Stepped(db, RereadDecline(db, a, actor)), sane)
  {
    NothingChanged(db);
  }

  lemma DeclineCallGood(db: Db, a: Id, actor: Id, c: Called, next: Pc, sane: bool)
    requires DbKept(db, c.db)
    requires c.fault.None? ==> DeclineTask(a, ViewOf(c.db, a), actor, next, sane)
    requires c.fault.Some? ==>
      if c.fault.value == SagaFault(ErrOfferAlreadyPaid) then SomeonePaid(ViewOf(c.db, a))
      else Excusable(c.fault.value, ViewOf(c.db, a), sane)
    ensures DeclineGood(db, a, actor, AfterDeclineCall(c, next), sane)
  {
    if c.fault.Some? {
      var r := AfterDeclineCall(c, next);
      assert r.db == c.db && r.pc.Answered?;
      assert r.pc.answer != Declined;
    }
  }

  lemma VoidRemembered(a: Id, v: View, v': View, actor: Id, step: NextStep, offer: Id, sane: bool)
    requires DeclineTask(a, v, actor, Voiding(step, offer), sane) && Evolves(v, v') && DeadSale(v')
    ensures DeclineTask(a, v', actor, Compensating(step), sane)
  {
  }

  lemma DeclineVoids(db: Db, a: Id, actor: Id, step: NextStep, offer: Id, now: Time, sane: bool)
    requires Declining(db, a, actor, Voiding(step, offer), sane)
    ensures DeclineGood(db, a, actor, AfterDeclineCall(VoidInvoice(db, offer, now), Compensating(step)), sane)
  {
    VoidCall(db, a, now);
    var c := VoidInvoice(db, offer, now);
    if c.fault.None? {
      VoidRemembered(a, ViewOf(db, a), ViewOf(c.db, a), actor, step, offer, sane);
    }
    DeclineCallGood(db, a, actor, c, Compensating(step), sane);
  }

  lemma DeclinedSaleRemembered(a: Id, v: View, v': View, actor: Id, step: NextStep, sane: bool)
    requires DeclineTask(a, v, actor, Compensating(step), sane) && Evolves(v, v') && SaleFailed(v')
    ensures DeclineTask(a, v', actor, AfterFailing(step), sane)
  {
  }

  lemma DeclineFails(db: Db, a: Id, actor: Id, step: NextStep, now: Time, sane: bool)
    requires Declining(db, a, actor, Compensating(step), sane)
    ensures step != StepAwardRunnerUp
    ensures DeclineGood(db, a, actor,
      AfterDeclineCall(MarkSaleFailed(db, a, SecondChanceDeclined, now), AfterFailing(step)), sane)
  {
    FailCall(db, a, SecondChanceDeclined, now);
    var c := MarkSaleFailed(db, a, SecondChanceDeclined, now);
    DeclinedSaleRemembered(a, ViewOf(db, a), ViewOf(c.db, a), actor, step, sane);
    DeclineCallGood(db, a, actor, c, AfterFailing(step), sane);
  }

  lemma DeclinedRelistRemembered(a: Id, v: View, v': View, actor: Id, step: NextStep, sane: bool)
    requires DeclineTask(a, v, actor, Relisting(step), sane) && Evolves(v, v') && v'.relisted && SaleFailed(v')
    ensures DeclineTask(a, v', actor, CommitStep(step), sane)
  {
  }

  lemma DeclineRelists(db: Db, a: Id, actor: Id, step: NextStep, cfg: Config, clk: Clock, sane: bool)
    requires Declining(db, a, actor, Relisting(step), sane) && (sane ==> Sane(clk, cfg))
    ensures DeclineGood(db, a, actor, AfterDeclineCall(RelistEffect(db, a, cfg, clk), CommitStep(step)), sane)
  {
    RelistCall(db, a, cfg, clk);
    var c := RelistEffect(db, a, cfg, clk);
    if c.fault.None? {
      DeclinedRelistRemembered(a, ViewOf(db, a), ViewOf(c.db, a), actor, step, sane);
    }
    DeclineCallGood(db, a, actor, c, CommitStep(step), sane);
  }

  lemma DeclineAnswered(a: Id, v: View, actor: Id, step: NextStep, sane: bool)
    requires ViewInv(a, v) && DeclineTask(a, v, actor, CommitStep(step), sane)
    ensures var r := ApplyNextStep(v.saga.value, step, SecondChanceDeclined);
      if r.Ok? then DeclineTask(a, AfterSagaCommit(v, r.value), actor, Answered(Declined), sane)
      else DeclineTask(a, v, actor, Rereading, sane)
  {
  }

  lemma DeclineCommits(db: Db, a: Id, actor: Id, step: NextStep, sane: bool)
    requires Declining(db, a, actor, CommitStep(step), sane)
    ensures DeclineGood(db, a, actor,
      AfterDeclineCommit(db, UpdateSaga(db, ApplyNextStep(db.sagas[a], step, SecondChanceDeclined))), sane)
  {
    NothingChanged(db);
    ApplyNextStepKeeps(a, ViewOf(db, a), step, SecondChanceDeclined);
    DeclineAnswered(a, ViewOf(db, a), actor, step, sane);
    var r := ApplyNextStep(db.sagas[a], step, SecondChanceDeclined);
    if r.Ok? {
      CommitCall(db, a, r.value);
    }
  }

  // ---------- Any step ----------

  lemma ClosedStep(db: Db, t: Task, e: Event, cfg: Config, clk: Clock, early: set<Event>, sane: bool)
    requires e.AuctionClosedV1? && Standing(db, t.auction, e, t.pc) && Published(db, t.auction, e)
    requires sane ==> Sane(clk, cfg)
    ensures EventGood(db, t.auction, e, StepOnAuctionClosed(db, t, e, cfg, clk), early, sane)
  {
    match t.pc
    case Begin => ClosedBegins(db, t.auction, e, early, sane);
    case Loading(closing) => ClosedLoads(db, t.auction, e, closing, early, sane);
    case Issuing(s) => ClosedIssues(db, t.auction, e, s, cfg, clk, early, sane);
    case CommitIssued(inv) => ClosedCommits(db, t.auction, e, inv, early, sane);
    case _ => assert false;
  }

  lemma PaidStep(db: Db, t: Task, e: Event, clk: Clock, early: set<Event>, sane: bool)
    requires e.InvoicePaidV1? && Standing(db, t.auction, e, t.pc) && Published(db, t.auction, e)
    requires t.pc.Begin? && TooEarly(db, TaskFor(e)) ==> e in early
    ensures EventGood(db, t.auction, e, StepOnInvoicePaid(db, t, e, clk), early, sane)
  {
    match t.pc
    case Begin => PaidBegins(db, t.auction, e, early, sane);
    case Confirming => PaidConfirms(db, t.auction, e, clk.now, early, sane);
    case CommitPaid => PaidCommits(db, t.auction, e, early, sane);
    case _ => assert false;
  }

  lemma ExpiredStep(db: Db, t: Task, e: Event, cfg: Config, clk: Clock, early: set<Event>, sane: bool)
    requires e.InvoiceExpiredV1? && Standing(db, t.auction, e, t.pc) && Published(db, t.auction, e)
    requires sane ==> Sane(clk, cfg)
    requires t.pc.Begin? && TooEarly(db, TaskFor(e)) ==> e in early
    ensures EventGood(db, t.auction, e, StepOnInvoiceExpired(db, t, e, cfg, clk), early, sane)
  {
    match t.pc
    case Begin => ExpiredBegins(db, t.auction, e, early, sane);
    case Compensating(step) =>
      if step == StepAwardRunnerUp {
        ExpiredAwards(db, t.auction, e, clk.now, early, sane);
      } else {
        ExpiredFails(db, t.auction, e, step, clk.now, early, sane);
      }
    case Relisting(step) => ExpiredRelists(db, t.auction, e, step, cfg, clk, early, sane);
    case CommitStep(step) => ExpiredCommits(db, t.auction, e, step, early, sane);
    case _ => assert false;
  }

  lemma ReassignedStep(db: Db, t: Task, e: Event, cfg: Config, clk: Clock, early: set<Event>, sane: bool)
    requires e.WinnerReassignedV1? && Standing(db, t.auction, e, t.pc) && Published(db, t.auction, e)
    requires sane ==> Sane(clk, cfg)
    requires t.pc.Begin? && TooEarly(db, TaskFor(e)) ==> e in early
    ensures EventGood(db, t.auction, e, StepOnWinnerReassigned(db, t, e, cfg, clk), early, sane)
  {
    match t.pc
    case Begin => ReassignedBegins(db, t.auction, e, early, sane);
    case Issuing(s) => ReassignedIssues(db, t.auction, e, s, cfg, clk, early, sane);
    case CommitOffer => ReassignedCommits(db, t.auction, e, early, sane);
    case _ => assert false;
  }

  lemma EventStep(db: Db, t: Task, e: Event, cfg: Config, clk: Clock, early: set<Event>, sane: bool)
    requires t.trigger == OnEvent(e) && Standing(db, t.auction, e, t.pc) && Published(db, t.auction, e)
    requires (sane ==> Sane(clk, cfg)) && (t.pc.Begin? && TooEarly(db, TaskFor(e)) ==> e in early)
    ensures EventGood(db, t.auction, e, TaskStep(db, t, cfg, clk), early, sane)
  {
    if e.AuctionClosedV1? {
      ClosedStep(db, t, e, cfg, clk, early, sane);
    } else if e.InvoicePaidV1? {
      PaidStep(db, t, e, clk, early, sane);
    } else if e.InvoiceExpiredV1? {
      ExpiredStep(db, t, e, cfg, clk, early, sane);
    } else {
      ReassignedStep(db, t, e, cfg, clk, early, sane);
    }
  }

  lemma DeclineStep(db: Db, t: Task, actor: Id, cfg: Config, clk: Clock, sane: bool)
    requires Declining(db, t.auction, actor, t.pc, sane) && (sane ==> Sane(clk, cfg))
    ensures DeclineGood(db, t.auction, actor, StepOnDecline(db, t, actor, cfg, clk), sane)
  {
    match t.pc
    case Begin => DeclineBegins(db, t.auction, actor, sane);
    case Rereading => DeclineRereads(db, t.auction, actor, sane);
    case Voiding(step, offer) => DeclineVoids(db, t.auction, actor, step, offer, clk.now, sane);
    case Compensating(step) => DeclineFails(db, t.auction, actor, step, clk.now, sane);
    case Relisting(step) => DeclineRelists(db, t.auction, actor, step, cfg, clk, sane);
    case CommitStep(step) => DeclineCommits(db, t.auction, actor, step, sane);
    case Answered(_) => NothingChanged(db);
    case _ => assert false;
  }
}
