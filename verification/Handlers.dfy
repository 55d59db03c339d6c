/**
  The saga's handlers as the program runs them: decide on a snapshot, run the effects
  outside any transaction, commit under a guard. Each is proved to do, call by call, what
  the step machine's uninterrupted run does.
 */
module Handlers {
  import opened Base
  import opened Events
  import opened SettlementDomain
  import opened Database
  import opened Saga

  /** How a handler's return value reads as the last stop of its run. */
  function Acked(r: Option<Fault>): Pc {
    match r
    case None => Acking
    case Some(f) => Nacked(f)
  }

  /** ErrUnexpectedTransition means duplicate or lost race: acknowledged. */
  function Unexpected(r: Option<SagaError>): (f: Option<Fault>)
    ensures r.None? ==> f.None?
    ensures r.Some? ==> Acked(f) == AckUnexpected(r.value)
  {
    if r.None? || r.value == ErrUnexpectedTransition then None else Some(SagaFault(r.value))
  }

  /** One call of a run. */
  lemma Calls(db: Db, t: Task, cfg: Config, clks: seq<Clock>, r: Stepped)
    requires !Returned(t.pc) && clks != [] && r == TaskStep(db, t, cfg, clks[0])
    ensures RunAlone(db, t, cfg, clks) == RunAlone(r.db, t.(pc := r.pc), cfg, clks[1..])
    ensures Returned(r.pc) ==> RunAlone(db, t, cfg, clks) == r
  {
  }

  /** The effects of a compensation step; relisting takes a second call. */
  function Compensated(db: Db, id: Id, step: NextStep, reason: FailureReason, cfg: Config, clks: seq<Clock>): Called
    requires |clks| >= 2
  {
    match step
    case StepAwardRunnerUp => AwardToRunnerUp(db, id, clks[0].now)
    case StepFailUnsold => MarkSaleFailed(db, id, reason, clks[0].now)
    case StepRelist =>
      var c := MarkSaleFailed(db, id, reason, clks[0].now);
      if c.fault.Some? then c else RelistEffect(c.db, id, cfg, clks[1])
  }

  function EffectCalls(step: NextStep): nat { if step == StepRelist then 2 else 1 }

  lemma ExpiryCompensates(db: Db, t: Task, e: Event, step: NextStep, cfg: Config, clks: seq<Clock>)
    requires e.InvoiceExpiredV1? && t == TaskFor(e).(pc := Compensating(step)) && |clks| >= 4
    ensures var c := Compensated(db, t.auction, step, PaymentTimeout, cfg, clks);
      RunAlone(db, t, cfg, clks) ==
        if c.fault.Some? then Stepped(c.db, Nacked(c.fault.value))
        else RunAlone(c.db, t.(pc := CommitStep(step)), cfg, clks[EffectCalls(step)..])
  {
    Calls(db, t, cfg, clks, TaskStep(db, t, cfg, clks[0]));
    if step == StepRelist {
      var c := MarkSaleFailed(db, t.auction, PaymentTimeout, clks[0].now);
      if c.fault.None? {
        var t' := t.(pc := Relisting(step));
        Calls(c.db, t', cfg, clks[1..], TaskStep(c.db, t', cfg, clks[1]));
        assert clks[1..][1..] == clks[2..];
      }
    }
  }

  /** What a declining runner-up hears about a failed effect. */
  function FaultAnswer(f: Fault): DeclineAnswer {
    if f == SagaFault(ErrOfferAlreadyPaid) then OfferAlreadyPaid else DeclineFailed(f)
  }

  lemma DeclinePanics(db: Db, t: Task, actor: Id, cfg: Config, clks: seq<Clock>)
    requires t.trigger == OnDecline(actor) && t.pc == Compensating(StepAwardRunnerUp) && clks != []
    ensures RunAlone(db, t, cfg, clks) == Stepped(db, Answered(DeclineFailed(Panic)))
  {
    Calls(db, t, cfg, clks, TaskStep(db, t, cfg, clks[0]));
  }

  lemma DeclineRelists(db: Db, t: Task, actor: Id, cfg: Config, clks: seq<Clock>)
    requires t.trigger == OnDecline(actor) && t.pc == Relisting(StepRelist) && |clks| >= 3
    ensures var c := RelistEffect(db, t.auction, cfg, clks[0]);
      RunAlone(db, t, cfg, clks) ==
        if c.fault.Some? then Stepped(c.db, Answered(FaultAnswer(c.fault.value)))
        else RunAlone(c.db, t.(pc := CommitStep(StepRelist)), cfg, clks[1..])
  {
    Calls(db, t, cfg, clks, TaskStep(db, t, cfg, clks[0]));
  }

  lemma DeclineFailsSale(db: Db, t: Task, actor: Id, step: NextStep, cfg: Config, clks: seq<Clock>)
    requires t.trigger == OnDecline(actor) && t.pc == Compensating(step) && |clks| >= 4 && step != StepAwardRunnerUp
    ensures var c := MarkSaleFailed(db, t.auction, SecondChanceDeclined, clks[0].now);
      RunAlone(db, t, cfg, clks) ==
        if c.fault.Some? then Stepped(c.db, Answered(FaultAnswer(c.fault.value)))
        else RunAlone(c.db, t.(pc := AfterFailing(step)), cfg, clks[1..])
  {
    Calls(db, t, cfg, clks, TaskStep(db, t, cfg, clks[0]));
  }

  lemma DeclineCompensates(db: Db, t: Task, actor: Id, step: NextStep, cfg: Config, clks: seq<Clock>)
    requires t.trigger == OnDecline(actor) && t.pc == Compensating(step) && |clks| >= 4 && step != StepAwardRunnerUp
    ensures var c := Compensated(db, t.auction, step, SecondChanceDeclined, cfg, clks);
      RunAlone(db, t, cfg, clks) ==
        if c.fault.Some? then Stepped(c.db, Answered(FaultAnswer(c.fault.value)))
        else RunAlone(c.db, t.(pc := CommitStep(step)), cfg, clks[EffectCalls(step)..])
  {
    DeclineFailsSale(db, t, actor, step, cfg, clks);
    var c := MarkSaleFailed(db, t.auction, SecondChanceDeclined, clks[0].now);
    if step == StepRelist && c.fault.None? {
      DeclineRelists(c.db, t.(pc := Relisting(step)), actor, cfg, clks[1..]);
      assert clks[1..][1..] == clks[2..];
    }
  }
}

module EventHandling {
  import opened Base
  import opened Events
  import opened SettlementDomain
  import opened Database
  import opened Saga
  import opened Handlers
  import S = Stores

  /** Lists the replacement, in the window the relist policy gives. */
  method Replace(tables: S.Tables, id: Id, cfg: Config, clk: Clock) returns (fault: Option<Fault>)
    modifies tables`auctions, tables`outbox
    ensures Called(tables.Db(), fault) == RelistEffect(old(tables.Db()), id, cfg, clk)
  {
    var startsAt := clk.now + cfg.relistDelay;
    fault := tables.Relist(id, RelistOf(id), startsAt, startsAt + cfg.relistDuration, clk.later);
  }

  class EventHandlers {
    const tables: S.Tables
    const cfg: Config

    constructor (tables: S.Tables, cfg: Config)
      ensures this.tables == tables && this.cfg == cfg
    {
      this.tables := tables;
      this.cfg := cfg;
    }

    /** What is left of the run of t, with the clocks still to be read. */
    ghost predicate Did(was: Db, t: Task, clks: seq<Clock>, r: Option<Fault>)
      reads this, tables
    {
      Stepped(tables.Db(), Acked(r)) == RunAlone(was, t, cfg, clks)
    }

    // ---------- AuctionClosed ----------

    method OnAuctionClosed(e: Event, clks: seq<Clock>) returns (r: Option<Fault>)
      requires e.AuctionClosedV1? && |clks| >= CallsLeft(Begin)
      modifies tables
      ensures Did(old(tables.Db()), TaskFor(e), clks, r)
    {
      ghost var db, t := tables.Db(), TaskFor(e);
      Calls(db, t, cfg, clks, BeginSettlement(db, e));
      var known := RequiresSettlement(e.outcome);
      if known.None? { return Some(SagaFault(ErrUnknownOutcome)); }
      if !known.value { return None; }
      var closing := BuildClosing(e);
      if closing.Err? { return Some(SagaFault(closing.error)); }
      tables.AddSaga(Start(closing.value));
      r := ContinueStarted(e, closing.value, clks[1..]);
    }

    /** The stored state decides, not the one just started. */
    method ContinueStarted(e: Event, closing: Closing, clks: seq<Clock>) returns (r: Option<Fault>)
      requires e.AuctionClosedV1? && |clks| >= CallsLeft(Loading(closing))
      modifies tables
      ensures Did(old(tables.Db()), TaskFor(e).(pc := Loading(closing)), clks, r)
    {
      ghost var db, t := tables.Db(), TaskFor(e).(pc := Loading(closing));
      Calls(db, t, cfg, clks, Stepped(db, LoadStarted(db, closing.auctionId)));
      var current := tables.GetSaga(closing.auctionId);
      if current.None? { return Some(SagaFault(ErrSagaNotFound)); }
      if current.value.state != Started { return None; }
      r := IssueFirst(e, current.value, clks[1..]);
    }

    method IssueFirst(e: Event, s: SettlementState, clks: seq<Clock>) returns (r: Option<Fault>)
      requires e.AuctionClosedV1? && |clks| >= CallsLeft(Issuing(s))
      modifies tables
      ensures Did(old(tables.Db()), TaskFor(e).(pc := Issuing(s)), clks, r)
    {
      ghost var db, t := tables.Db(), TaskFor(e).(pc := Issuing(s));
      Calls(db, t, cfg, clks, TaskStep(db, t, cfg, clks[0]));
      var fault := tables.IssueInvoice(s.invoiceId, s.auctionId, s.winner, s.hammer, s.attempt, cfg, clks[0].now);
      if fault.Some? { return fault; }
      ghost var db', t' := tables.Db(), t.(pc := CommitIssued(s.invoiceId));
      Calls(db', t', cfg, clks[1..], TaskStep(db', t', cfg, clks[1]));
      var committed := tables.CommitInvoiceIssued(e.auctionId, s.invoiceId);
      return Unexpected(committed);
    }

    // ---------- InvoicePaid ----------

    method OnInvoicePaid(e: Event, clks: seq<Clock>) returns (r: Option<Fault>)
      requires e.InvoicePaidV1? && |clks| >= CallsLeft(Begin)
      modifies tables
      ensures Did(old(tables.Db()), TaskFor(e), clks, r)
    {
      ghost var db, t := tables.Db(), TaskFor(e);
      Calls(db, t, cfg, clks, Stepped(db, DecidePaid(db, e)));
      if e.auctionId == Nil || e.invoiceId == Nil { return Some(SagaFault(ErrMalformedEvent)); }
      var s := tables.GetSaga(e.auctionId);
      if s.None? { return Some(SagaFault(ErrSagaNotFound)); }
      if !AwaitsInvoice(s.value, e.invoiceId) { return None; }
      r := Settle(e, clks[1..]);
    }

    method Settle(e: Event, clks: seq<Clock>) returns (r: Option<Fault>)
      requires e.InvoicePaidV1? && |clks| >= CallsLeft(Confirming)
      modifies tables
      ensures Did(old(tables.Db()), TaskFor(e).(pc := Confirming), clks, r)
    {
      ghost var db, t := tables.Db(), TaskFor(e).(pc := Confirming);
      Calls(db, t, cfg, clks, TaskStep(db, t, cfg, clks[0]));
      var fault := tables.ConfirmSettlement(e.auctionId, clks[0].now);
      if fault.Some? { return fault; }
      ghost var db', t' := tables.Db(), t.(pc := CommitPaid);
      Calls(db', t', cfg, clks[1..], TaskStep(db', t', cfg, clks[1]));
      var committed := tables.CommitPaymentReceived(e.auctionId, e.invoiceId);
      return Unexpected(committed);
    }

    // ---------- InvoiceExpired ----------

    method OnInvoiceExpired(e: Event, clks: seq<Clock>) returns (r: Option<Fault>)
      requires e.InvoiceExpiredV1? && |clks| >= CallsLeft(Begin)
      modifies tables
      ensures Did(old(tables.Db()), TaskFor(e), clks, r)
    {
      ghost var db, t := tables.Db(), TaskFor(e);
      Calls(db, t, cfg, clks, Stepped(db, DecideExpired(db, e)));
      if e.auctionId == Nil || e.invoiceId == Nil { return Some(SagaFault(ErrMalformedEvent)); }
      var s := tables.GetSaga(e.auctionId);
      if s.None? { return Some(SagaFault(ErrSagaNotFound)); }
      var step := DecideOnPaymentTimeout(s.value, e.invoiceId);
      if step.Err? { return Unexpected(Some(step.error)); }
      r := CompensateAndCommit(e, step.value, clks[1..]);
    }

    method CompensateAndCommit(e: Event, step: NextStep, clks: seq<Clock>) returns (r: Option<Fault>)
      requires e.InvoiceExpiredV1? && |clks| >= CallsLeft(Compensating(step))
      modifies tables
      ensures Did(old(tables.Db()), TaskFor(e).(pc := Compensating(step)), clks, r)
    {
      ghost var db, t := tables.Db(), TaskFor(e).(pc := Compensating(step));
      ExpiryCompensates(db, t, e, step, cfg, clks);
      var fault := Compensate(e.auctionId, step, PaymentTimeout, clks);
      if fault.Some? { return fault; }
      r := CommitTimeout(e, step, clks[EffectCalls(step)..]);
    }

    method CommitTimeout(e: Event, step: NextStep, clks: seq<Clock>) returns (r: Option<Fault>)
      requires e.InvoiceExpiredV1? && |clks| >= CallsLeft(CommitStep(step))
      modifies tables
      ensures Did(old(tables.Db()), TaskFor(e).(pc := CommitStep(step)), clks, r)
    {
      ghost var db, t := tables.Db(), TaskFor(e).(pc := CommitStep(step));
      Calls(db, t, cfg, clks, TaskStep(db, t, cfg, clks[0]));
      var reason := if step == StepAwardRunnerUp then NoReason else PaymentTimeout;
      var committed := tables.CommitNextStep(e.auctionId, step, reason);
      return Unexpected(committed);
    }

    /** The effects of the compensation fork. */
    method Compensate(id: Id, step: NextStep, reason: FailureReason, clks: seq<Clock>) returns (fault: Option<Fault>)
      requires |clks| >= 2
      modifies tables
      ensures Called(tables.Db(), fault) == Compensated(old(tables.Db()), id, step, reason, cfg, clks)
    {
      match step {
        case StepAwardRunnerUp => fault := tables.AwardToRunnerUp(id, clks[0].now);
        case StepFailUnsold => fault := tables.MarkSaleFailed(id, reason, clks[0].now);
        case StepRelist =>
          fault := tables.MarkSaleFailed(id, reason, clks[0].now);
          if fault.Some? { return; }
          fault := Replace(tables, id, cfg, clks[1]);
      }
    }

    // ---------- WinnerReassigned ----------

    method OnWinnerReassigned(e: Event, clks: seq<Clock>) returns (r: Option<Fault>)
      requires e.WinnerReassignedV1? && |clks| >= CallsLeft(Begin)
      modifies tables
      ensures Did(old(tables.Db()), TaskFor(e), clks, r)
    {
      ghost var db, t := tables.Db(), TaskFor(e);
      Calls(db, t, cfg, clks, Stepped(db, DecideReassigned(db, e)));
      var price := Money(e.priceMinor, e.currency);
      if e.auctionId == Nil || e.newWinnerId == Nil || !price.Valid() { return Some(SagaFault(ErrMalformedEvent)); }
      var s := tables.GetSaga(e.auctionId);
      if s.None? { return Some(SagaFault(ErrSagaNotFound)); }
      var refusal := DecideOnWinnerReassigned(s.value, e.newWinnerId, price);
      if refusal.Some? { return Unexpected(refusal); }
      r := OfferSecondChance(e, s.value, clks[1..]);
    }

    method OfferSecondChance(e: Event, s: SettlementState, clks: seq<Clock>) returns (r: Option<Fault>)
      requires e.WinnerReassignedV1? && |clks| >= CallsLeft(Issuing(s))
      modifies tables
      ensures Did(old(tables.Db()), TaskFor(e).(pc := Issuing(s)), clks, r)
    {
      ghost var db, t := tables.Db(), TaskFor(e).(pc := Issuing(s));
      Calls(db, t, cfg, clks, TaskStep(db, t, cfg, clks[0]));
      var second := InvoiceFor(e.auctionId, 2);
      var fault := tables.IssueInvoice(second, e.auctionId, s.runnerUp, s.runnerUpAmount, 2, cfg, clks[0].now);
      if fault.Some? { return fault; }
      ghost var db', t' := tables.Db(), t.(pc := CommitOffer);
      Calls(db', t', cfg, clks[1..], TaskStep(db', t', cfg, clks[1]));
      var committed := tables.CommitOffer(e.auctionId, e.newWinnerId, Money(e.priceMinor, e.currency), second);
      return Unexpected(committed);
    }
  }

  class DeclineSecondChanceOfferHandler {
    const tables: S.Tables
    const cfg: Config

    constructor (tables: S.Tables, cfg: Config)
      ensures this.tables == tables && this.cfg == cfg
    {
      this.tables := tables;
      this.cfg := cfg;
    }

    ghost predicate Did(was: Db, t: Task, clks: seq<Clock>, answer: DeclineAnswer)
      reads this, tables
    {
      Stepped(tables.Db(), Answered(answer)) == RunAlone(was, t, cfg, clks)
    }

    method Handle(id: Id, actor: Id, clks: seq<Clock>) returns (answer: DeclineAnswer)
      requires tables.Keyed() && |clks| >= CallsLeft(Begin)
      modifies tables
      ensures Did(old(tables.Db()), Task(id, OnDecline(actor), Begin), clks, answer)
    {
      ghost var db, t := tables.Db(), Task(id, OnDecline(actor), Begin);
      Calls(db, t, cfg, clks, Stepped(db, DecideDecline(db, id, actor)));
      var s := tables.GetSaga(id);
      if s.None? { return SettlementNotFound; }
      var step := DecideOnDecline(s.value, actor);
      if step.Err? { return DeclineOutcome(Some(step.error)); }
      answer := VoidOffer(id, actor, step.value, s.value.invoiceId, clks[1..]);
    }

    method VoidOffer(id: Id, actor: Id, step: NextStep, offer: Id, clks: seq<Clock>) returns (answer: DeclineAnswer)
      requires tables.Keyed() && |clks| >= CallsLeft(Voiding(step, offer))
      modifies tables
      ensures Did(old(tables.Db()), Task(id, OnDecline(actor), Voiding(step, offer)), clks, answer)
    {
      ghost var db, t := tables.Db(), Task(id, OnDecline(actor), Voiding(step, offer));
      Calls(db, t, cfg, clks, TaskStep(db, t, cfg, clks[0]));
      var fault := tables.VoidInvoice(offer, clks[0].now);
      if fault.Some? {
        return FaultAnswer(fault.value);
      }
      answer := Conclude(id, actor, step, clks[1..]);
    }

    /** The compensation fork; awarding is impossible on the second attempt. */
    method Compensate(id: Id, step: NextStep, clks: seq<Clock>) returns (fault: Option<Fault>)
      requires |clks| >= 2 && step != StepAwardRunnerUp
      modifies tables
      ensures Called(tables.Db(), fault) == Compensated(old(tables.Db()), id, step, SecondChanceDeclined, cfg, clks)
    {
      fault := tables.MarkSaleFailed(id, SecondChanceDeclined, clks[0].now);
      if fault.Some? || step == StepFailUnsold { return; }
      fault := Replace(tables, id, cfg, clks[1]);
    }

    method Conclude(id: Id, actor: Id, step: NextStep, clks: seq<Clock>) returns (answer: DeclineAnswer)
      requires |clks| >= CallsLeft(Compensating(step))
      modifies tables
      ensures Did(old(tables.Db()), Task(id, OnDecline(actor), Compensating(step)), clks, answer)
    {
      ghost var db, t := tables.Db(), Task(id, OnDecline(actor), Compensating(step));
      if step == StepAwardRunnerUp {
        DeclinePanics(db, t, actor, cfg, clks);
        return DeclineFailed(Panic);
      }
      DeclineCompensates(db, t, actor, step, cfg, clks);
      ghost var c;
      answer, c := CompensateAndCommit(id, actor, step, clks);
    }

    /** The effects, which come to c, and then the commit. */
    method CompensateAndCommit(id: Id, actor: Id, step: NextStep, clks: seq<Clock>)
      returns (answer: DeclineAnswer, ghost c: Called)
      requires |clks| >= CallsLeft(Compensating(step)) && step != StepAwardRunnerUp
      modifies tables
      ensures c == Compensated(old(tables.Db()), id, step, SecondChanceDeclined, cfg, clks)
      ensures c.fault.Some? ==> tables.Db() == c.db && answer == FaultAnswer(c.fault.value)
      ensures c.fault.None? ==>
        Did(c.db, Task(id, OnDecline(actor), CommitStep(step)), clks[EffectCalls(step)..], answer)
    {
      var fault := Compensate(id, step, clks);
      c := Called(tables.Db(), fault);
      if fault.Some? {
        answer := FaultAnswer(fault.value);
      } else {
        answer := Commit(id, actor, step, clks[EffectCalls(step)..]);
      }
    }

    method Commit(id: Id, actor: Id, step: NextStep, clks: seq<Clock>) returns (answer: DeclineAnswer)
      requires |clks| >= CallsLeft(CommitStep(step))
      modifies tables
      ensures Did(old(tables.Db()), Task(id, OnDecline(actor), CommitStep(step)), clks, answer)
    {
      ghost var db, t := tables.Db(), Task(id, OnDecline(actor), CommitStep(step));
      Calls(db, t, cfg, clks, TaskStep(db, t, cfg, clks[0]));
      var committed := tables.CommitNextStep(id, step, SecondChanceDeclined);
      if committed == Some(ErrUnexpectedTransition) {
        answer := Reread(id, actor, clks[1..]);
      } else if committed == Some(ErrSagaNotFound) {
        return SettlementNotFound;
      } else {
        return if committed.None? then Declined else DeclineFailed(SagaFault(committed.value));
      }
    }

    /** The race was lost: the stored saga has the answer. */
    method Reread(id: Id, actor: Id, clks: seq<Clock>) returns (answer: DeclineAnswer)
      requires |clks| >= CallsLeft(Rereading)
      ensures Did(tables.Db(), Task(id, OnDecline(actor), Rereading), clks, answer)
    {
      ghost var db, t := tables.Db(), Task(id, OnDecline(actor), Rereading);
      Calls(db, t, cfg, clks, TaskStep(db, t, cfg, clks[0]));
      var current := tables.GetSaga(id);
      if current.None? { return SettlementNotFound; }
      var again := DecideOnDecline(current.value, actor);
      return DeclineOutcome(if again.Err? then Some(again.error) else None);
    }
  }
}
