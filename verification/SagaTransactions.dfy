/** Every step of the system, whoever takes it, is one transaction of one context, or none. */
module SagaTransactions {
  import opened Base
  import opened Events
  import AuctionDomain
  import opened AuctionRuns
  import InvoiceDomain
  import opened SettlementDomain
  import opened Database
  import opened Saga

  datatype Transaction =
    | NoWrite
    | List(listing: AuctionDomain.AuctionState, now: Time)
    | Order(auction: Id, command: Command)
    | Replace(auction: Id, clk: Clock)
    | Issue(invoice: Id, auction: Id, debtor: Id, amount: Money, attempt: int, now: Time)
    | Finish(invoice: Id, ending: InvoiceDomain.Ending)
    | WriteSaga(saga: SettlementState)

  /** What listings and commands may look like. */
  ghost predicate WellFormed(x: Transaction) {
    && (x.List? ==> Fresh(x.listing) && x.listing.id.Client? && x.listing.relistOf == Nil)
    && (x.Order? ==> WellTyped(x.command))
  }

  predicate PaysInvoice(x: Transaction) { x.Finish? && x.ending.Payment? }

  predicate FailsSale(x: Transaction) { x.Order? && x.command.DoFail? }

  predicate GivesUp(st: SagaState) { st in {Relisted, FailedUnsold} }

  /** Why the handler gives a sale up. */
  function ReasonOf(t: Task): FailureReason {
    if t.trigger.OnDecline? then SecondChanceDeclined else PaymentTimeout
  }

  /** A sale is failed, and a saga given up, by a handler in its compensation, for that handler's reason. */
  predicate OwnReason(db: Db, t: Task, x: Transaction) {
    && (FailsSale(x) ==>
          && t.pc.Compensating? && t.pc.step != StepAwardRunnerUp
          && x.auction == t.auction && x.command.reason == ReasonOf(t))
    && (x.WriteSaga? ==>
          if x.saga.state == Started then x.saga.failureReason == NoReason
          else
            && t.auction in db.sagas && x.saga.auctionId == db.sagas[t.auction].auctionId
            && if GivesUp(x.saga.state)
               then t.pc.CommitStep? && t.pc.step != StepAwardRunnerUp && x.saga.failureReason == ReasonOf(t)
               else x.saga.failureReason == db.sagas[t.auction].failureReason)
  }

  /** The clock a transaction stamps its events with; a handler's call uses its own. */
  predicate Stamped(t: Task, x: Transaction, clk: Clock) {
    && (x.Order? ==> x.command.now == clk.now)
    && (x.Issue? ==> x.now == clk.now)
    && (x.Finish? ==> x.ending.at == clk.now)
    && (x.Replace? ==> x.clk == clk && t.pc.Relisting?)
    && (t.pc.Relisting? ==> x.Replace? || x.NoWrite?)
    && !x.List?
  }

  function Commit(db: Db, x: Transaction, cfg: Config): Db {
    match x
    case NoWrite => db
    case List(a, now) =>
      (match AddAuction(db, AuctionDomain.Change(a, [AuctionDomain.AuctionListed(now)]))
       case Ok(db') => db'
       case Err(_) => db)
    case Order(id, c) =>
      (match UpdateAuction(db, id, c)
       case Ok(db') => db'
       case Err(_) => db)
    case Replace(id, clk) => RelistEffect(db, id, cfg, clk).db
    case Issue(inv, a, debtor, amount, attempt, now) => IssueInvoice(db, inv, a, debtor, amount, attempt, cfg, now).db
    case Finish(inv, e) =>
      (match UpdateInvoice(db, inv, e)
       case Ok(db') => db'
       case Err(_) => db)
    case WriteSaga(s) => PutSaga(db, s)
  }

  function SagaWrite(r: SagaVerdict): Transaction {
    match r
    case Ok(s) => WriteSaga(s.(version := s.version + 1))
    case Err(_) => NoWrite
  }

  lemma ClosedTransaction(db: Db, t: Task, e: Event, cfg: Config, clk: Clock) returns (x: Transaction)
    requires e.AuctionClosedV1?
    ensures WellFormed(x) && !x.Finish? && (t.trigger.OnEvent? ==> OwnReason(db, t, x))
    ensures Stamped(t, x, clk) && StepOnAuctionClosed(db, t, e, cfg, clk).db == Commit(db, x, cfg)
  {
    x := NoWrite;
    if t.pc.Begin? && RequiresSettlement(e.outcome) == Some(true) && BuildClosing(e).Ok? {
      var s := Start(BuildClosing(e).value);
      if s.auctionId !in db.sagas { x := WriteSaga(s); }
    } else if t.pc.Issuing? {
      var s := t.pc.snapshot;
      x := Issue(s.invoiceId, s.auctionId, s.winner, s.hammer, s.attempt, clk.now);
    } else if t.pc.CommitIssued? && t.auction in db.sagas {
      x := SagaWrite(InvoiceIssued(db.sagas[t.auction], t.pc.invoice));
    }
  }

  lemma PaidTransaction(db: Db, t: Task, e: Event, cfg: Config, clk: Clock) returns (x: Transaction)
    requires e.InvoicePaidV1?
    ensures WellFormed(x) && !x.Finish? && (t.trigger.OnEvent? ==> OwnReason(db, t, x))
    ensures Stamped(t, x, clk) && StepOnInvoicePaid(db, t, e, clk).db == Commit(db, x, cfg)
  {
    x := NoWrite;
    if t.pc.Confirming? {
      x := Order(t.auction, DoConfirm(clk.now));
    } else if t.pc.CommitPaid? && t.auction in db.sagas {
      x := SagaWrite(PaymentReceived(db.sagas[t.auction], e.invoiceId));
    }
  }

  lemma ExpiredTransaction(db: Db, t: Task, e: Event, cfg: Config, clk: Clock) returns (x: Transaction)
    requires e.InvoiceExpiredV1?
    ensures WellFormed(x) && !x.Finish? && (t.trigger.OnEvent? ==> OwnReason(db, t, x))
    ensures Stamped(t, x, clk) && StepOnInvoiceExpired(db, t, e, cfg, clk).db == Commit(db, x, cfg)
  {
    x := NoWrite;
    if t.pc.Compensating? {
      var award := t.pc.step == StepAwardRunnerUp;
      x := Order(t.auction, if award then DoAward(clk.now) else DoFail(PaymentTimeout, clk.now));
    } else if t.pc.Relisting? {
      x := Replace(t.auction, clk);
    } else if t.pc.CommitStep? && t.auction in db.sagas {
      var reason := if t.pc.step == StepAwardRunnerUp then NoReason else PaymentTimeout;
      x := SagaWrite(ApplyNextStep(db.sagas[t.auction], t.pc.step, reason));
    }
  }

  lemma ReassignedTransaction(db: Db, t: Task, e: Event, cfg: Config, clk: Clock) returns (x: Transaction)
    requires e.WinnerReassignedV1?
    ensures WellFormed(x) && !x.Finish? && (t.trigger.OnEvent? ==> OwnReason(db, t, x))
    ensures Stamped(t, x, clk) && StepOnWinnerReassigned(db, t, e, cfg, clk).db == Commit(db, x, cfg)
  {
    x := NoWrite;
    if t.pc.Issuing? {
      var s := t.pc.snapshot;
      x := Issue(InvoiceFor(t.auction, 2), t.auction, s.runnerUp, s.runnerUpAmount, 2, clk.now);
    } else if t.pc.CommitOffer? && t.auction in db.sagas {
      var price := Money(e.priceMinor, e.currency);
      x := SagaWrite(SecondChanceOffered(db.sagas[t.auction], e.newWinnerId, price, InvoiceFor(t.auction, 2)));
    }
  }

  lemma DeclineTransaction(db: Db, t: Task, actor: Id, cfg: Config, clk: Clock) returns (x: Transaction)
    ensures WellFormed(x) && !PaysInvoice(x) && (t.trigger.OnDecline? ==> OwnReason(db, t, x))
    ensures Stamped(t, x, clk) && StepOnDecline(db, t, actor, cfg, clk).db == Commit(db, x, cfg)
  {
    x := NoWrite;
    if t.pc.Voiding? {
      x := Finish(t.pc.offer, InvoiceDomain.Withdrawal(clk.now));
    } else if t.pc.Compensating? && t.pc.step != StepAwardRunnerUp {
      x := Order(t.auction, DoFail(SecondChanceDeclined, clk.now));
    } else if t.pc.Relisting? {
      x := Replace(t.auction, clk);
    } else if t.pc.CommitStep? && t.auction in db.sagas {
      x := SagaWrite(ApplyNextStep(db.sagas[t.auction], t.pc.step, SecondChanceDeclined));
    }
  }

  lemma TaskTransaction(db: Db, t: Task, cfg: Config, clk: Clock) returns (x: Transaction)
    ensures WellFormed(x) && !PaysInvoice(x) && (t.trigger.OnEvent? ==> !x.Finish?) && OwnReason(db, t, x)
    ensures Stamped(t, x, clk) && TaskStep(db, t, cfg, clk).db == Commit(db, x, cfg)
  {
    match t.trigger
    case OnDecline(actor) => x := DeclineTransaction(db, t, actor, cfg, clk);
    case OnEvent(e) =>
      if e.AuctionClosedV1? { x := ClosedTransaction(db, t, e, cfg, clk); }
      else if e.InvoicePaidV1? { x := PaidTransaction(db, t, e, cfg, clk); }
      else if e.InvoiceExpiredV1? { x := ExpiredTransaction(db, t, e, cfg, clk); }
      else if e.WinnerReassignedV1? { x := ReassignedTransaction(db, t, e, cfg, clk); }
      else { x := NoWrite; }
  }

  lemma NextTransaction(w: World, act: Act, cfg: Config) returns (x: Transaction)
    ensures WellFormed(x) && (PaysInvoice(x) ==> act.PayInvoice?) && Next(w, act, cfg).db == Commit(w.db, x, cfg)
    ensures FailsSale(x) || x.WriteSaga? ==>
      act.Advance? && act.task in w.tasks && OwnReason(w.db, w.tasks[act.task], x)
  {
    x := NoWrite;
    match act
    case ListAuction(a, now) => if Fresh(a) && a.id.Client? && a.relistOf == Nil { x := List(a, now); }
    case Manage(id, c) => if WellTyped(c) && (c.DoBid? || c.DoCancel? || c.DoClose?) { x := Order(id, c); }
    case PayInvoice(id, ref, now) => x := Finish(id, InvoiceDomain.Payment(ref, now));
    case ExpireInvoice(id, now) => x := Finish(id, InvoiceDomain.Expiry(now));
    case Advance(n, clk) =>
      if n in w.tasks && !(w.tasks[n].pc.Acking? && w.tasks[n].trigger.OnEvent?) {
        x := TaskTransaction(w.db, w.tasks[n], cfg, clk);
      }
    case _ =>
  }

  /** A continuation's last act is taken in the world its others lead to. */
  lemma LastAct(acts: seq<Act>, more: seq<Act>, cfg: Config)
    requires more != []
    ensures Reach(acts + more, cfg) == Next(Reach(acts + more[..|more| - 1], cfg), more[|more| - 1], cfg)
  {
    assert (acts + more)[..|acts + more| - 1] == acts + more[..|more| - 1];
  }
}
