/**
  How a saga gets on: commits only move it up, a repeated delivery changes nothing, and
  whatever drives a saga on is still to come unless its handler looked too early or its
  bill cannot be read back.
 */
module SagaProgress {
  import opened Base
  import opened Events
  import InvoiceDomain
  import opened SettlementDomain
  import opened Database
  import opened Saga
  import opened SagaView
  import opened SagaCalls
  import opened SagaInvariant
  import opened SagaSteps
  import opened SagaReach
  import opened SagaFacts
  import opened SagaTheorems

  // ---------- Bounded sagas ----------

  /** Sagas in the database are left alone or moved up by one version. */
  ghost predicate SagasRise(db: Db, db': Db) {
    forall a | a in db.sagas :: a in db'.sagas &&
      (db'.sagas[a] == db.sagas[a]
       || (Rank(db'.sagas[a].state) > Rank(db.sagas[a].state) && db'.sagas[a].version == db.sagas[a].version + 1))
  }

  predicate SagasKeyed(db: Db) {
    forall a | a in db.sagas :: db.sagas[a].auctionId == a
  }

  lemma CommitRises(db: Db, a: Id, verdict: SagaVerdict)
    requires SagasKeyed(db) && a in db.sagas
    requires verdict.Ok? ==>
      && verdict.value.auctionId == a && verdict.value.version == db.sagas[a].version
      && Rank(verdict.value.state) > Rank(db.sagas[a].state)
    ensures SagasRise(db, AfterCommit(db, UpdateSaga(db, verdict)).db)
    ensures SagasRise(db, AfterDeclineCommit(db, UpdateSaga(db, verdict)).db)
  {
  }

  lemma ClosedRises(db: Db, t: Task, e: Event, cfg: Config, clk: Clock)
    requires SagasKeyed(db) && e.AuctionClosedV1?
    ensures SagasRise(db, StepOnAuctionClosed(db, t, e, cfg, clk).db)
  {
    if t.pc.CommitIssued? && t.auction in db.sagas {
      CommitRises(db, t.auction, InvoiceIssued(db.sagas[t.auction], t.pc.invoice));
    }
  }

  lemma PaidRises(db: Db, t: Task, e: Event, clk: Clock)
    requires SagasKeyed(db) && e.InvoicePaidV1?
    ensures SagasRise(db, StepOnInvoicePaid(db, t, e, clk).db)
  {
    if t.pc.CommitPaid? && t.auction in db.sagas {
      CommitRises(db, t.auction, PaymentReceived(db.sagas[t.auction], e.invoiceId));
    }
  }

  lemma StepRises(s: SettlementState, step: NextStep, reason: FailureReason)
    ensures var r := ApplyNextStep(s, step, reason);
      r.Ok? ==> Rank(r.value.state) > Rank(s.state) && r.value.auctionId == s.auctionId && r.value.version == s.version
  {
  }

  lemma ExpiredRises(db: Db, t: Task, e: Event, cfg: Config, clk: Clock)
    requires SagasKeyed(db) && e.InvoiceExpiredV1?
    ensures SagasRise(db, StepOnInvoiceExpired(db, t, e, cfg, clk).db)
  {
    if t.pc.CommitStep? && t.auction in db.sagas {
      var reason := if t.pc.step == StepAwardRunnerUp then NoReason else PaymentTimeout;
      StepRises(db.sagas[t.auction], t.pc.step, reason);
      CommitRises(db, t.auction, ApplyNextStep(db.sagas[t.auction], t.pc.step, reason));
    }
  }

  lemma ReassignedRises(db: Db, t: Task, e: Event, cfg: Config, clk: Clock)
    requires SagasKeyed(db) && e.WinnerReassignedV1?
    ensures SagasRise(db, StepOnWinnerReassigned(db, t, e, cfg, clk).db)
  {
    if t.pc.CommitOffer? && t.auction in db.sagas {
      var price := Money(e.priceMinor, e.currency);
      CommitRises(db, t.auction,
        SecondChanceOffered(db.sagas[t.auction], e.newWinnerId, price, InvoiceFor(t.auction, 2)));
    }
  }

  lemma DeclineEffectsLeaveSagas(db: Db, t: Task, actor: Id, cfg: Config, clk: Clock)
    requires !t.pc.CommitStep?
    ensures StepOnDecline(db, t, actor, cfg, clk).db.sagas == db.sagas
  {
  }

  lemma DeclineRises(db: Db, t: Task, actor: Id, cfg: Config, clk: Clock)
    requires SagasKeyed(db)
    ensures SagasRise(db, StepOnDecline(db, t, actor, cfg, clk).db)
  {
    if !t.pc.CommitStep? {
      DeclineEffectsLeaveSagas(db, t, actor, cfg, clk);
    } else if t.auction in db.sagas {
      StepRises(db.sagas[t.auction], t.pc.step, SecondChanceDeclined);
      CommitRises(db, t.auction, ApplyNextStep(db.sagas[t.auction], t.pc.step, SecondChanceDeclined));
    }
  }

  lemma TaskRises(db: Db, t: Task, cfg: Config, clk: Clock)
    requires SagasKeyed(db)
    ensures SagasRise(db, TaskStep(db, t, cfg, clk).db)
  {
    match t.trigger
    case OnDecline(actor) => DeclineRises(db, t, actor, cfg, clk);
    case OnEvent(e) =>
      if e.AuctionClosedV1? { ClosedRises(db, t, e, cfg, clk); }
      else if e.InvoicePaidV1? { PaidRises(db, t, e, clk); }
      else if e.InvoiceExpiredV1? { ExpiredRises(db, t, e, cfg, clk); }
      else if e.WinnerReassignedV1? { ReassignedRises(db, t, e, cfg, clk); }
  }

  /**
    A step of the system leaves a saga alone or moves it up the order
    Started < AwaitingPayment < AwardingRunnerUp < SecondChancePayment < terminal, so no
    saga is ever written more than four times after its start.
   */
  lemma BoundedSaga(acts: seq<Act>, act: Act, cfg: Config, a: Id)
    requires a in Reach(acts, cfg).db.sagas
    ensures var s := Reach(acts, cfg).db.sagas[a]; 1 <= s.version <= 1 + Rank(s.state) <= 5
    ensures SagasRise(Reach(acts, cfg).db, Reach(acts + [act], cfg).db)
  {
    var w := Reach(acts, cfg);
    Reached(acts, cfg, a);
    assert (acts + [act])[..|acts|] == acts;
    assert Reach(acts + [act], cfg) == Next(w, act, cfg);
    assert SagasKeyed(w.db) by {
      forall k | k in w.db.sagas ensures w.db.sagas[k].auctionId == k { Reached(acts, cfg, k); }
    }
    NextRises(w, act, cfg);
  }

  lemma NextRises(w: World, act: Act, cfg: Config)
    requires SagasKeyed(w.db)
    ensures SagasRise(w.db, Next(w, act, cfg).db)
  {
    if act.Advance? && act.task in w.tasks {
      TaskRises(w.db, w.tasks[act.task], cfg, act.clk);
    }
  }

  // ---------- Repeated deliveries ----------

  /** A look at the event decides on doing nothing. */
  predicate NothingToDo(db: Db, e: Event)
    requires SagaEvent(e)
  {
    if e.AuctionClosedV1? then
      if e.outcome == "sold" then
        && BuildClosing(e).Ok? && BuildClosing(e).value.auctionId == e.auctionId
        && e.auctionId in db.sagas && db.sagas[e.auctionId].state != Started
      else e.outcome == "not_sold"
    else if e.InvoicePaidV1? then DecidePaid(db, e) == Acking
    else if e.InvoiceExpiredV1? then DecideExpired(db, e) == Acking
    else DecideReassigned(db, e) == Acking
  }

  /** The saga's state says that the event did its work. */
  ghost predicate Digested(a: Id, v: View, e: Event) {
    EventPart(a, v, e) && Acknowledged(a, v, e, {})
  }

  lemma ClosingDigested(db: Db, a: Id, e: Event)
    requires e.AuctionClosedV1? && Digested(a, ViewOf(db, a), e)
    ensures NothingToDo(db, e)
  {
  }

  lemma PaymentDigested(db: Db, a: Id, e: Event)
    requires RowsAgree(a, ViewOf(db, a)) && e.InvoicePaidV1? && Digested(a, ViewOf(db, a), e)
    ensures NothingToDo(db, e)
  {
  }

  lemma ExpiryDigested(db: Db, a: Id, e: Event)
    requires RowsAgree(a, ViewOf(db, a)) && e.InvoiceExpiredV1? && Digested(a, ViewOf(db, a), e)
    ensures NothingToDo(db, e)
  {
  }

  lemma AwardDigested(db: Db, a: Id, e: Event)
    requires ViewInv(a, ViewOf(db, a)) && e.WinnerReassignedV1? && Digested(a, ViewOf(db, a), e)
    ensures NothingToDo(db, e)
  {
    RunnerUpIsBillable(a, ViewOf(db, a));
  }

  lemma HeardMeansNothingToDo(db: Db, e: Event)
    requires DbInv(db) && SagaEvent(e) && Acknowledged(e.auctionId, ViewOf(db, e.auctionId), e, {})
    ensures NothingToDo(db, e)
  {
    var a := e.auctionId;
    assert ViewInv(a, ViewOf(db, a));
    assert EventPart(a, ViewOf(db, a), e);
    if e.AuctionClosedV1? { ClosingDigested(db, a, e); }
    else if e.InvoicePaidV1? { PaymentDigested(db, a, e); }
    else if e.InvoiceExpiredV1? { ExpiryDigested(db, a, e); }
    else { AwardDigested(db, a, e); }
  }

  /**
    Delivering an acknowledged event again acknowledges it again and changes no store,
    whatever happened in between, unless its first handler had looked too early.
   */
  lemma RedeliveryIsSilent(acts: seq<Act>, cfg: Config, e: Event, clks: seq<Clock>)
    requires e in Reach(acts, cfg).acked && e !in Reach(acts, cfg).early && |clks| >= 2
    ensures SagaEvent(e)
    ensures RunAlone(Reach(acts, cfg).db, TaskFor(e), cfg, clks) == Stepped(Reach(acts, cfg).db, Acking)
  {
    var w := Reach(acts, cfg);
    ReachKeepsInv(acts, cfg, false);
    assert Acknowledged(e.auctionId, ViewOf(w.db, e.auctionId), e, w.early);
    HeardMeansNothingToDo(w.db, e);
    SilentRun(w.db, e, cfg, clks);
  }

  lemma SilentRun(db: Db, e: Event, cfg: Config, clks: seq<Clock>)
    requires |clks| >= 2 && SagaEvent(e) && NothingToDo(db, e)
    ensures RunAlone(db, TaskFor(e), cfg, clks) == Stepped(db, Acking)
  {
    var r := TaskStep(db, TaskFor(e), cfg, clks[0]);
    assert r.db == db;
    if !Returned(r.pc) {
      var t := TaskFor(e).(pc := r.pc);
      assert TaskStep(db, t, cfg, clks[1]) == Stepped(db, Acking);
      assert RunAlone(db, t, cfg, clks[1..]) == RunAlone(db, t.(pc := Acking), cfg, clks[1..][1..]);
    }
  }

  // ---------- Progress ----------

  /** The events that move a saga out of the state it is in. */
  predicate Drives(s: SettlementState, e: Event) {
    SagaEvent(e) && e.auctionId == s.auctionId &&
    match s.state
    case Started => e.AuctionClosedV1? && e.outcome == "sold"
    case AwaitingPayment => EndsInvoice(e) && e.invoiceId == InvoiceFor(s.auctionId, 1)
    case AwardingRunnerUp => e.WinnerReassignedV1?
    case SecondChancePayment => EndsInvoice(e) && e.invoiceId == InvoiceFor(s.auctionId, 2)
    case _ => false
  }

  predicate InvoiceStands(db: Db, k: Id, st: InvoiceDomain.InvoiceStatus) {
    k in db.invoices && db.invoices[k].status == st
  }

  /** The saga waits for an invoice that has not ended. */
  predicate AwaitsPending(db: Db, s: SettlementState) {
    s.state in {AwaitingPayment, SecondChancePayment} && InvoiceStands(db, s.invoiceId, InvoiceDomain.Pending)
  }

  /** A payment or an expiry is still to come, or a decline broke off after its void. */
  predicate Outstanding(db: Db, s: SettlementState) {
    || (AwaitsPending(db, s) && InvoiceDomain.Readable(db.invoices[s.invoiceId]))
    || (s.state == SecondChancePayment && InvoiceStands(db, s.invoiceId, InvoiceDomain.Voided))
  }

  /** The awaited invoice overflowed: its row cannot be read back, so it never ends. */
  predicate Unpayable(db: Db, s: SettlementState) {
    AwaitsPending(db, s) && !InvoiceDomain.Readable(db.invoices[s.invoiceId])
  }

  ghost predicate DriverPublished(db: Db, s: SettlementState) {
    exists e :: e in db.outbox && Drives(s, e)
  }

  lemma DriverOrOutstanding(db: Db, a: Id)
    requires DbInv(db) && a in db.sagas && !IsTerminal(db.sagas[a].state) && !Unpayable(db, db.sagas[a])
    ensures DriverPublished(db, db.sagas[a]) || Outstanding(db, db.sagas[a])
  {
    var v, s := ViewOf(db, a), db.sagas[a];
    assert ViewInv(a, v);
    match s.state
    case Started =>
      var e :| e in v.events && e.AuctionClosedV1? && e.outcome == "sold";
      assert e in db.outbox && Drives(s, e);
    case AwaitingPayment =>
      if FirstIs(v, InvoiceDomain.Paid) {
        var e :| e in v.events && e.InvoicePaidV1? && e.invoiceId == InvoiceFor(a, 1);
        assert e in db.outbox && Drives(s, e);
      } else if FirstIs(v, InvoiceDomain.Expired) {
        var e :| e in v.events && e.InvoiceExpiredV1? && e.invoiceId == InvoiceFor(a, 1);
        assert e in db.outbox && Drives(s, e);
      }
    case AwardingRunnerUp =>
      var e :| e in v.events && e.WinnerReassignedV1?;
      assert e in db.outbox && Drives(s, e);
    case SecondChancePayment =>
      if SecondIs(v, InvoiceDomain.Paid) {
        var e :| e in v.events && e.InvoicePaidV1? && e.invoiceId == InvoiceFor(a, 2);
        assert e in db.outbox && Drives(s, e);
      } else if SecondIs(v, InvoiceDomain.Expired) {
        var e :| e in v.events && e.InvoiceExpiredV1? && e.invoiceId == InvoiceFor(a, 2);
        assert e in db.outbox && Drives(s, e);
      }
  }

  lemma OneDriver(db: Db, a: Id, e: Event, f: Event)
    requires FactsInv(db) && a in db.sagas && e in db.outbox && f in db.outbox
    requires Drives(db.sagas[a], e) && Drives(db.sagas[a], f)
    ensures e == f
  {
    var i :| 0 <= i < |db.outbox| && db.outbox[i] == e;
    var j :| 0 <= j < |db.outbox| && db.outbox[j] == f;
    assert Rivals(e, f) && Rivals(f, e);
  }

  /** Someone can still move the saga on: an event nobody has acknowledged, or an outside party. */
  ghost predicate HasMover(w: World, a: Id)
    requires a in w.db.sagas
  {
    || (exists e :: e in w.db.outbox && e !in w.acked && Drives(w.db.sagas[a], e))
    || Outstanding(w.db, w.db.sagas[a])
  }

  /**
    Progress. An unfinished saga has a next mover exactly if the invoice it awaits can be
    read back and its driving event was not acknowledged unheard, which takes a handler
    that looked at it before the saga had committed the state the event belongs to.
   */
  lemma MoverUnlessEarly(acts: seq<Act>, cfg: Config, a: Id)
    requires var w := Reach(acts, cfg); a in w.db.sagas && !IsTerminal(w.db.sagas[a].state)
    ensures var w := Reach(acts, cfg);
      HasMover(w, a) <==>
        !Unpayable(w.db, w.db.sagas[a]) && !exists e :: e in w.early && e in w.acked && Drives(w.db.sagas[a], e)
  {
    var w := Reach(acts, cfg);
    var s := w.db.sagas[a];
    ReachKeepsInv(acts, cfg, false);
    ReachKeepsFacts(acts, cfg);
    assert ViewInv(a, ViewOf(w.db, a));
    if Unpayable(w.db, s) { UnpayableHasNoDriver(w.db, a); } else { DriverOrOutstanding(w.db, a); }
    forall e | e in w.acked && Drives(s, e) ensures e in w.early && e in w.db.outbox && !Outstanding(w.db, s) {
      AckedDriverWasEarly(w, a, e);
    }
    forall e, f | e in w.db.outbox && f in w.db.outbox && Drives(s, e) && Drives(s, f) ensures e == f {
      OneDriver(w.db, a, e, f);
    }
  }

  lemma UnpayableHasNoDriver(db: Db, a: Id)
    requires DbInv(db) && a in db.sagas && Unpayable(db, db.sagas[a])
    ensures !DriverPublished(db, db.sagas[a]) && !Outstanding(db, db.sagas[a])
  {
    assert ViewInv(a, ViewOf(db, a));
    forall e | e in db.outbox && SagaEvent(e) && e.auctionId == a ensures !Drives(db.sagas[a], e) {
      EventHolds(db, a, e);
    }
  }

  lemma AckedDriverWasEarly(w: World, a: Id, e: Event)
    requires WorldInv(w, false) && a in w.db.sagas && e in w.acked && Drives(w.db.sagas[a], e)
    ensures e in w.early && e in w.db.outbox && !Outstanding(w.db, w.db.sagas[a])
  {
    assert ViewInv(a, ViewOf(w.db, a));
    assert Acknowledged(a, ViewOf(w.db, a), e, w.early);
    assert EventPart(a, ViewOf(w.db, a), e);
  }

  // ---------- A mover's run ----------

  ghost predicate AllSane(clks: seq<Clock>, cfg: Config) {
    forall clk | clk in clks :: Sane(clk, cfg)
  }

  lemma ClosedUsesCall(db: Db, t: Task, e: Event, cfg: Config, clk: Clock)
    requires e.AuctionClosedV1? && (t.pc.Begin? || t.pc.Loading? || t.pc.Issuing? || t.pc.CommitIssued?)
    ensures CallsLeft(StepOnAuctionClosed(db, t, e, cfg, clk).pc) < CallsLeft(t.pc)
  {
  }

  lemma PaidUsesCall(db: Db, t: Task, e: Event, clk: Clock)
    requires e.InvoicePaidV1? && (t.pc.Begin? || t.pc.Confirming? || t.pc.CommitPaid?)
    ensures CallsLeft(StepOnInvoicePaid(db, t, e, clk).pc) < CallsLeft(t.pc)
  {
  }

  lemma ExpiredUsesCall(db: Db, t: Task, e: Event, cfg: Config, clk: Clock)
    requires e.InvoiceExpiredV1? && (t.pc.Begin? || t.pc.Compensating? || t.pc.Relisting? || t.pc.CommitStep?)
    ensures CallsLeft(StepOnInvoiceExpired(db, t, e, cfg, clk).pc) < CallsLeft(t.pc)
  {
  }

  lemma ReassignedUsesCall(db: Db, t: Task, e: Event, cfg: Config, clk: Clock)
    requires e.WinnerReassignedV1? && (t.pc.Begin? || t.pc.Issuing? || t.pc.CommitOffer?)
    ensures CallsLeft(StepOnWinnerReassigned(db, t, e, cfg, clk).pc) < CallsLeft(t.pc)
  {
  }

  lemma DeclineUsesCall(db: Db, t: Task, actor: Id, cfg: Config, clk: Clock)
    requires t.pc.Begin? || t.pc.Voiding? || t.pc.Compensating? || t.pc.Relisting? || t.pc.CommitStep?
             || t.pc.Rereading?
    ensures CallsLeft(StepOnDecline(db, t, actor, cfg, clk).pc) < CallsLeft(t.pc)
  {
  }

  /** Every step is a call the handler had left. */
  lemma StepUsesCall(db: Db, t: Task, cfg: Config, clk: Clock, early: set<Event>, sane: bool)
    requires TaskInv(t, ViewOf(db, t.auction), early, sane) && !Returned(t.pc)
    ensures CallsLeft(TaskStep(db, t, cfg, clk).pc) < CallsLeft(t.pc)
  {
    match t.trigger
    case OnDecline(actor) => DeclineUsesCall(db, t, actor, cfg, clk);
    case OnEvent(e) =>
      if e.AuctionClosedV1? { ClosedUsesCall(db, t, e, cfg, clk); }
      else if e.InvoicePaidV1? { PaidUsesCall(db, t, e, clk); }
      else if e.InvoiceExpiredV1? { ExpiredUsesCall(db, t, e, cfg, clk); }
      else { ReassignedUsesCall(db, t, e, cfg, clk); }
  }

  /** A handler alone returns, and what it leaves behind is true. */
  lemma {:induction false} RunReturns(db: Db, t: Task, cfg: Config, clks: seq<Clock>, early: set<Event>)
    requires DbInv(db) && TaskInv(t, ViewOf(db, t.auction), early, true)
    requires AllSane(clks, cfg) && |clks| >= CallsLeft(t.pc)
    requires TooEarly(db, t) ==> t.trigger.event in early
    ensures var r := RunAlone(db, t, cfg, clks);
      Returned(r.pc) && DbKept(db, r.db) && TaskInv(t.(pc := r.pc), ViewOf(r.db, t.auction), early, true)
    decreases |clks|
  {
    if Returned(t.pc) {
      NothingChanged(db);
    } else {
      var r := TaskStep(db, t, cfg, clks[0]);
      StepUsesCall(db, t, cfg, clks[0], early, true);
      AnyStep(db, t, cfg, clks[0], early, true);
      RunReturns(r.db, t.(pc := r.pc), cfg, clks[1..], early);
      EvolvesChain(db, r.db, RunAlone(db, t, cfg, clks).db);
    }
  }

  /** What an event achieves lies beyond the state it drives. */
  lemma HeardIsFurther(a: Id, v: View, v': View, e: Event)
    requires v.saga.Some? && v.saga.value.auctionId == a && Evolves(v, v') && Drives(v.saga.value, e)
    requires EventPart(a, v, e) && Acknowledged(a, v', e, {})
    ensures Rank(v'.saga.value.state) > Rank(v.saga.value.state)
  {
  }

  /**
    The mover moves. Handling a driving event alone, without a crash, acknowledges it and
    takes the saga strictly further up.
   */
  lemma DriverAdvances(acts: seq<Act>, cfg: Config, a: Id, e: Event, clks: seq<Clock>)
    requires var db := Reach(acts, cfg).db; a in db.sagas && e in db.outbox && Drives(db.sagas[a], e)
    requires AllSane(clks, cfg) && |clks| >= CallsLeft(Begin)
    ensures var db := Reach(acts, cfg).db; var r := RunAlone(db, TaskFor(e), cfg, clks);
      r.pc == Acking && a in r.db.sagas && Rank(r.db.sagas[a].state) > Rank(db.sagas[a].state)
  {
    Reached(acts, cfg, a);
    DriverRun(Reach(acts, cfg).db, a, e, cfg, clks);
  }

  lemma DriverRun(db: Db, a: Id, e: Event, cfg: Config, clks: seq<Clock>)
    requires DbInv(db) && a in db.sagas && e in db.outbox && Drives(db.sagas[a], e) && db.sagas[a].auctionId == a
    requires AllSane(clks, cfg) && |clks| >= CallsLeft(Begin)
    ensures var r := RunAlone(db, TaskFor(e), cfg, clks);
      r.pc == Acking && a in r.db.sagas && Rank(r.db.sagas[a].state) > Rank(db.sagas[a].state)
  {
    RunReturns(db, TaskFor(e), cfg, clks, {});
    DriverDone(db, a, e, RunAlone(db, TaskFor(e), cfg, clks));
  }

  lemma DriverDone(db: Db, a: Id, e: Event, r: Stepped)
    requires DbInv(db) && a in db.sagas && e in db.outbox && Drives(db.sagas[a], e) && db.sagas[a].auctionId == a
    requires Returned(r.pc) && DbKept(db, r.db) && TaskInv(TaskFor(e).(pc := r.pc), ViewOf(r.db, a), {}, true)
    ensures r.pc == Acking && a in r.db.sagas && Rank(r.db.sagas[a].state) > Rank(db.sagas[a].state)
  {
    EventHolds(db, a, e);
    assert Evolves(ViewOf(db, a), ViewOf(r.db, a));
    HeardIsFurther(a, ViewOf(db, a), ViewOf(r.db, a), e);
  }

  /** A payment with a reference, or an expiry that is due. */
  predicate Ends(act: Act, i: InvoiceDomain.InvoiceState) {
    match act
    case PayInvoice(id, ref, _) => id == i.id && ref != InvoiceDomain.NO_REFERENCE
    case ExpireInvoice(id, now) => id == i.id && now >= i.dueAt
    case _ => false
  }

  /** A payment or an expiry of the awaited invoice goes through and publishes a driver. */
  lemma PendingInvoiceResolves(acts: seq<Act>, cfg: Config, a: Id, act: Act)
    requires var db := Reach(acts, cfg).db;
      a in db.sagas && Outstanding(db, db.sagas[a]) && Ends(act, db.invoices[db.sagas[a].invoiceId])
      && db.invoices[db.sagas[a].invoiceId].status == InvoiceDomain.Pending
    ensures var db' := Reach(acts + [act], cfg).db;
      db'.sagas == Reach(acts, cfg).db.sagas && DriverPublished(db', db'.sagas[a])
  {
    Reached(acts, cfg, a);
    assert (acts + [act])[..|acts|] == acts;
    EndsPublish(Reach(acts, cfg), a, act, cfg);
  }

  lemma EndsPublish(w: World, a: Id, act: Act, cfg: Config)
    requires ViewInv(a, ViewOf(w.db, a)) && a in w.db.sagas && Outstanding(w.db, w.db.sagas[a])
    requires var k := w.db.sagas[a].invoiceId;
      InvoiceStands(w.db, k, InvoiceDomain.Pending) && Ends(act, w.db.invoices[k])
    ensures var db' := Next(w, act, cfg).db; db'.sagas == w.db.sagas && DriverPublished(db', db'.sagas[a])
  {
    var s := w.db.sagas[a];
    var i := w.db.invoices[s.invoiceId];
    assert i.id == s.invoiceId == InvoiceFor(a, s.attempt) && i.auctionId == s.auctionId == a;
    assert s.attempt == (if s.state == AwaitingPayment then 1 else 2);
    EndPublished(w.db, s, EndingBy(act));
  }

  function EndingBy(act: Act): InvoiceDomain.Ending
    requires act.PayInvoice? || act.ExpireInvoice?
  {
    if act.PayInvoice? then InvoiceDomain.Payment(act.ref, act.now) else InvoiceDomain.Expiry(act.now)
  }

  lemma EndPublished(db: Db, s: SettlementState, e: InvoiceDomain.Ending)
    requires s.invoiceId == InvoiceFor(s.auctionId, if s.state == AwaitingPayment then 1 else 2)
    requires s.invoiceId in db.invoices && Outstanding(db, s) && !e.Withdrawal?
    requires var i := db.invoices[s.invoiceId];
      i.id == s.invoiceId && i.auctionId == s.auctionId && InvoiceDomain.End(i, e).Ok?
    ensures var r := UpdateInvoice(db, s.invoiceId, e);
      r.Ok? && r.value.sagas == db.sagas && DriverPublished(r.value, s)
  {
    var published := MapInvoiceEvent(InvoiceDomain.End(db.invoices[s.invoiceId], e).value.event)[0];
    var db' := UpdateInvoice(db, s.invoiceId, e).value;
    assert published in db'.outbox && Drives(s, published);
  }

  // ---------- The decline's run ----------

  /** After its decide phase a decline never answers that there was nothing to decline. */
  lemma LateAnswers(db: Db, t: Task, actor: Id, cfg: Config, clk: Clock)
    requires DeclineTask(t.auction, ViewOf(db, t.auction), actor, t.pc, true)
    requires !t.pc.Begin? && !t.pc.Answered?
    ensures var r := StepOnDecline(db, t, actor, cfg, clk);
      r.pc != Answered(NotOfferRecipient) && r.pc != Answered(SettlementNotFound)
  {
  }

  ghost predicate ReadableOffer(v: View) { v.second.Some? && InvoiceDomain.Readable(v.second.value) }

  lemma OfferStaysReadable(db: Db, t: Task, cfg: Config, clk: Clock)
    requires DbInv(db) && TaskInv(t, ViewOf(db, t.auction), {}, true) && t.trigger.OnDecline? && Sane(clk, cfg)
    requires ReadableOffer(ViewOf(db, t.auction))
    ensures ReadableOffer(ViewOf(TaskStep(db, t, cfg, clk).db, t.auction))
  {
    AnyStep(db, t, cfg, clk, {}, true);
    assert Evolves(ViewOf(db, t.auction), ViewOf(TaskStep(db, t, cfg, clk).db, t.auction));
  }

  lemma {:induction false} LateRun(db: Db, t: Task, actor: Id, cfg: Config, clks: seq<Clock>)
    requires DbInv(db) && t.trigger == OnDecline(actor) && TaskInv(t, ViewOf(db, t.auction), {}, true)
    requires AllSane(clks, cfg) && |clks| >= CallsLeft(t.pc)
    requires !t.pc.Begin? && t.pc != Answered(NotOfferRecipient) && t.pc != Answered(SettlementNotFound)
    requires ReadableOffer(ViewOf(db, t.auction))
    ensures var r := RunAlone(db, t, cfg, clks); r.pc == Answered(Declined) || r.pc == Answered(OfferAlreadyPaid)
    decreases |clks|
  {
    if !Returned(t.pc) {
      var r := TaskStep(db, t, cfg, clks[0]);
      OfferStaysReadable(db, t, cfg, clks[0]);
      StepUsesCall(db, t, cfg, clks[0], {}, true);
      AnyStep(db, t, cfg, clks[0], {}, true);
      LateAnswers(db, t, actor, cfg, clks[0]);
      LateRun(r.db, t.(pc := r.pc), actor, cfg, clks[1..]);
    }
  }

  /** A decline that broke off after its void is completed by declining again. */
  lemma VoidedOfferCompletes(acts: seq<Act>, cfg: Config, a: Id, clks: seq<Clock>)
    requires var db := Reach(acts, cfg).db;
      a in db.sagas && db.sagas[a].state == SecondChancePayment
      && InvoiceStands(db, db.sagas[a].invoiceId, InvoiceDomain.Voided)
    requires AllSane(clks, cfg) && |clks| >= CallsLeft(Begin)
    ensures var db := Reach(acts, cfg).db; var actor := db.sagas[a].runnerUp;
      var r := RunAlone(db, Task(a, OnDecline(actor), Begin), cfg, clks);
      r.pc == Answered(Declined) && a in r.db.sagas && r.db.sagas[a].state in {Relisted, FailedUnsold}
  {
    Reached(acts, cfg, a);
    DeclineRun(Reach(acts, cfg).db, a, cfg, clks);
  }

  lemma DeclineStarts(db: Db, a: Id, actor: Id, cfg: Config, clk: Clock)
    requires a in db.sagas && CanRunnerUpDecline(actor, db.sagas[a])
    ensures var r := TaskStep(db, Task(a, OnDecline(actor), Begin), cfg, clk); r.db == db && r.pc.Voiding?
  {
  }

  /** The run of a decline that found the offer open. */
  lemma OpenOfferRun(db: Db, a: Id, actor: Id, cfg: Config, clks: seq<Clock>)
    requires DbInv(db) && a in db.sagas && CanRunnerUpDecline(actor, db.sagas[a]) && ReadableOffer(ViewOf(db, a))
    requires AllSane(clks, cfg) && |clks| >= CallsLeft(Begin)
    ensures var r := RunAlone(db, Task(a, OnDecline(actor), Begin), cfg, clks);
      r.pc == Answered(Declined) || r.pc == Answered(OfferAlreadyPaid)
  {
    var t := Task(a, OnDecline(actor), Begin);
    DeclineStarts(db, a, actor, cfg, clks[0]);
    AnyStep(db, t, cfg, clks[0], {}, true);
    LateRun(db, t.(pc := TaskStep(db, t, cfg, clks[0]).pc), actor, cfg, clks[1..]);
  }

  lemma DeclineRun(db: Db, a: Id, cfg: Config, clks: seq<Clock>)
    requires DbInv(db) && ViewInv(a, ViewOf(db, a)) && a in db.sagas && db.sagas[a].state == SecondChancePayment
    requires SecondIs(ViewOf(db, a), InvoiceDomain.Voided) && AllSane(clks, cfg) && |clks| >= CallsLeft(Begin)
    ensures var r := RunAlone(db, Task(a, OnDecline(db.sagas[a].runnerUp), Begin), cfg, clks);
      r.pc == Answered(Declined) && a in r.db.sagas && r.db.sagas[a].state in {Relisted, FailedUnsold}
  {
    var actor := db.sagas[a].runnerUp;
    assert CanRunnerUpDecline(actor, db.sagas[a]) by { RunnerUpIsBillable(a, ViewOf(db, a)); }
    OpenOfferRun(db, a, actor, cfg, clks);
    RunReturns(db, Task(a, OnDecline(actor), Begin), cfg, clks, {});
    DeclineDone(db, a, actor, RunAlone(db, Task(a, OnDecline(actor), Begin), cfg, clks));
  }

  lemma DeclineDone(db: Db, a: Id, actor: Id, r: Stepped)
    requires DbKept(db, r.db) && TaskInv(Task(a, OnDecline(actor), r.pc), ViewOf(r.db, a), {}, true)
    requires ViewInv(a, ViewOf(db, a)) && a in db.sagas && SecondIs(ViewOf(db, a), InvoiceDomain.Voided)
    requires r.pc == Answered(Declined) || r.pc == Answered(OfferAlreadyPaid)
    ensures r.pc == Answered(Declined) && a in r.db.sagas && r.db.sagas[a].state in {Relisted, FailedUnsold}
  {
    StaysUnpaid(a, ViewOf(db, a), ViewOf(r.db, a));
  }

  lemma StaysUnpaid(a: Id, v: View, v': View)
    requires ViewInv(a, v) && v.saga.Some? && SecondIs(v, InvoiceDomain.Voided) && Evolves(v, v')
    ensures !SomeonePaid(v')
  {
  }
}
