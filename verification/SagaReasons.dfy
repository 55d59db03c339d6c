/**
  Reasons. A failed sale is told, and a saga given up, for a reason that is true: a
  payment timeout means that the last invoice of the auction expired, a declined second
  chance that the runner-up was billed and has not paid.
 */
module SagaReasons {
  import opened Base
  import opened Events
  import AuctionDomain
  import opened AuctionRuns
  import opened AuctionRules
  import InvoiceDomain
  import opened SettlementDomain
  import opened Database
  import opened Saga
  import opened SagaTransactions
  import opened SagaFacts
  import opened SagaView
  import opened SagaCalls
  import opened SagaInvariant
  import opened SagaReach
  import opened SagaRecords

  /** Why nobody will pay. */
  ghost predicate ReasonTrue(v: View, reason: FailureReason) {
    v.saga.Some? &&
    var qualified := v.saga.value.runnerUpQualifies;
    match reason
    case NoReason => false
    case PaymentTimeout =>
      if qualified then SecondIs(v, InvoiceDomain.Expired) else FirstIs(v, InvoiceDomain.Expired) && v.second.None?
    case SecondChanceDeclined =>
      qualified && (SecondIs(v, InvoiceDomain.Voided) || SecondIs(v, InvoiceDomain.Expired))
  }

  ghost predicate SagaReasonTrue(v: View) {
    v.saga.Some? ==>
      if GivesUp(v.saga.value.state) then ReasonTrue(v, v.saga.value.failureReason)
      else v.saga.value.failureReason == NoReason
  }

  ghost predicate ReasonsTrue(db: Db) {
    && (forall a | a in db.sagas :: SagaReasonTrue(ViewOf(db, a)))
    && (forall e | e in db.outbox && e.SaleFailedV1? :: ReasonTrue(ViewOf(db, e.auctionId), e.reason))
  }

  lemma ReasonStays(a: Id, v: View, v': View, reason: FailureReason)
    requires ViewInv(a, v) && ViewInv(a, v') && Evolves(v, v') && ReasonTrue(v, reason)
    ensures ReasonTrue(v', reason)
  {
  }

  // ---------- Handlers give up for true reasons ----------

  /** A handler that is about to fail the sale, or has done so, knows why. */
  lemma HandlerKnowsWhy(t: Task, v: View, early: set<Event>, sane: bool)
    requires ViewInv(t.auction, v) && TaskInv(t, v, early, sane)
    requires (t.pc.Compensating? || t.pc.CommitStep?) && t.pc.step != StepAwardRunnerUp
    ensures ReasonTrue(v, ReasonOf(t))
  {
    match t.trigger
    case OnDecline(actor) =>
    case OnEvent(e) => assert EventPart(t.auction, v, e);
  }

  // ---------- Transactions ----------

  lemma CommandFails(x: AuctionDomain.AuctionState, c: Command)
    requires Perform(x, c).Ok?
    ensures var change := Perform(x, c).value;
      forall e | e in MapDomainEvents(change.next, change.events) && e.SaleFailedV1? ::
        c.DoFail? && e.auctionId == x.id && e.reason == c.reason
  {
    CommandTells(x, c);
  }

  lemma ReplaceFailsNothing(db: Db, a: Id, cfg: Config, clk: Clock)
    ensures forall e | e in RelistEffect(db, a, cfg, clk).db.outbox && e.SaleFailedV1? :: e in db.outbox
  {
    var db' := RelistEffect(db, a, cfg, clk).db;
    if db' != db {
      RelistUnfolds(db, a, cfg, clk);
      ReplacementOffersTheSame(db.auctions[a], RelistOf(a), NextWindow(cfg, clk), clk.later);
    }
  }

  /** A failure is published by the command that failed the sale, for its reason. */
  lemma FailureTold(db: Db, x: Transaction, cfg: Config, e: Event)
    requires RowsKeyed(db) && e in Commit(db, x, cfg).outbox && e.SaleFailedV1? && e !in db.outbox
    ensures FailsSale(x) && e.auctionId == x.auction && e.reason == x.command.reason
  {
    if x.Order? {
      CommandFails(db.auctions[x.auction], x.command);
    } else if x.List? {
      MappedAlone(x.listing, AuctionDomain.AuctionListed(x.now));
    } else if x.Replace? {
      ReplaceFailsNothing(db, x.auction, cfg, x.clk);
    }
  }

  lemma SagasWritten(db: Db, x: Transaction, cfg: Config, a: Id)
    requires a in Commit(db, x, cfg).sagas
    ensures (a in db.sagas && Commit(db, x, cfg).sagas[a] == db.sagas[a])
         || (x.WriteSaga? && x.saga.auctionId == a && Commit(db, x, cfg).sagas[a] == x.saga)
  {
  }

  // ---------- One step ----------

  lemma FailureStep(w: World, act: Act, cfg: Config, e: Event)
    requires WorldInv(w, false) && WorldInv(Next(w, act, cfg), false) && DbKept(w.db, Next(w, act, cfg).db)
    requires RowsKeyed(w.db) && ReasonsTrue(w.db) && e in Next(w, act, cfg).db.outbox && e.SaleFailedV1?
    ensures ReasonTrue(ViewOf(Next(w, act, cfg).db, e.auctionId), e.reason)
  {
    var db, db', a := w.db, Next(w, act, cfg).db, e.auctionId;
    assert ViewInv(a, ViewOf(db, a)) && ViewInv(a, ViewOf(db', a));
    if e !in db.outbox {
      var x := NextTransaction(w, act, cfg);
      FailureTold(db, x, cfg, e);
      HandlerKnowsWhy(w.tasks[act.task], ViewOf(db, a), w.early, false);
    }
    ReasonStays(a, ViewOf(db, a), ViewOf(db', a), e.reason);
  }

  lemma SagaStep(w: World, act: Act, cfg: Config, a: Id)
    requires WorldInv(w, false) && WorldInv(Next(w, act, cfg), false) && DbKept(w.db, Next(w, act, cfg).db)
    requires ReasonsTrue(w.db) && a in Next(w, act, cfg).db.sagas
    ensures SagaReasonTrue(ViewOf(Next(w, act, cfg).db, a))
  {
    var db, db' := w.db, Next(w, act, cfg).db;
    assert ViewInv(a, ViewOf(db, a)) && ViewInv(a, ViewOf(db', a));
    var x := NextTransaction(w, act, cfg);
    SagasWritten(db, x, cfg, a);
    if a in db.sagas && db'.sagas[a] == db.sagas[a] {
      if GivesUp(db.sagas[a].state) { ReasonStays(a, ViewOf(db, a), ViewOf(db', a), db.sagas[a].failureReason); }
    } else {
      SagaWritten(db, db', w.tasks[act.task], w.early, a, x);
    }
  }

  lemma WriterKnowsWhy(t: Task, v: View, v': View, early: set<Event>)
    requires ViewInv(t.auction, v) && ViewInv(t.auction, v') && Evolves(v, v') && SagaReasonTrue(v)
    requires TaskInv(t, v, early, false) && v.saga.Some? && v'.saga.Some?
    requires var s := v'.saga.value;
      if GivesUp(s.state)
      then t.pc.CommitStep? && t.pc.step != StepAwardRunnerUp && s.failureReason == ReasonOf(t)
      else s.failureReason == v.saga.value.failureReason && !GivesUp(v.saga.value.state)
    ensures SagaReasonTrue(v')
  {
    if GivesUp(v'.saga.value.state) {
      HandlerKnowsWhy(t, v, early, false);
      ReasonStays(t.auction, v, v', ReasonOf(t));
    }
  }

  /** A saga once given up stays given up. */
  lemma GivenUpStays(v: View, v': View)
    requires Evolves(v, v') && v.saga.Some? && v'.saga.Some? && GivesUp(v.saga.value.state)
    ensures GivesUp(v'.saga.value.state)
  {
  }

  /** A handler wrote the saga. */
  lemma SagaWritten(db: Db, db': Db, t: Task, early: set<Event>, a: Id, x: Transaction)
    requires DbInv(db) && DbKept(db, db') && ReasonsTrue(db) && TaskInv(t, ViewOf(db, t.auction), early, false)
    requires x.WriteSaga? && x.saga.auctionId == a && a in db'.sagas && db'.sagas[a] == x.saga && OwnReason(db, t, x)
    ensures SagaReasonTrue(ViewOf(db', a))
  {
    if x.saga.state != Started {
      assert ViewInv(t.auction, ViewOf(db, t.auction));
      assert t.auction == a && ViewInv(a, ViewOf(db', a));
      assert Evolves(ViewOf(db, a), ViewOf(db', a)) && SagaReasonTrue(ViewOf(db, a));
      if GivesUp(db.sagas[a].state) { GivenUpStays(ViewOf(db, a), ViewOf(db', a)); }
      WriterKnowsWhy(t, ViewOf(db, a), ViewOf(db', a), early);
    }
  }

  // ---------- Main result ----------

  /** In every reachable state, each told failure and each given-up saga has a true reason. */
  lemma {:induction false} ReasonsAreTrue(acts: seq<Act>, cfg: Config)
    ensures ReasonsTrue(Reach(acts, cfg).db)
  {
    if acts != [] {
      var front, act := acts[..|acts| - 1], acts[|acts| - 1];
      var w := Reach(front, cfg);
      ReasonsAreTrue(front, cfg);
      ReachKeepsInv(front, cfg, false);
      ReachKeepsInv(acts, cfg, false);
      NextKeepsInv(w, act, cfg, false);
      ReachIsValid(front, cfg);
      forall a | a in Reach(acts, cfg).db.sagas ensures SagaReasonTrue(ViewOf(Reach(acts, cfg).db, a)) {
        SagaStep(w, act, cfg, a);
      }
      forall e | e in Reach(acts, cfg).db.outbox && e.SaleFailedV1?
        ensures ReasonTrue(ViewOf(Reach(acts, cfg).db, e.auctionId), e.reason)
      {
        FailureStep(w, act, cfg, e);
      }
    }
  }

  /** The runner-up's refusal is not told as a timeout. */
  lemma WithdrawnMeansDeclined(acts: seq<Act>, cfg: Config, e: Event)
    requires var db := Reach(acts, cfg).db;
      e in db.outbox && e.SaleFailedV1? && SecondIs(ViewOf(db, e.auctionId), InvoiceDomain.Voided)
    ensures e.reason == SecondChanceDeclined
  {
    ReasonsAreTrue(acts, cfg);
  }
}
