/**
  Sagas can be finished. As long as no handler looked too early, an unfinished saga has a
  continuation that ends it exactly if the bills still to be settled fit into int64, and
  no acknowledged event needs to be delivered again for that.
 */
module SagaCompletion {
  import opened Base
  import opened Events
  import InvoiceDomain
  import opened SettlementDomain
  import opened Database
  import opened Saga
  import opened SagaTransactions
  import opened SagaView
  import opened SagaInvariant
  import opened SagaReach
  import opened SagaTheorems
  import opened SagaProgress
  import opened SagaBills

  // ---------- Continuations ----------

  /** Only events that nobody has acknowledged are delivered. */
  ghost predicate NothingRepeated(acts: seq<Act>, more: seq<Act>, cfg: Config) {
    forall i | 0 <= i < |more| && more[i].Deliver? :: more[i].event !in Reach(acts + more[..i], cfg).acked
  }

  lemma Continued(acts: seq<Act>, first: seq<Act>, second: seq<Act>, cfg: Config)
    requires NothingRepeated(acts, first, cfg) && NothingRepeated(acts + first, second, cfg)
    ensures NothingRepeated(acts, first + second, cfg) && acts + (first + second) == acts + first + second
  {
    var more := first + second;
    forall i | 0 <= i < |more| && more[i].Deliver? ensures more[i].event !in Reach(acts + more[..i], cfg).acked {
      if i < |first| {
        assert more[..i] == first[..i];
      } else {
        assert acts + more[..i] == acts + first + second[..i - |first|];
      }
    }
  }

  lemma OneAct(acts: seq<Act>, act: Act, cfg: Config)
    requires act.Deliver? ==> act.event !in Reach(acts, cfg).acked
    ensures Reach(acts + [act], cfg) == Next(Reach(acts, cfg), act, cfg)
    ensures NothingRepeated(acts, [act], cfg)
  {
    assert (acts + [act])[..|acts|] == acts;
    assert acts + [act][..0] == acts;
  }

  // ---------- A run alone is a continuation ----------

  const CLOCK := Clock(1, 1)

  function Clocks(n: nat): (clks: seq<Clock>)
    ensures |clks| == n && forall clk | clk in clks :: clk == CLOCK
  {
    if n == 0 then [] else [CLOCK] + Clocks(n - 1)
  }

  lemma {:induction false} AboveAll(ns: set<nat>) returns (n: nat)
    ensures forall m | m in ns :: m < n
  {
    n := 0;
    if ns != {} {
      var m :| m in ns;
      var rest := AboveAll(ns - {m});
      n := if m < rest then rest else m + 1;
      assert ns == (ns - {m}) + {m};
    }
  }

  /** The handler made its call, and nothing else happened. */
  ghost predicate Moved(w: World, w': World, n: nat, t: Task, r: Stepped) {
    && w'.db == r.db && w'.acked == w.acked && w'.early == w.early
    && n in w'.tasks && w'.tasks[n] == t.(pc := r.pc)
  }

  lemma AdvanceMoves(w: World, n: nat, t: Task, clk: Clock, cfg: Config)
    requires n in w.tasks && w.tasks[n] == t && !Returned(t.pc) && !TooEarly(w.db, t)
    ensures Moved(w, Next(w, Advance(n, clk), cfg), n, t, TaskStep(w.db, t, cfg, clk))
  {
  }

  /** The decide phase is entered once. */
  lemma BegunOnce(acts: seq<Act>, cfg: Config, n: nat, clk: Clock)
    requires var w := Reach(acts, cfg); n in w.tasks && !Returned(w.tasks[n].pc)
    ensures !TaskStep(Reach(acts, cfg).db, Reach(acts, cfg).tasks[n], cfg, clk).pc.Begin?
  {
    var w := Reach(acts, cfg);
    ReachKeepsInv(acts, cfg, false);
    DecidesOnce(w.db, w.tasks[n], cfg, clk, w.early);
  }

  lemma DecidesOnce(db: Db, t: Task, cfg: Config, clk: Clock, early: set<Event>)
    requires TaskInv(t, ViewOf(db, t.auction), early, false) && !Returned(t.pc)
    ensures !TaskStep(db, t, cfg, clk).pc.Begin?
  {
    StepUsesCall(db, t, cfg, clk, early, false);
  }

  lemma OneCall(acts: seq<Act>, cfg: Config, n: nat, t: Task, clk: Clock)
    requires var w := Reach(acts, cfg);
      n in w.tasks && w.tasks[n] == t && !Returned(t.pc) && !TooEarly(w.db, t)
    ensures var w := Reach(acts, cfg); var r := TaskStep(w.db, t, cfg, clk);
      Moved(w, Reach(acts + [Advance(n, clk)], cfg), n, t, r) && !r.pc.Begin?
    ensures NothingRepeated(acts, [Advance(n, clk)], cfg)
  {
    OneAct(acts, Advance(n, clk), cfg);
    AdvanceMoves(Reach(acts, cfg), n, t, clk, cfg);
    BegunOnce(acts, cfg, n, clk);
  }

  /** What a handler does alone it can do next. */
  lemma {:induction false} RunContinues(acts: seq<Act>, cfg: Config, n: nat, t: Task, clks: seq<Clock>)
    returns (more: seq<Act>)
    requires var w := Reach(acts, cfg); n in w.tasks && w.tasks[n] == t && !TooEarly(w.db, t)
    ensures NothingRepeated(acts, more, cfg)
    ensures var w := Reach(acts, cfg);
      Moved(w, Reach(acts + more, cfg), n, t, RunAlone(w.db, t, cfg, clks))
    decreases |clks|
  {
    if Returned(t.pc) || clks == [] {
      more := [];
      assert acts + more == acts && t.(pc := t.pc) == t;
    } else {
      var act := Advance(n, clks[0]);
      var r := TaskStep(Reach(acts, cfg).db, t, cfg, clks[0]);
      OneCall(acts, cfg, n, t, clks[0]);
      var rest := RunContinues(acts + [act], cfg, n, t.(pc := r.pc), clks[1..]);
      Continued(acts, [act], rest, cfg);
      more := [act] + rest;
    }
  }

  lemma ClockIsSane(cfg: Config, n: nat)
    ensures AllSane(Clocks(n), cfg)
  {
  }

  /** A published event that nobody has acknowledged can be handled next. */
  lemma EventContinues(acts: seq<Act>, cfg: Config, e: Event) returns (more: seq<Act>)
    requires var w := Reach(acts, cfg);
      SagaEvent(e) && e in w.db.outbox && e !in w.acked && !TooEarly(w.db, TaskFor(e))
    ensures NothingRepeated(acts, more, cfg)
    ensures var w := Reach(acts, cfg); var w' := Reach(acts + more, cfg);
      w'.db == RunAlone(w.db, TaskFor(e), cfg, Clocks(6)).db && w'.early == w.early
  {
    var n := AboveAll(Reach(acts, cfg).tasks.Keys);
    OneAct(acts, Deliver(n, e), cfg);
    var rest := RunContinues(acts + [Deliver(n, e)], cfg, n, TaskFor(e), Clocks(6));
    Continued(acts, [Deliver(n, e)], rest, cfg);
    more := [Deliver(n, e)] + rest;
  }

  lemma DeclineContinues(acts: seq<Act>, cfg: Config, a: Id, actor: Id) returns (more: seq<Act>)
    ensures NothingRepeated(acts, more, cfg)
    ensures var w := Reach(acts, cfg); var w' := Reach(acts + more, cfg);
      w'.db == RunAlone(w.db, Task(a, OnDecline(actor), Begin), cfg, Clocks(6)).db && w'.early == w.early
  {
    var n := AboveAll(Reach(acts, cfg).tasks.Keys);
    OneAct(acts, RequestDecline(n, a, actor), cfg);
    var rest := RunContinues(acts + [RequestDecline(n, a, actor)], cfg, n, Task(a, OnDecline(actor), Begin), Clocks(6));
    Continued(acts, [RequestDecline(n, a, actor)], rest, cfg);
    more := [RequestDecline(n, a, actor)] + rest;
  }

  // ---------- Nobody but the outside expires an invoice ----------

  ghost predicate ExpiresNothing(db: Db, db': Db) {
    forall k | InvoiceStands(db', k, InvoiceDomain.Expired) :: InvoiceStands(db, k, InvoiceDomain.Expired)
  }

  lemma OnlyFinishExpires(db: Db, x: Transaction, cfg: Config)
    requires !x.Finish?
    ensures ExpiresNothing(db, Commit(db, x, cfg))
  {
  }

  lemma {:induction false} RunExpiresNothing(db: Db, t: Task, cfg: Config, clks: seq<Clock>)
    requires t.trigger.OnEvent?
    ensures ExpiresNothing(db, RunAlone(db, t, cfg, clks).db)
    decreases |clks|
  {
    if !Returned(t.pc) && clks != [] {
      var r := TaskStep(db, t, cfg, clks[0]);
      var x := TaskTransaction(db, t, cfg, clks[0]);
      OnlyFinishExpires(db, x, cfg);
      RunExpiresNothing(r.db, t.(pc := r.pc), cfg, clks[1..]);
    }
  }

  // ---------- Main result ----------

  ghost predicate LookedInTime(w: World, a: Id) {
    forall e | e in w.early && SagaEvent(e) :: e.auctionId != a
  }

  /** The winner's bill fits and, once it has expired on the winner, so does that of a qualified runner-up. */
  predicate BillsFit(db: Db, s: SettlementState, cfg: Config) {
    && InvoiceDomain.BillFits(s.hammer, cfg.terms.basisPoints)
    && (InvoiceStands(db, InvoiceFor(s.auctionId, 1), InvoiceDomain.Expired) && s.runnerUpQualifies ==>
          InvoiceDomain.BillFits(s.runnerUpAmount, cfg.terms.basisPoints))
  }

  ghost predicate Finished(db: Db, a: Id) { a in db.sagas && IsTerminal(db.sagas[a].state) }

  ghost predicate CanFinish(acts: seq<Act>, cfg: Config, a: Id) {
    exists more :: NothingRepeated(acts, more, cfg) && Finished(Reach(acts + more, cfg).db, a)
  }

  /** The saga of a can still be brought to an end. */
  ghost predicate Healthy(acts: seq<Act>, cfg: Config, a: Id) {
    var w := Reach(acts, cfg);
    a in w.db.sagas && LookedInTime(w, a) && BillsFit(w.db, w.db.sagas[a], cfg)
  }

  lemma DriverIsInTime(db: Db, a: Id, e: Event)
    requires ViewInv(a, ViewOf(db, a)) && a in db.sagas && Drives(db.sagas[a], e)
    ensures !TooEarly(db, TaskFor(e))
  {
  }

  lemma DriverIsUnheard(acts: seq<Act>, cfg: Config, a: Id, e: Event)
    requires var w := Reach(acts, cfg); a in w.db.sagas && LookedInTime(w, a) && Drives(w.db.sagas[a], e)
    ensures e !in Reach(acts, cfg).acked
  {
    var w := Reach(acts, cfg);
    ReachKeepsInv(acts, cfg, false);
    assert ViewInv(a, ViewOf(w.db, a));
    if e in w.acked { AckedDriverWasEarly(w, a, e); }
  }

  /** Prices are fixed with the saga's start. */
  lemma FitStays(acts: seq<Act>, more: seq<Act>, cfg: Config, a: Id)
    requires Healthy(acts, cfg, a) && Reach(acts + more, cfg).early == Reach(acts, cfg).early
    requires ExpiresNothing(Reach(acts, cfg).db, Reach(acts + more, cfg).db)
    ensures Healthy(acts + more, cfg, a)
  {
    LaterEvolves(acts, more, cfg);
    assert Evolves(ViewOf(Reach(acts, cfg).db, a), ViewOf(Reach(acts + more, cfg).db, a));
  }

  /** Handling the published driver takes the saga up. */
  lemma DriverContinues(acts: seq<Act>, cfg: Config, a: Id, e: Event) returns (more: seq<Act>)
    requires Healthy(acts, cfg, a)
    requires e in Reach(acts, cfg).db.outbox && Drives(Reach(acts, cfg).db.sagas[a], e)
    ensures NothingRepeated(acts, more, cfg) && Healthy(acts + more, cfg, a)
    ensures Rank(Reach(acts + more, cfg).db.sagas[a].state) > Rank(Reach(acts, cfg).db.sagas[a].state)
  {
    Reached(acts, cfg, a);
    DriverIsInTime(Reach(acts, cfg).db, a, e);
    DriverIsUnheard(acts, cfg, a, e);
    ClockIsSane(cfg, 6);
    DriverAdvances(acts, cfg, a, e, Clocks(6));
    more := EventContinues(acts, cfg, e);
    RunExpiresNothing(Reach(acts, cfg).db, TaskFor(e), cfg, Clocks(6));
    FitStays(acts, more, cfg, a);
  }

  /** A payment publishes the driver that a waiting saga lacks. */
  lemma PaymentContinues(acts: seq<Act>, cfg: Config, a: Id) returns (act: Act, e: Event)
    requires Healthy(acts, cfg, a)
    requires var db := Reach(acts, cfg).db; AwaitsPending(db, db.sagas[a]) && Outstanding(db, db.sagas[a])
    ensures NothingRepeated(acts, [act], cfg) && Healthy(acts + [act], cfg, a)
    ensures var db' := Reach(acts + [act], cfg).db;
      db'.sagas == Reach(acts, cfg).db.sagas && e in db'.outbox && Drives(db'.sagas[a], e)
  {
    var db := Reach(acts, cfg).db;
    var k := db.sagas[a].invoiceId;
    act := PayInvoice(k, "r", 1);
    Reached(acts, cfg, db.invoices[k].auctionId);
    OneAct(acts, act, cfg);
    PendingInvoiceResolves(acts, cfg, a, act);
    FitStays(acts, [act], cfg, a);
    e :| e in Reach(acts + [act], cfg).db.outbox && Drives(Reach(acts + [act], cfg).db.sagas[a], e);
  }

  lemma HealthyIsPayable(acts: seq<Act>, cfg: Config, a: Id)
    requires Healthy(acts, cfg, a)
    ensures var db := Reach(acts, cfg).db; !Unpayable(db, db.sagas[a])
  {
    var db := Reach(acts, cfg).db;
    Reached(acts, cfg, a);
    if AwaitsPending(db, db.sagas[a]) { UnpayableIffOverflowed(acts, cfg, a); }
  }

  /** One round: the saga gets further up. */
  lemma RoundContinues(acts: seq<Act>, cfg: Config, a: Id) returns (more: seq<Act>)
    requires Healthy(acts, cfg, a) && !Finished(Reach(acts, cfg).db, a)
    ensures NothingRepeated(acts, more, cfg)
    ensures
      || Finished(Reach(acts + more, cfg).db, a)
      || (Healthy(acts + more, cfg, a)
          && Rank(Reach(acts + more, cfg).db.sagas[a].state) > Rank(Reach(acts, cfg).db.sagas[a].state))
  {
    var db := Reach(acts, cfg).db;
    var s := db.sagas[a];
    Reached(acts, cfg, a);
    HealthyIsPayable(acts, cfg, a);
    DriverOrOutstanding(db, a);
    if DriverPublished(db, s) {
      var e :| e in db.outbox && Drives(s, e);
      more := DriverContinues(acts, cfg, a, e);
    } else if AwaitsPending(db, s) {
      var act, e := PaymentContinues(acts, cfg, a);
      var rest := DriverContinues(acts + [act], cfg, a, e);
      Continued(acts, [act], rest, cfg);
      more := [act] + rest;
    } else {
      ClockIsSane(cfg, 6);
      VoidedOfferCompletes(acts, cfg, a, Clocks(6));
      more := DeclineContinues(acts, cfg, a, s.runnerUp);
    }
  }

  lemma {:induction false} HealthyCanFinish(acts: seq<Act>, cfg: Config, a: Id) returns (more: seq<Act>)
    requires Healthy(acts, cfg, a)
    ensures NothingRepeated(acts, more, cfg) && Finished(Reach(acts + more, cfg).db, a)
    decreases 4 - Rank(Reach(acts, cfg).db.sagas[a].state)
  {
    if Finished(Reach(acts, cfg).db, a) {
      more := [];
      assert acts + more == acts;
    } else {
      more := RoundContinues(acts, cfg, a);
      if !Finished(Reach(acts + more, cfg).db, a) {
        var rest := HealthyCanFinish(acts + more, cfg, a);
        Continued(acts, more, rest, cfg);
        more := more + rest;
      }
    }
  }

  /** A finished saga had its bills read back: the first, and after its expiry that of a qualified runner-up. */
  lemma FinishedWasRead(a: Id, v: View, v': View)
    requires ViewInv(a, v) && ViewInv(a, v') && Evolves(v, v') && v.saga.Some? && IsTerminal(v'.saga.value.state)
    ensures v'.first.Some? && InvoiceDomain.Readable(v'.first.value) && v'.first.value.hammer == v.saga.value.hammer
    ensures FirstIs(v, InvoiceDomain.Expired) && v.saga.value.runnerUpQualifies ==>
      v'.second.Some? && InvoiceDomain.Readable(v'.second.value)
      && v'.second.value.hammer == v.saga.value.runnerUpAmount
  {
  }

  lemma FinishedFits(acts: seq<Act>, more: seq<Act>, cfg: Config, a: Id)
    requires a in Reach(acts, cfg).db.sagas && Finished(Reach(acts + more, cfg).db, a)
    ensures BillsFit(Reach(acts, cfg).db, Reach(acts, cfg).db.sagas[a], cfg)
  {
    var db, db' := Reach(acts, cfg).db, Reach(acts + more, cfg).db;
    LaterEvolves(acts, more, cfg);
    Reached(acts + more, cfg, a);
    Reached(acts, cfg, a);
    FinishedWasRead(a, ViewOf(db, a), ViewOf(db', a));
    ReadBackIffBillFits(acts + more, cfg, InvoiceFor(a, 1));
    if InvoiceFor(a, 2) in db'.invoices { ReadBackIffBillFits(acts + more, cfg, InvoiceFor(a, 2)); }
  }

  /**
    If no handler looked too early, a saga can still be finished, without repeating an
    acknowledged delivery, exactly if the bills it depends on fit into int64.
   */
  lemma FinishesIffBillsFit(acts: seq<Act>, cfg: Config, a: Id)
    requires a in Reach(acts, cfg).db.sagas && LookedInTime(Reach(acts, cfg), a)
    ensures CanFinish(acts, cfg, a) <==> BillsFit(Reach(acts, cfg).db, Reach(acts, cfg).db.sagas[a], cfg)
  {
    if BillsFit(Reach(acts, cfg).db, Reach(acts, cfg).db.sagas[a], cfg) {
      var more := HealthyCanFinish(acts, cfg, a);
    }
    if CanFinish(acts, cfg, a) {
      var more :| NothingRepeated(acts, more, cfg) && Finished(Reach(acts + more, cfg).db, a);
      FinishedFits(acts, more, cfg, a);
    }
  }
}
