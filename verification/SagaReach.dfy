/**
  Every reachable world satisfies the invariant: any interleaving of handlers, payments,
  expiries, declines and crashes, with events delivered repeatedly and in any order.
 */
module SagaReach {
  import opened Base
  import opened Events
  import AuctionDomain
  import opened AuctionRuns
  import InvoiceDomain
  import opened Database
  import opened Saga
  import opened SagaView
  import opened SagaEffects
  import opened SagaCalls
  import opened SagaInvariant
  import opened SagaSteps

  ghost predicate TasksTrue(w: World, sane: bool) {
    forall n | n in w.tasks :: TaskInv(w.tasks[n], ViewOf(w.db, w.tasks[n].auction), w.early, sane)
  }

  ghost predicate AckedTrue(w: World) {
    forall e | e in w.acked :: SagaEvent(e) && Acknowledged(e.auctionId, ViewOf(w.db, e.auctionId), e, w.early)
  }

  ghost predicate EarlyTrue(w: World) {
    forall e | e in w.early :: SagaEvent(e) && e in ViewOf(w.db, e.auctionId).events
  }

  ghost predicate WorldInv(w: World, sane: bool) {
    DbInv(w.db) && TasksTrue(w, sane) && AckedTrue(w) && EarlyTrue(w)
  }

  /** No clock ran so far that a replacement's window was over before it was stored. */
  ghost predicate SaneRun(acts: seq<Act>, cfg: Config) {
    forall act | act in acts && act.Advance? :: Sane(act.clk, cfg)
  }

  /** A transaction that keeps every slice keeps every memory. */
  lemma DatabaseMoves(w: World, db': Db, early': set<Event>, sane: bool)
    requires WorldInv(w, sane) && DbKept(w.db, db') && w.early <= early'
    requires forall e | e in early' - w.early :: SagaEvent(e) && e in ViewOf(db', e.auctionId).events
    ensures WorldInv(w.(db := db', early := early'), sane)
  {
    var w' := w.(db := db', early := early');
    forall n | n in w'.tasks ensures TaskInv(w'.tasks[n], ViewOf(db', w'.tasks[n].auction), early', sane) {
      var a := w.tasks[n].auction;
      assert ViewInv(a, ViewOf(w.db, a)) && ViewInv(a, ViewOf(db', a));
      TaskStays(w.tasks[n], ViewOf(w.db, a), ViewOf(db', a), w.early, early', sane);
    }
    forall e | e in w'.acked ensures Acknowledged(e.auctionId, ViewOf(db', e.auctionId), e, early') {
      HeardStays(e.auctionId, ViewOf(w.db, e.auctionId), ViewOf(db', e.auctionId), e, w.early, early');
    }
    forall e | e in early' ensures SagaEvent(e) && e in ViewOf(db', e.auctionId).events {
      if e in w.early {
        assert Evolves(ViewOf(w.db, e.auctionId), ViewOf(db', e.auctionId));
      }
    }
  }

  lemma StepTaken(w: World, n: nat, r: Stepped, early': set<Event>, sane: bool)
    requires WorldInv(w, sane) && DbKept(w.db, r.db) && n in w.tasks
    requires early' == w.early
             || (w.tasks[n].trigger.OnEvent? && early' == w.early + {w.tasks[n].trigger.event})
    requires TaskInv(w.tasks[n].(pc := r.pc), ViewOf(r.db, w.tasks[n].auction), early', sane)
    ensures WorldInv(w.(db := r.db, early := early', tasks := w.tasks[n := w.tasks[n].(pc := r.pc)]), sane)
  {
    var a := w.tasks[n].auction;
    assert TaskInv(w.tasks[n], ViewOf(w.db, a), w.early, sane);
    assert Evolves(ViewOf(w.db, a), ViewOf(r.db, a));
    DatabaseMoves(w, r.db, early', sane);
    assert TasksTrue(w.(db := r.db, early := early'), sane);
  }

  /** Any step of any handler, a Nacked or answered one standing still. */
  lemma AnyStep(db: Db, t: Task, cfg: Config, clk: Clock, early: set<Event>, sane: bool)
    requires DbInv(db) && TaskInv(t, ViewOf(db, t.auction), early, sane)
    requires (sane ==> Sane(clk, cfg)) && (TooEarly(db, t) ==> t.trigger.event in early)
    requires !(t.pc.Acking? && t.trigger.OnEvent?)
    ensures var r := TaskStep(db, t, cfg, clk);
      DbKept(db, r.db) && TaskInv(t.(pc := r.pc), ViewOf(r.db, t.auction), early, sane)
  {
    match t.trigger {
      case OnDecline(actor) => DeclineStep(db, t, actor, cfg, clk, sane);
      case OnEvent(e) =>
        if t.pc.Nacked? {
          NothingChanged(db);
        } else {
          assert t.pc.Begin? ==> t == TaskFor(e);
          EventStep(db, t, e, cfg, clk, early, sane);
          var r := TaskStep(db, t, cfg, clk);
          assert Evolves(ViewOf(db, t.auction), ViewOf(r.db, t.auction));
        }
    }
  }

  lemma EarlierStays(t: Task, v: View, early: set<Event>, early': set<Event>, sane: bool)
    requires TaskInv(t, v, early, sane) && early <= early'
    ensures TaskInv(t, v, early', sane)
  {
  }

  ghost function EarlyAfter(db: Db, t: Task, early: set<Event>): set<Event> {
    if TooEarly(db, t) then early + {t.trigger.event} else early
  }

  lemma RememberedStep(db: Db, t: Task, cfg: Config, clk: Clock, early: set<Event>, sane: bool)
    requires DbInv(db) && TaskInv(t, ViewOf(db, t.auction), early, sane) && (sane ==> Sane(clk, cfg))
    requires !(t.pc.Acking? && t.trigger.OnEvent?)
    ensures var r := TaskStep(db, t, cfg, clk);
      DbKept(db, r.db) && TaskInv(t.(pc := r.pc), ViewOf(r.db, t.auction), EarlyAfter(db, t, early), sane)
  {
    EarlierStays(t, ViewOf(db, t.auction), early, EarlyAfter(db, t, early), sane);
    AnyStep(db, t, cfg, clk, EarlyAfter(db, t, early), sane);
  }

  lemma HandlerMoves(w: World, n: nat, clk: Clock, cfg: Config, sane: bool)
    requires WorldInv(w, sane) && n in w.tasks && (sane ==> Sane(clk, cfg))
    requires !(w.tasks[n].pc.Acking? && w.tasks[n].trigger.OnEvent?)
    ensures WorldInv(Next(w, Advance(n, clk), cfg), sane) && DbKept(w.db, Next(w, Advance(n, clk), cfg).db)
  {
    var t := w.tasks[n];
    RememberedStep(w.db, t, cfg, clk, w.early, sane);
    StepTaken(w, n, TaskStep(w.db, t, cfg, clk), EarlyAfter(w.db, t, w.early), sane);
  }

  lemma TaskArrives(w: World, n: nat, t: Task, sane: bool)
    requires WorldInv(w, sane) && TaskInv(t, ViewOf(w.db, t.auction), w.early, sane)
    ensures WorldInv(w.(tasks := w.tasks[n := t]), sane)
  {
  }

  lemma TaskLeaves(w: World, n: nat, sane: bool)
    requires WorldInv(w, sane) && n in w.tasks
    ensures WorldInv(w.(tasks := w.tasks - {n}), sane)
  {
  }

  lemma TaskAcks(w: World, n: nat, sane: bool)
    requires WorldInv(w, sane) && n in w.tasks && w.tasks[n].pc.Acking? && w.tasks[n].trigger.OnEvent?
    ensures WorldInv(w.(tasks := w.tasks - {n}, acked := w.acked + {w.tasks[n].trigger.event}), sane)
  {
    assert TaskInv(w.tasks[n], ViewOf(w.db, w.tasks[n].auction), w.early, sane);
    TaskLeaves(w, n, sane);
  }

  lemma ListingArrives(db: Db, x: AuctionDomain.AuctionState, now: Time)
    requires DbInv(db) && Fresh(x) && x.id.Client? && x.relistOf == Nil
    ensures var r := AddAuction(db, AuctionDomain.Change(x, [AuctionDomain.AuctionListed(now)]));
      r.Ok? && DbKept(db, r.value)
  {
    var es := [AuctionDomain.AuctionListed(now)];
    NothingChanged(db);
    if x.id !in db.auctions {
      assert es[..0] == [];
      assert MapDomainEvents(x, es) == [] + [MapDomainEvent(x, es[0]).value];
      ListingCall(db, x, MapDomainEvents(x, es));
    }
  }

  lemma SomeoneManages(db: Db, id: Id, c: Command)
    requires DbInv(db) && WellTyped(c) && (c.DoBid? || c.DoCancel? || c.DoClose?)
    ensures var r := UpdateAuction(db, id, c); r.Ok? ==> DbKept(db, r.value)
  {
    if id in db.auctions && Perform(db.auctions[id], c).Ok? {
      assert ViewInv(id, ViewOf(db, id));
      ManageKeeps(id, ViewOf(db, id), db.auctions[id], c);
      StillListed(id, ViewOf(db, id), db.auctions[id]);
      CommandCall(db, id, c);
    }
  }

  lemma NextKeepsInv(w: World, act: Act, cfg: Config, sane: bool)
    requires WorldInv(w, sane) && (sane && act.Advance? ==> Sane(act.clk, cfg))
    ensures WorldInv(Next(w, act, cfg), sane) && DbKept(w.db, Next(w, act, cfg).db)
  {
    NothingChanged(w.db);
    var w' := Next(w, act, cfg);
    if w' == w {
    } else if act.Advance? {
      if w.tasks[act.task].pc.Acking? && w.tasks[act.task].trigger.OnEvent? {
        TaskAcks(w, act.task, sane);
      } else {
        HandlerMoves(w, act.task, act.clk, cfg, sane);
      }
    } else if act.Deliver? {
      TaskArrives(w, act.task, TaskFor(act.event), sane);
    } else if act.RequestDecline? {
      TaskArrives(w, act.task, Task(act.auction, OnDecline(act.actor), Begin), sane);
    } else if act.Crash? {
      if act.task in w.tasks { TaskLeaves(w, act.task, sane); }
    } else {
      OutsideMoves(w, act, cfg);
      DatabaseMoves(w, w'.db, w.early, sane);
    }
  }

  predicate Outside(act: Act) { act.ListAuction? || act.Manage? || act.PayInvoice? || act.ExpireInvoice? }

  lemma OutsideMoves(w: World, act: Act, cfg: Config)
    requires DbInv(w.db) && Outside(act)
    ensures var w' := Next(w, act, cfg); DbKept(w.db, w'.db) && w' == w.(db := w'.db)
  {
    NothingChanged(w.db);
    match act
    case ListAuction(x, now) =>
      if Fresh(x) && x.id.Client? && x.relistOf == Nil { ListingArrives(w.db, x, now); }
    case Manage(id, c) =>
      if WellTyped(c) && (c.DoBid? || c.DoCancel? || c.DoClose?) { SomeoneManages(w.db, id, c); }
    case PayInvoice(id, ref, now) => EndCall(w.db, id, InvoiceDomain.Payment(ref, now));
    case ExpireInvoice(id, now) => EndCall(w.db, id, InvoiceDomain.Expiry(now));
  }

  lemma {:induction false} ReachKeepsInv(acts: seq<Act>, cfg: Config, sane: bool)
    requires sane ==> SaneRun(acts, cfg)
    ensures WorldInv(Reach(acts, cfg), sane)
  {
    if acts != [] {
      var front := acts[..|acts| - 1];
      ReachKeepsInv(front, cfg, sane);
      NextKeepsInv(Reach(front, cfg), acts[|acts| - 1], cfg, sane);
    }
  }

  lemma NextEvolves(acts: seq<Act>, act: Act, cfg: Config)
    ensures DbKept(Reach(acts, cfg).db, Reach(acts + [act], cfg).db)
  {
    ReachKeepsInv(acts, cfg, false);
    NextKeepsInv(Reach(acts, cfg), act, cfg, false);
    assert (acts + [act])[..|acts|] == acts;
  }

  /** Whatever happens later, nothing goes back. */
  lemma {:induction false} LaterEvolves(acts: seq<Act>, more: seq<Act>, cfg: Config)
    ensures DbKept(Reach(acts, cfg).db, Reach(acts + more, cfg).db)
  {
    ReachKeepsInv(acts, cfg, false);
    NothingChanged(Reach(acts, cfg).db);
    if more == [] {
      assert acts + more == acts;
    } else {
      var front, act := more[..|more| - 1], more[|more| - 1];
      LaterEvolves(acts, front, cfg);
      NextEvolves(acts + front, act, cfg);
      assert acts + more == acts + front + [act];
      EvolvesChain(Reach(acts, cfg).db, Reach(acts + front, cfg).db, Reach(acts + more, cfg).db);
    }
  }

  lemma EvolvesChain(db: Db, db': Db, db'': Db)
    requires DbKept(db, db') && DbKept(db', db'')
    ensures DbKept(db, db'')
  {
    forall a ensures Evolves(ViewOf(db, a), ViewOf(db'', a)) {
      EvolvesFurther(ViewOf(db, a), ViewOf(db', a), ViewOf(db'', a));
    }
  }
}
