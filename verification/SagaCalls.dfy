/**
  What each call of a handler, or of the outside world, does to the whole database:
  every slice keeps its invariant, nothing goes back, and the call is not refused.
 */
module SagaCalls {
  import opened Base
  import opened Events
  import AuctionDomain
  import opened AuctionRuns
  import InvoiceDomain
  import opened InvoiceAggregate
  import opened SettlementDomain
  import opened Database
  import opened Saga
  import opened SagaView
  import opened SagaEffects

  /** Invoices are stored under the identity derived from auction and attempt. */
  ghost predicate InvoicesKeyed(db: Db) {
    forall k | k in db.invoices ::
      var i := db.invoices[k];
      k == i.id == InvoiceFor(i.auctionId, i.attempt) && i.attempt in {1, 2}
  }

  ghost predicate DbInv(db: Db) {
    && InvoicesKeyed(db)
    && forall a {:trigger ViewInv(a, ViewOf(db, a))} :: ViewInv(a, ViewOf(db, a))
  }

  ghost predicate DbKept(db: Db, db': Db) {
    DbInv(db') && forall a :: Evolves(ViewOf(db, a), ViewOf(db', a))
  }

  lemma NothingChanged(db: Db)
    requires DbInv(db)
    ensures DbKept(db, db)
  {
    forall a ensures Evolves(ViewOf(db, a), ViewOf(db, a)) {
      assert ViewInv(a, ViewOf(db, a));
    }
  }

  lemma OneSlice(db: Db, db': Db, a: Id)
    requires DbInv(db) && InvoicesKeyed(db')
    requires forall b | b != a :: ViewOf(db', b) == ViewOf(db, b)
    requires Kept(a, ViewOf(db, a), ViewOf(db', a))
    ensures DbKept(db, db')
  {
    NothingChanged(db);
    forall b ensures ViewInv(b, ViewOf(db', b)) && Evolves(ViewOf(db, b), ViewOf(db', b)) {
      if b != a {
        assert ViewInv(b, ViewOf(db, b));
      }
    }
  }

  // ---------- The auction context ----------

  /** Rewriting a stored auction changes its own slice and no other. */
  lemma RewriteViews(db: Db, x: AuctionDomain.AuctionState, es: seq<Event>, emitted: set<Event>, b: Id)
    requires x.id in db.auctions && forall e | e in es && SagaEvent(e) :: e.auctionId == x.id
    requires EventsOf(es, b) == if b == x.id then emitted else {}
    ensures ViewOf(PutAuction(db, x, es), b) == (
      var v := ViewOf(db, b);
      if b == x.id then v.(auction := Some(x), events := v.events + emitted) else v)
  {
    PutAuctionViews(db, x, es, b);
  }

  lemma CommandViews(db: Db, id: Id, c: Command, b: Id)
    requires id in db.auctions && db.auctions[id].id == id && Perform(db.auctions[id], c).Ok?
    ensures UpdateAuction(db, id, c).Ok?
    ensures ViewOf(UpdateAuction(db, id, c).value, b) ==
      if b == id then AfterCommand(ViewOf(db, id), db.auctions[id], c) else ViewOf(db, b)
  {
    var change := Perform(db.auctions[id], c).value;
    var es := MapDomainEvents(change.next, change.events);
    var stored := change.next.(version := change.next.version + 1);
    CommandKeepsId(db.auctions[id], c);
    EmittedByCommand(db.auctions[id], c, b);
    RewriteViews(db, stored, es, Emitted(db.auctions[id], c), b);
    assert UpdateAuction(db, id, c).value == PutAuction(db, stored, es);
  }

  lemma CommandCall(db: Db, id: Id, c: Command)
    requires DbInv(db) && id in db.auctions && Perform(db.auctions[id], c).Ok?
    requires var v := ViewOf(db, id); Kept(id, v, AfterCommand(v, db.auctions[id], c))
    ensures var r := UpdateAuction(db, id, c);
      r.Ok? && DbKept(db, r.value) && ViewOf(r.value, id) == AfterCommand(ViewOf(db, id), db.auctions[id], c)
  {
    assert db.auctions[id].id == id by { assert ViewInv(id, ViewOf(db, id)); }
    forall b
      ensures UpdateAuction(db, id, c).Ok?
      ensures var db' := UpdateAuction(db, id, c).value;
        ViewOf(db', b) == if b == id then AfterCommand(ViewOf(db, id), db.auctions[id], c) else ViewOf(db, b)
    {
      CommandViews(db, id, c, b);
    }
    OneSlice(db, UpdateAuction(db, id, c).value, id);
  }

  /** An idempotent effect: the command succeeds, or its target state is reached already. */
  lemma EffectCall(db: Db, id: Id, c: Command, done: AuctionDomain.AuctionError)
    requires DbInv(db) && id in db.auctions
    requires var x, v := db.auctions[id], ViewOf(db, id);
      if Perform(x, c).Ok?
      then Kept(id, v, AfterCommand(v, x, c))
      else Perform(x, c).error == done
    ensures var r := Idempotent(db, UpdateAuction(db, id, c), done);
      && r.fault == None && DbKept(db, r.db)
      && ViewOf(r.db, id) ==
           if Perform(db.auctions[id], c).Ok? then AfterCommand(ViewOf(db, id), db.auctions[id], c) else ViewOf(db, id)
  {
    NothingChanged(db);
    if Perform(db.auctions[id], c).Ok? {
      CommandCall(db, id, c);
    }
  }

  lemma AwardCall(db: Db, a: Id, now: Time)
    requires DbInv(db)
    requires var v := ViewOf(db, a); v.saga.Some? && v.saga.value.runnerUpQualifies && FirstIs(v, InvoiceDomain.Expired)
    ensures var c := AwardToRunnerUp(db, a, now);
      c.fault == None && DbKept(db, c.db) && Reassigned(ViewOf(c.db, a))
  {
    var v := ViewOf(db, a);
    assert ViewInv(a, v);
    var x := db.auctions[a];
    AwardKeeps(a, v, x, now);
    EffectCall(db, a, DoAward(now), AuctionDomain.ErrWinnerAlreadyReassigned);
  }

  lemma ConfirmCall(db: Db, a: Id, now: Time)
    requires DbInv(db) && ViewOf(db, a).saga.Some? && SomeonePaid(ViewOf(db, a))
    ensures var c := ConfirmSettlement(db, a, now);
      c.fault == None && DbKept(db, c.db) && SoldAndSettled(ViewOf(c.db, a))
  {
    assert ViewInv(a, ViewOf(db, a));
    ConfirmKeeps(a, ViewOf(db, a), db.auctions[a], now);
    EffectCall(db, a, DoConfirm(now), AuctionDomain.ErrAlreadySettled);
  }

  lemma FailCall(db: Db, a: Id, reason: FailureReason, now: Time)
    requires DbInv(db) && DeadSale(ViewOf(db, a)) && reason != NoReason
    ensures var c := MarkSaleFailed(db, a, reason, now);
      c.fault == None && DbKept(db, c.db) && SaleFailed(ViewOf(c.db, a))
  {
    assert ViewInv(a, ViewOf(db, a));
    FailKeeps(a, ViewOf(db, a), db.auctions[a], reason, now);
    EffectCall(db, a, DoFail(reason, now), AuctionDomain.ErrSaleAlreadyFailed);
  }

  /** A new listing has no slice yet; it shows in its original's slice as the replacement. */
  lemma ListingCall(db: Db, x: AuctionDomain.AuctionState, es: seq<Event>)
    requires DbInv(db) && x.id !in db.auctions && Fresh(x)
    requires AuctionPart(x.id, ViewOf(db, x.id).(auction := Some(x)))
    requires forall e | e in es :: !SagaEvent(e)
    requires x.id.RelistOf? ==>
      var v := ViewOf(db, x.id.original);
      SaleFailed(v) && v.saga.Some? && v.saga.value.relistGen == 0
    ensures DbKept(db, PutAuction(db, x, es))
    ensures forall b :: (RelistOf(b) == x.id ==> ViewOf(PutAuction(db, x, es), b) == ViewOf(db, b).(relisted := true))
  {
    NothingChanged(db);
    var db' := PutAuction(db, x, es);
    forall b
      ensures RelistOf(b) == x.id ==> ViewOf(PutAuction(db, x, es), b) == ViewOf(db, b).(relisted := true)
      ensures ViewInv(b, ViewOf(db', b)) && Evolves(ViewOf(db, b), ViewOf(db', b))
    {
      PutAuctionViews(db, x, es, b);
      assert EventsOf(es, b) == {};
      var v := ViewOf(db, b);
      assert v.events + EventsOf(es, b) == v.events;
      assert ViewInv(b, v);
      if b == x.id {
        FreshKeeps(b, v, x);
      } else if RelistOf(b) == x.id {
        RelistKeeps(b, v);
      }
    }
  }

  /** The deployment's clocks agree well enough: relisting does not take longer than the new window. */
  predicate Sane(clk: Clock, cfg: Config) {
    clk.now > ZERO_TIME && clk.later < clk.now + cfg.relistDelay + cfg.relistDuration
  }

  lemma NoOtherReplacement(db: Db, a: Id)
    requires DbInv(db) && a != Nil && RelistOf(a) !in db.auctions
    ensures !ReplacementOf(db, a)
  {
    forall k | k in db.auctions ensures db.auctions[k].relistOf != a {
      assert ViewInv(k, ViewOf(db, k));
    }
  }

  lemma ReplacementCall(db: Db, a: Id, v: AuctionDomain.Change)
    requires DbInv(db) && a != Nil && SaleFailed(ViewOf(db, a))
    requires ViewOf(db, a).saga.Some? && ViewOf(db, a).saga.value.relistGen == 0
    requires Fresh(v.next) && v.next.id == RelistOf(a) && v.next.relistOf == a
    requires forall e | e in MapDomainEvents(v.next, v.events) :: !SagaEvent(e)
    ensures var r := AddAuction(db, v);
      r.Ok? && DbKept(db, r.value) && ViewOf(r.value, a).relisted && SaleFailed(ViewOf(r.value, a))
  {
    if RelistOf(a) in db.auctions {
      NothingChanged(db);
    } else {
      NoOtherReplacement(db, a);
      ListingCall(db, v.next, MapDomainEvents(v.next, v.events));
    }
  }

  /** The window a relist asks for. */
  function NextWindow(cfg: Config, clk: Clock): AuctionDomain.BiddingWindow {
    var startsAt := clk.now + cfg.relistDelay;
    var endsAt := startsAt + cfg.relistDuration;
    AuctionDomain.BiddingWindow(startsAt, endsAt, endsAt)
  }

  lemma ReplacementBuilt(orig: AuctionDomain.AuctionState, cfg: Config, clk: Clock)
    requires Valid(orig) && orig.relistGen == 0
    ensures var v := AuctionDomain.RelistedFrom(orig, RelistOf(orig.id), NextWindow(cfg, clk), clk.later);
      && (v.Err? ==> v.error == AuctionDomain.ErrInvalidBiddingWindow && !Sane(clk, cfg))
      && (v.Err? <==> clk.later >= clk.now + cfg.relistDelay + cfg.relistDuration)
      && (v.Ok? ==>
            && Fresh(v.value.next) && v.value.next.id == RelistOf(orig.id) && v.value.next.relistOf == orig.id
            && forall e | e in MapDomainEvents(v.value.next, v.value.events) :: !SagaEvent(e))
  {
    var v := AuctionDomain.RelistedFrom(orig, RelistOf(orig.id), NextWindow(cfg, clk), clk.later);
    if v.Ok? {
      RelistedEvents(v.value.next, v.value.events);
    }
  }

  lemma RelistUnfolds(db: Db, a: Id, cfg: Config, clk: Clock)
    requires a in db.auctions
    ensures RelistEffect(db, a, cfg, clk) ==
      match AuctionDomain.RelistedFrom(db.auctions[a], RelistOf(a), NextWindow(cfg, clk), clk.later)
      case Err(e) => Called(db, Some(AuctionFault(e)))
      case Ok(v) => Idempotent(db, AddAuction(db, v), AuctionDomain.ErrAlreadyRelisted)
  {
  }

  /** The same offer again, in a window of this start and this length. */
  ghost predicate Replaces(
    x: AuctionDomain.AuctionState, y: AuctionDomain.AuctionState, startsAt: int, length: Duration)
  {
    && SameOffer(x, y) && y.relistOf == x.id && Fresh(y)
    && y.window.startsAt == startsAt && y.window.endsAt == startsAt + length
  }

  /** The saga's relist is never refused for the limit or as a second replacement. */
  lemma RelistCall(db: Db, a: Id, cfg: Config, clk: Clock)
    requires DbInv(db) && SaleFailed(ViewOf(db, a))
    requires ViewOf(db, a).saga.Some? && ViewOf(db, a).saga.value.relistGen == 0
    ensures var c := RelistEffect(db, a, cfg, clk);
      && DbKept(db, c.db)
      && (c.fault.Some? ==> c.fault.value == AuctionFault(AuctionDomain.ErrInvalidBiddingWindow) && !Sane(clk, cfg))
      && (c.fault.Some? <==> clk.later >= clk.now + cfg.relistDelay + cfg.relistDuration)
      && (c.fault.None? ==> ViewOf(c.db, a).relisted && SaleFailed(ViewOf(c.db, a)))
      && (c.fault.None? && RelistOf(a) !in db.auctions ==>
            Replaces(db.auctions[a], c.db.auctions[RelistOf(a)], clk.now + cfg.relistDelay, cfg.relistDuration))
  {
    NothingChanged(db);
    var orig := db.auctions[a];
    assert Valid(orig) && orig.id == a != Nil && orig.relistGen == 0 by { assert ViewInv(a, ViewOf(db, a)); }
    RelistUnfolds(db, a, cfg, clk);
    ReplacementBuilt(orig, cfg, clk);
    var v := AuctionDomain.RelistedFrom(orig, RelistOf(a), NextWindow(cfg, clk), clk.later);
    if v.Ok? {
      ReplacementCall(db, a, v.value);
    }
  }

  lemma RelistedEvents(x: AuctionDomain.AuctionState, es: seq<AuctionDomain.DomainEvent>)
    requires |es| == 2 && es[0].AuctionListed? && es[1].AuctionRelisted?
    ensures forall e | e in MapDomainEvents(x, es) :: !SagaEvent(e)
  {
    assert es[..1][..0] == [];
    assert MapDomainEvents(x, es[..1]) == [] + [MapDomainEvent(x, es[0]).value];
  }

  // ---------- The billing context ----------

  lemma PutFirst(db: Db, i: InvoiceDomain.InvoiceState, es: seq<Event>, a: Id)
    requires DbInv(db) && i.id == InvoiceFor(a, 1) && i.auctionId == a && i.attempt == 1
    requires forall e | e in es && SagaEvent(e) :: e.auctionId == a
    requires var v := ViewOf(db, a); Kept(a, v, v.(first := Some(i), events := v.events + EventsOf(es, a)))
    ensures var db' := PutInvoice(db, i, es);
      DbKept(db, db') && ViewOf(db', a).first == Some(i)
  {
    var db' := PutInvoice(db, i, es);
    forall b ensures b != a ==> ViewOf(db', b) == ViewOf(db, b) {
      PutInvoiceViews(db, i, es, b);
    }
    PutInvoiceViews(db, i, es, a);
    OneSlice(db, db', a);
  }

  lemma PutSecond(db: Db, i: InvoiceDomain.InvoiceState, es: seq<Event>, a: Id)
    requires DbInv(db) && i.id == InvoiceFor(a, 2) && i.auctionId == a && i.attempt == 2
    requires forall e | e in es && SagaEvent(e) :: e.auctionId == a
    requires var v := ViewOf(db, a); Kept(a, v, v.(second := Some(i), events := v.events + EventsOf(es, a)))
    ensures var db' := PutInvoice(db, i, es);
      && DbKept(db, db')
      && ViewOf(db', a) == ViewOf(db, a).(second := Some(i), events := ViewOf(db, a).events + EventsOf(es, a))
  {
    var db' := PutInvoice(db, i, es);
    forall b ensures b != a ==> ViewOf(db', b) == ViewOf(db, b) {
      PutInvoiceViews(db, i, es, b);
    }
    PutInvoiceViews(db, i, es, a);
    OneSlice(db, db', a);
  }

  lemma IssuedMeansThisOne(db: Db, i: InvoiceDomain.InvoiceState)
    requires InvoicesKeyed(db) && i.id == InvoiceFor(i.auctionId, i.attempt)
    ensures Issued(db.invoices, i) <==> i.id in db.invoices
  {
  }

  lemma BillBuilt(a: Id, debtor: Id, amount: Money, attempt: int, cfg: Config, now: Time)
    requires a != Nil && debtor != Nil && amount.Valid() && attempt in {1, 2}
    ensures var v := InvoiceDomain.NewInvoice(InvoiceFor(a, attempt), a, debtor, amount, cfg.terms, attempt, now);
      && (v.Err? ==> v.error == InvoiceDomain.ErrInvalidInvoice && now == ZERO_TIME)
      && (v.Ok? ==>
            && InvoiceIs(v.value.next, a, attempt, amount) && v.value.next.debtor == debtor
            && v.value.next.status == InvoiceDomain.Pending
            && (forall e | e in MapInvoiceEvent(v.value.event) :: !SagaEvent(e))
            && EventsOf(MapInvoiceEvent(v.value.event), a) == {})
  {
  }

  /** Issuing is refused only for want of a clock. */
  lemma IssueFirstCall(db: Db, a: Id, debtor: Id, amount: Money, cfg: Config, now: Time)
    requires DbInv(db)
    requires ViewOf(db, a).saga.Some? && amount == ViewOf(db, a).saga.value.hammer && debtor != Nil
    requires ViewOf(db, a).saga.value.attempt == 1 ==> debtor == ViewOf(db, a).saga.value.winner
    ensures var c := IssueInvoice(db, InvoiceFor(a, 1), a, debtor, amount, 1, cfg, now);
      && DbKept(db, c.db)
      && (c.fault.Some? ==> c.fault.value == BillingFault(InvoiceDomain.ErrInvalidInvoice) && now == ZERO_TIME)
      && (c.fault.None? ==> ViewOf(c.db, a).first.Some?)
  {
    NothingChanged(db);
    var v := ViewOf(db, a);
    assert a != Nil && amount.Valid() by { assert ViewInv(a, v); }
    BillBuilt(a, debtor, amount, 1, cfg, now);
    var r := InvoiceDomain.NewInvoice(InvoiceFor(a, 1), a, debtor, amount, cfg.terms, 1, now);
    if r.Ok? {
      IssuedMeansThisOne(db, r.value.next);
      if !Issued(db.invoices, r.value.next) {
        IssueFirstKeeps(a, v, r.value.next);
        assert v.events + {} == v.events;
        PutFirst(db, r.value.next, MapInvoiceEvent(r.value.event), a);
      }
    }
  }

  lemma IssueSecondCall(db: Db, a: Id, debtor: Id, amount: Money, cfg: Config, now: Time)
    requires DbInv(db)
    requires ViewOf(db, a).saga.Some? && Reassigned(ViewOf(db, a))
    requires amount == ViewOf(db, a).saga.value.runnerUpAmount && debtor == ViewOf(db, a).saga.value.runnerUp
    ensures var c := IssueInvoice(db, InvoiceFor(a, 2), a, debtor, amount, 2, cfg, now);
      && DbKept(db, c.db)
      && (c.fault.Some? ==> c.fault.value == BillingFault(InvoiceDomain.ErrInvalidInvoice) && now == ZERO_TIME)
      && (c.fault.None? ==> ViewOf(c.db, a).second.Some?)
  {
    NothingChanged(db);
    var v := ViewOf(db, a);
    RunnerUpIsBillable(a, v);
    BillBuilt(a, debtor, amount, 2, cfg, now);
    var r := InvoiceDomain.NewInvoice(InvoiceFor(a, 2), a, debtor, amount, cfg.terms, 2, now);
    if r.Ok? {
      IssuedMeansThisOne(db, r.value.next);
      if !Issued(db.invoices, r.value.next) {
        IssueSecondKeeps(a, v, r.value.next);
        assert v.events + {} == v.events;
        PutSecond(db, r.value.next, MapInvoiceEvent(r.value.event), a);
      }
    }
  }

  lemma RunnerUpIsBillable(a: Id, v: View)
    requires ViewInv(a, v) && v.saga.Some? && Reassigned(v)
    ensures a != Nil && v.saga.value.runnerUp != Nil && v.saga.value.runnerUpAmount.Valid()
  {
  }

  /** i moved the stored invoice out of Pending and published what goes with that. */
  ghost predicate Closing(db: Db, i: InvoiceDomain.InvoiceState, es: seq<Event>) {
    && i.id in db.invoices && Closes(Some(db.invoices[i.id]), i)
    && Announces(i.auctionId, i, EventsOf(es, i.auctionId))
    && (forall e | e in es && SagaEvent(e) :: e.auctionId == i.auctionId)
    && (i.status == InvoiceDomain.Voided ==> i.attempt == 2)
  }

  lemma CloseFirstCall(db: Db, i: InvoiceDomain.InvoiceState, es: seq<Event>)
    requires DbInv(db) && Closing(db, i, es) && i.attempt == 1
    ensures DbKept(db, PutInvoice(db, i, es))
  {
    FirstClosesKeeps(i.auctionId, ViewOf(db, i.auctionId), i, EventsOf(es, i.auctionId));
    PutFirst(db, i, es, i.auctionId);
  }

  lemma CloseSecondCall(db: Db, i: InvoiceDomain.InvoiceState, es: seq<Event>)
    requires DbInv(db) && Closing(db, i, es) && i.attempt == 2
    ensures DbKept(db, PutInvoice(db, i, es)) && SecondIs(ViewOf(PutInvoice(db, i, es), i.auctionId), i.status)
  {
    SecondClosesKeeps(i.auctionId, ViewOf(db, i.auctionId), i, EventsOf(es, i.auctionId));
    PutSecond(db, i, es, i.auctionId);
  }

  lemma SoleEvent(es: seq<Event>, a: Id)
    requires |es| == 1 && SagaEvent(es[0]) && es[0].auctionId == a
    ensures EventsOf(es, a) == {es[0]}
  {
  }

  /** Paying or expiring an invoice, whoever does it and whenever. */
  lemma EndCall(db: Db, id: Id, e: InvoiceDomain.Ending)
    requires DbInv(db) && !e.Withdrawal?
    ensures var r := UpdateInvoice(db, id, e); r.Ok? ==> DbKept(db, r.value)
  {
    if UpdateInvoice(db, id, e).Ok? {
      var c := InvoiceDomain.End(db.invoices[id], e).value;
      var stored, es := c.next.(version := c.next.version + 1), MapInvoiceEvent(c.event);
      SoleEvent(es, stored.auctionId);
      if stored.attempt == 1 { CloseFirstCall(db, stored, es); } else { CloseSecondCall(db, stored, es); }
    }
  }

  lemma VoidedIsDead(a: Id, v: View)
    requires ViewInv(a, v) && v.saga.Some?
    requires SecondIs(v, InvoiceDomain.Voided) || SecondIs(v, InvoiceDomain.Expired)
    ensures DeadSale(v)
  {
  }

  /** The second bill was issued, and its row cannot be read back. */
  ghost predicate Unreadable(v: View) { v.second.Some? && !InvoiceDomain.Readable(v.second.value) }

  const UNREADABLE := BillingFault(InvoiceDomain.ErrUnreadableInvoice)

  lemma VoidPendingCall(db: Db, a: Id, now: Time)
    requires DbInv(db) && SecondIs(ViewOf(db, a), InvoiceDomain.Pending) && ViewOf(db, a).saga.Some?
    requires !Unreadable(ViewOf(db, a))
    ensures var c := VoidInvoice(db, InvoiceFor(a, 2), now);
      c.fault == None && DbKept(db, c.db) && DeadSale(ViewOf(c.db, a))
  {
    var i := db.invoices[InvoiceFor(a, 2)];
    var stored := i.(status := InvoiceDomain.Voided, version := i.version + 1);
    assert VoidInvoice(db, InvoiceFor(a, 2), now) == Called(PutInvoice(db, stored, []), None);
    assert Closing(db, stored, []) && i.auctionId == a && i.attempt == 2;
    CloseSecondCall(db, stored, []);
    VoidedIsDead(a, ViewOf(PutInvoice(db, stored, []), a));
  }

  /** Voiding the offer kills the sale, finds it paid, or finds a row that cannot be read. */
  lemma VoidCall(db: Db, a: Id, now: Time)
    requires DbInv(db) && ViewOf(db, a).second.Some? && ViewOf(db, a).saga.Some?
    ensures var c := VoidInvoice(db, InvoiceFor(a, 2), now);
      && DbKept(db, c.db)
      && (c.fault == None ==> DeadSale(ViewOf(c.db, a)))
      && (c.fault.Some? ==>
            || (c.fault.value == SagaFault(ErrOfferAlreadyPaid) && SomeonePaid(ViewOf(c.db, a)))
            || (c.fault.value == UNREADABLE && Unreadable(ViewOf(c.db, a))))
  {
    if SecondIs(ViewOf(db, a), InvoiceDomain.Pending) && !Unreadable(ViewOf(db, a)) {
      VoidPendingCall(db, a, now);
    } else {
      NothingChanged(db);
      if !Unreadable(ViewOf(db, a)) && !SecondIs(ViewOf(db, a), InvoiceDomain.Paid) {
        VoidedIsDead(a, ViewOf(db, a));
      }
    }
  }

  // ---------- The settlement context ----------

  lemma SagaCommitCall(db: Db, a: Id, s: SettlementState)
    requires DbInv(db) && s.auctionId == a && Kept(a, ViewOf(db, a), ViewOf(db, a).(saga := Some(s)))
    ensures DbKept(db, PutSaga(db, s)) && ViewOf(PutSaga(db, s), a) == ViewOf(db, a).(saga := Some(s))
  {
    forall b ensures ViewOf(PutSaga(db, s), b) == if b == a then ViewOf(db, b).(saga := Some(s)) else ViewOf(db, b) {
      PutSagaViews(db, s, b);
    }
    OneSlice(db, PutSaga(db, s), a);
  }

  lemma AddSagaCall(db: Db, e: Event)
    requires DbInv(db) && e.AuctionClosedV1? && e.outcome == "sold" && e in ViewOf(db, e.auctionId).events
    ensures BuildClosing(e).Ok? && BuildClosing(e).value.auctionId == e.auctionId
    ensures var db' := AddSaga(db, Start(BuildClosing(e).value));
      DbKept(db, db') && ViewOf(db', e.auctionId).saga.Some?
  {
    NothingChanged(db);
    var a := e.auctionId;
    assert ViewInv(a, ViewOf(db, a));
    assert EventPart(a, ViewOf(db, a), e);
    if a !in db.sagas {
      StartKeeps(a, ViewOf(db, a), e);
      SagaCommitCall(db, a, Start(BuildClosing(e).value));
    }
  }
}
