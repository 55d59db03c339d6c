/**
  Bills that overflow. The commission is a wrapping int64 product, so a high enough hammer
  price makes a bill whose row cannot be read back. Which bills do is known from the
  hammer price and the rate; such a bill is never paid, expired or voided, and its sale
  is never settled.
 */
module SagaBills {
  import opened Base
  import opened Events
  import AuctionDomain
  import opened AuctionRuns
  import InvoiceDomain
  import opened InvoiceAggregate
  import opened SettlementDomain
  import Rows
  import opened Database
  import opened Saga
  import opened SagaTransactions
  import opened SagaFacts
  import opened SagaView
  import opened SagaCalls
  import opened SagaInvariant
  import opened SagaReach
  import opened SagaTheorems
  import opened SagaProgress
  import opened SagaLost

  // ---------- Which bills can be read back ----------

  /** Every stored invoice carries what the factory computed at the deployment's rate. */
  ghost predicate BillsInv(db: Db, cfg: Config) {
    forall k | k in db.invoices ::
      Rows.WellBuilt(db.invoices[k]) && InvoiceDomain.BilledAt(db.invoices[k], cfg.terms.basisPoints)
  }

  lemma BillIsWellBuilt(
    id: Id, a: Id, debtor: Id, amount: Money, terms: InvoiceDomain.BillingTerms, attempt: int, now: Time)
    requires amount.Valid() && InvoiceDomain.NewInvoice(id, a, debtor, amount, terms, attempt, now).Ok?
    ensures var i := InvoiceDomain.NewInvoice(id, a, debtor, amount, terms, attempt, now).value.next;
      Rows.WellBuilt(i) && InvoiceDomain.BilledAt(i, terms.basisPoints) && i.id == id
  {
    var product := Wrap64(amount.amount * terms.basisPoints);
    assert Quo(product, 10_000) <= MAX_INT64;
  }

  lemma FinishKeepsBills(db: Db, x: Transaction, cfg: Config)
    requires BillsInv(db, cfg) && x.Finish?
    ensures BillsInv(Commit(db, x, cfg), cfg)
  {
  }

  lemma TransactionKeepsBills(db: Db, x: Transaction, cfg: Config)
    requires BillsInv(db, cfg)
    ensures BillsInv(Commit(db, x, cfg), cfg)
  {
    if x.Finish? {
      FinishKeepsBills(db, x, cfg);
    } else if x.Issue? {
      var r := InvoiceDomain.NewInvoice(x.invoice, x.auction, x.debtor, x.amount, cfg.terms, x.attempt, x.now);
      if x.amount.Valid() && r.Ok? {
        BillIsWellBuilt(x.invoice, x.auction, x.debtor, x.amount, cfg.terms, x.attempt, x.now);
      }
    }
  }

  lemma {:induction false} ReachKeepsBills(acts: seq<Act>, cfg: Config)
    ensures BillsInv(Reach(acts, cfg).db, cfg)
  {
    if acts != [] {
      var front := acts[..|acts| - 1];
      ReachKeepsBills(front, cfg);
      var x := NextTransaction(Reach(front, cfg), acts[|acts| - 1], cfg);
      TransactionKeepsBills(Reach(front, cfg).db, x, cfg);
    }
  }

  /** A stored invoice survives its row exactly if its bill fits into int64 at the deployment's rate. */
  lemma ReadBackIffBillFits(acts: seq<Act>, cfg: Config, k: Id)
    requires k in Reach(acts, cfg).db.invoices
    ensures var i := Reach(acts, cfg).db.invoices[k];
      var fits := InvoiceDomain.BillFits(i.hammer, cfg.terms.basisPoints);
      (Rows.ToDomainInvoice(Rows.ToPgInvoice(i)) == Ok(i) <==> fits) && (InvoiceDomain.Readable(i) <==> fits)
  {
    var i := Reach(acts, cfg).db.invoices[k];
    ReachKeepsBills(acts, cfg);
    InvoiceDomain.ReadableIffBillFits(i, cfg.terms.basisPoints);
    Rows.WellBuiltRoundTrips(i);
  }

  /** The amount the saga is waiting for. */
  function Price(s: SettlementState): Money {
    if s.state == SecondChancePayment then s.runnerUpAmount else s.hammer
  }

  /** An awaited invoice that has not ended can be paid or expired exactly if the saga's price fits. */
  lemma UnpayableIffOverflowed(acts: seq<Act>, cfg: Config, a: Id)
    requires var db := Reach(acts, cfg).db; a in db.sagas && AwaitsPending(db, db.sagas[a])
    ensures var db := Reach(acts, cfg).db;
      Unpayable(db, db.sagas[a]) <==> !InvoiceDomain.BillFits(Price(db.sagas[a]), cfg.terms.basisPoints)
  {
    Reached(acts, cfg, a);
    ReadBackIffBillFits(acts, cfg, Reach(acts, cfg).db.sagas[a].invoiceId);
  }

  /** With clocks in order, a decline fails only where the runner-up's amount overflows. */
  lemma DeclineFailsOnlyOnOverflow(acts: seq<Act>, cfg: Config, n: nat)
    requires SaneRun(acts, cfg)
    requires var w := Reach(acts, cfg); n in w.tasks && w.tasks[n].trigger.OnDecline? && Fails(w.tasks[n].pc)
    ensures var w := Reach(acts, cfg); var a := w.tasks[n].auction;
      && w.tasks[n].pc == Answered(DeclineFailed(UNREADABLE)) && a in w.db.sagas
      && !InvoiceDomain.BillFits(w.db.sagas[a].runnerUpAmount, cfg.terms.basisPoints)
  {
    var w := Reach(acts, cfg);
    EffectsNeverRefused(acts, cfg, n);
    ReachKeepsInv(acts, cfg, true);
    assert TaskInv(w.tasks[n], ViewOf(w.db, w.tasks[n].auction), w.early, true);
    Reached(acts, cfg, w.tasks[n].auction);
    ReadBackIffBillFits(acts, cfg, InvoiceFor(w.tasks[n].auction, 2));
  }

  // ---------- An overflowed bill is for ever ----------

  lemma TransactionLeavesUnreadable(db: Db, x: Transaction, cfg: Config, k: Id)
    requires k in db.invoices && !InvoiceDomain.Readable(db.invoices[k])
    requires RowsKeyed(db)
    ensures var db' := Commit(db, x, cfg); k in db'.invoices && db'.invoices[k] == db.invoices[k]
  {
    if x.Issue? {
      var r := InvoiceDomain.NewInvoice(x.invoice, x.auction, x.debtor, x.amount, cfg.terms, x.attempt, x.now);
      if x.invoice == k && r.Ok? {
        assert Issued(db.invoices, r.value.next);
      }
    }
  }

  lemma UnreadableStep(acts: seq<Act>, act: Act, cfg: Config, k: Id)
    requires var m := Reach(acts, cfg).db.invoices; k in m && !InvoiceDomain.Readable(m[k])
    ensures var m := Next(Reach(acts, cfg), act, cfg).db.invoices; k in m && m[k] == Reach(acts, cfg).db.invoices[k]
  {
    ReachKeepsFacts(acts, cfg);
    var x := NextTransaction(Reach(acts, cfg), act, cfg);
    TransactionLeavesUnreadable(Reach(acts, cfg).db, x, cfg, k);
  }

  lemma {:induction false} UnreadableStays(acts: seq<Act>, more: seq<Act>, cfg: Config, k: Id)
    requires var m := Reach(acts, cfg).db.invoices; k in m && !InvoiceDomain.Readable(m[k])
    ensures var m := Reach(acts + more, cfg).db.invoices; k in m && m[k] == Reach(acts, cfg).db.invoices[k]
  {
    if more == [] {
      assert acts + more == acts;
    } else {
      var front := more[..|more| - 1];
      UnreadableStays(acts, front, cfg, k);
      LastAct(acts, more, cfg);
      UnreadableStep(acts + front, more[|more| - 1], cfg, k);
    }
  }

  /** The sale stays open: no payment, no verdict, no replacement. */
  ghost predicate NeverSettled(db: Db, a: Id) {
    && NonePaid(db, a)
    && a in db.auctions && !db.auctions[a].settled && RelistOf(a) !in db.auctions
    && a in db.sagas && !IsTerminal(db.sagas[a].state)
  }

  lemma UnreadableIsOpen(db: Db, k: Id)
    requires DbInv(db) && k in db.invoices && !InvoiceDomain.Readable(db.invoices[k])
    ensures NeverSettled(db, db.invoices[k].auctionId)
  {
    var a := db.invoices[k].auctionId;
    assert ViewInv(a, ViewOf(db, a));
    assert !SomeonePaid(ViewOf(db, a));
    forall j | IsPaid(db, j) ensures db.invoices[j].auctionId != a {
      assert j == InvoiceFor(db.invoices[j].auctionId, db.invoices[j].attempt);
    }
  }

  /**
    Once a bill overflowed, it stays as it is however the run goes on, and its auction is
    never settled, neither as sold nor as failed, nor relisted.
   */
  lemma OverflowedBillIsForever(acts: seq<Act>, more: seq<Act>, cfg: Config, k: Id)
    requires var m := Reach(acts, cfg).db.invoices;
      k in m && !InvoiceDomain.BillFits(m[k].hammer, cfg.terms.basisPoints)
    ensures var i := Reach(acts, cfg).db.invoices[k]; var db' := Reach(acts + more, cfg).db;
      k in db'.invoices && db'.invoices[k] == i && i.status == InvoiceDomain.Pending && NeverSettled(db', i.auctionId)
  {
    ReadBackIffBillFits(acts, cfg, k);
    UnreadableStays(acts, more, cfg, k);
    Reached(acts + more, cfg, Nil);
    UnreadableIsOpen(Reach(acts + more, cfg).db, k);
    Reached(acts, cfg, Reach(acts, cfg).db.invoices[k].auctionId);
  }

  // ---------- A saga lost to its bill ----------

  const HUGE := Euros(10_000_000_000_000_000)
  const BIG_LISTING := LISTED.(startPrice := HUGE)
  const BIG_BID := AuctionDomain.Bid(Client(10), WINNER, HUGE, 1)
  const BIG_LED := BIG_LISTING.(leadingBid := BIG_BID, bidCount := 1, version := 2)
  const BIG_SOLD := BIG_LED.(status := AuctionDomain.Closed, outcome := AuctionDomain.Sold, version := 3)

  const BIG_LISTED := AuctionListedV1(LOT, SELLER, "t", HUGE.amount, "EUR", 1, 10, 0, 1)
  const BIG_PLACED := BidPlacedV1(LOT, Client(10), WINNER, HUGE.amount, "EUR", 1, false, 10, Nil, 1)
  const BIG_CLOSED := AuctionClosedV1(LOT, SELLER, "sold", WINNER, HUGE.amount, "EUR", Nil, 0, false, 0, 10)
  const BIG_ISSUED := InvoiceIssuedV1(
    InvoiceFor(LOT, 1), LOT, WINNER, HUGE.amount, -844_674_407_370_955, 9_155_325_592_629_045, "EUR", 21, 1, 20)

  const BIG_PARSED := Closing(LOT, WINNER, HUGE, Nil, ZERO_MONEY, false, 0, InvoiceFor(LOT, 1))
  const BIG_SAGA := Start(BIG_PARSED)

  /** The product of 10^16 and 1000 wraps to a negative commission of 844 674 407 370 955. */
  const BIG_BILL := InvoiceDomain.InvoiceState(
    InvoiceFor(LOT, 1), LOT, WINNER, HUGE, Money(-844_674_407_370_955, "EUR"), Euros(9_155_325_592_629_045),
    InvoiceDomain.Pending, 21, 1, "", 1)

  const BIG_AUCTION := Db(map[LOT := BIG_SOLD], map[], map[], [BIG_LISTED, BIG_PLACED, BIG_CLOSED])
  const BIG_STARTED := BIG_AUCTION.(sagas := map[LOT := BIG_SAGA])
  const BIG_BILLED := BIG_STARTED.(invoices := map[InvoiceFor(LOT, 1) := BIG_BILL],
                                   outbox := [BIG_LISTED, BIG_PLACED, BIG_CLOSED, BIG_ISSUED])
  const BIG_WAITING := BIG_BILLED.(sagas := map[LOT := BIG_SAGA.(state := AwaitingPayment, version := 2)])

  const WAITING := World(BIG_WAITING, map[], {BIG_CLOSED}, {})

  lemma BigListing(w: World)
    requires w == NOTHING
    ensures Next(w, ListAuction(BIG_LISTING, 1), CFG)
         == w.(db := Db(map[LOT := BIG_LISTING], map[], map[], [BIG_LISTED]))
  {
    ListingIsFresh();
    EurosAreValid(10_000_000_000_000_000);
    MappedAlone(BIG_LISTING, AuctionDomain.AuctionListed(1));
  }

  lemma BigBid(w: World)
    requires w.db == Db(map[LOT := BIG_LISTING], map[], map[], [BIG_LISTED])
    ensures Next(w, Manage(LOT, DoBid(Client(10), AuctionDomain.Bidder(WINNER, true), HUGE, 1)), CFG)
         == w.(db := Db(map[LOT := BIG_LED], map[], map[], [BIG_LISTED, BIG_PLACED]))
  {
    var next := BIG_LED.(version := 1);
    EurosAreValid(10_000_000_000_000_000);
    MappedAlone(next, AuctionDomain.BidPlaced(BIG_BID, AuctionDomain.NO_BID, 10, false, 1));
    assert AuctionDomain.BidRefusal(BIG_LISTING, Client(10), AuctionDomain.Bidder(WINNER, true), HUGE, 1).None?;
    assert Perform(BIG_LISTING, DoBid(Client(10), AuctionDomain.Bidder(WINNER, true), HUGE, 1)).value.next == next;
  }

  lemma BigClosing(w: World)
    requires w.db == Db(map[LOT := BIG_LED], map[], map[], [BIG_LISTED, BIG_PLACED])
    ensures Next(w, Manage(LOT, DoClose(10)), CFG) == w.(db := BIG_AUCTION)
  {
    MappedAlone(BIG_SOLD.(version := 2), AuctionDomain.AuctionClosed(AuctionDomain.Hammer(BIG_LED), 10));
    assert Perform(BIG_LED, DoClose(10)).value.next == BIG_SOLD.(version := 2);
  }

  lemma BigAuctioned()
    ensures Reachable(NOTHING.(db := BIG_AUCTION))
  {
    assert Reach([], CFG) == NOTHING;
    ReachesNext(NOTHING, ListAuction(BIG_LISTING, 1));
    BigListing(NOTHING);
    var w1 := Next(NOTHING, ListAuction(BIG_LISTING, 1), CFG);
    var bid := Manage(LOT, DoBid(Client(10), AuctionDomain.Bidder(WINNER, true), HUGE, 1));
    ReachesNext(w1, bid);
    BigBid(w1);
    var w2 := Next(w1, bid, CFG);
    ReachesNext(w2, Manage(LOT, DoClose(10)));
    BigClosing(w2);
  }

  lemma BigDecisions()
    ensures var t := TaskFor(BIG_CLOSED);
      && TaskStep(BIG_AUCTION, t, CFG, CLK) == Stepped(BIG_STARTED, Loading(BIG_PARSED))
      && TaskStep(BIG_STARTED, t.(pc := Loading(BIG_PARSED)), CFG, CLK) == Stepped(BIG_STARTED, Issuing(BIG_SAGA))
  {
    EurosAreValid(10_000_000_000_000_000);
    assert BuildClosing(BIG_CLOSED) == Ok(BIG_PARSED);
  }

  lemma BigBilling()
    ensures var t := TaskFor(BIG_CLOSED);
      && TaskStep(BIG_STARTED, t.(pc := Issuing(BIG_SAGA)), CFG, CLK)
         == Stepped(BIG_BILLED, CommitIssued(InvoiceFor(LOT, 1)))
      && TaskStep(BIG_BILLED, t.(pc := CommitIssued(InvoiceFor(LOT, 1))), CFG, CLK) == Stepped(BIG_WAITING, Acking)
  {
    EurosAreValid(10_000_000_000_000_000);
    assert HUGE.MulBasisPoints(1_000) == BIG_BILL.commission;
    assert HUGE.Add(BIG_BILL.commission) == Some(BIG_BILL.total);
    assert InvoiceDomain.NewInvoice(InvoiceFor(LOT, 1), LOT, WINNER, HUGE, CFG.terms, 1, 20)
        == Ok(InvoiceDomain.InvoiceChange(BIG_BILL, InvoiceDomain.InvoiceIssued(BIG_BILL, 20)));
  }

  lemma WaitingReached()
    ensures Reachable(WAITING)
  {
    BigAuctioned();
    var w := NOTHING.(db := BIG_AUCTION);
    var t := TaskFor(BIG_CLOSED);
    Delivers(w, 0, BIG_CLOSED);
    BigDecisions();
    BigBilling();
    Moves(w, 0, t, Stepped(BIG_STARTED, Loading(BIG_PARSED)));
    Moves(w.(db := BIG_STARTED), 0, t.(pc := Loading(BIG_PARSED)), Stepped(BIG_STARTED, Issuing(BIG_SAGA)));
    Moves(w.(db := BIG_STARTED), 0, t.(pc := Issuing(BIG_SAGA)),
          Stepped(BIG_BILLED, CommitIssued(InvoiceFor(LOT, 1))));
    Moves(w.(db := BIG_BILLED), 0, t.(pc := CommitIssued(InvoiceFor(LOT, 1))), Stepped(BIG_WAITING, Acking));
    Acks(w.(db := BIG_WAITING), 0, BIG_CLOSED);
    assert {} + {BIG_CLOSED} == WAITING.acked;
  }

  /**
    The third way to lose a saga, which needs neither a crash nor a race: one bid of 10^16
    minor units at 1000 basis points. The saga waits for a payment that cannot be made,
    with no handler at work and every event acknowledged.
   */
  lemma OverflowedBillIsLost()
    ensures exists acts :: Reach(acts, CFG) == WAITING
    ensures WAITING.db.sagas[LOT].state == AwaitingPayment && !HasMover(WAITING, LOT)
    ensures Unpayable(WAITING.db, WAITING.db.sagas[LOT])
    ensures WAITING.tasks == map[] && forall e | e in WAITING.db.outbox && SagaEvent(e) :: e in WAITING.acked
  {
    WaitingReached();
    assert !Outstanding(BIG_WAITING, BIG_WAITING.sagas[LOT]);
    assert forall e | e in BIG_WAITING.outbox && SagaEvent(e) :: e == BIG_CLOSED;
  }
}
