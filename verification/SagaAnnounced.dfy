/**
  Everything that happens is announced: each listing, bid, end of bidding, award,
  replacement and end of a sale, and each invoice with its payment or expiry. Together
  with the facts that nothing is announced twice and that announcements are true, the
  outbox is the exact history of the tables.
 */
module SagaAnnounced {
  import opened Base
  import opened Events
  import AuctionDomain
  import opened AuctionRuns
  import opened AuctionRules
  import InvoiceDomain
  import opened InvoiceAggregate
  import opened Database
  import opened Saga
  import opened SagaTransactions
  import opened SagaFacts
  import opened SagaCalls
  import opened SagaRecords

  // ---------- What has to be announced ----------

  ghost predicate ListingIn(es: seq<Event>, id: Id) {
    exists e :: e in es && e.AuctionListedV1? && e.auctionId == id
  }

  ghost predicate BidIn(es: seq<Event>, id: Id, n: int) {
    exists e :: e in es && e.BidPlacedV1? && e.auctionId == id && e.bidCount == n
  }

  ghost predicate CancellationIn(es: seq<Event>, id: Id) {
    exists e :: e in es && e.AuctionCancelledV1? && e.auctionId == id
  }

  ghost predicate ClosingIn(es: seq<Event>, id: Id) {
    exists e :: e in es && e.AuctionClosedV1? && e.auctionId == id
  }

  ghost predicate AwardIn(es: seq<Event>, id: Id) {
    exists e :: e in es && e.WinnerReassignedV1? && e.auctionId == id
  }

  ghost predicate SaleEndIn(es: seq<Event>, id: Id) {
    exists e :: e in es && EndsSale(e) && e.auctionId == id
  }

  ghost predicate ReplacementIn(es: seq<Event>, id: Id) {
    exists e :: e in es && e.AuctionRelistedV1? && e.newAuctionId == id
  }

  ghost predicate BillIn(es: seq<Event>, id: Id) {
    exists e :: e in es && e.InvoiceIssuedV1? && e.invoiceId == id
  }

  ghost predicate PaymentIn(es: seq<Event>, id: Id) {
    exists e :: e in es && e.InvoicePaidV1? && e.invoiceId == id
  }

  ghost predicate ExpiryIn(es: seq<Event>, id: Id) {
    exists e :: e in es && e.InvoiceExpiredV1? && e.invoiceId == id
  }

  ghost predicate AuctionAnnounced(x: AuctionDomain.AuctionState, es: seq<Event>) {
    && ListingIn(es, x.id)
    && (forall n | 1 <= n <= x.bidCount :: BidIn(es, x.id, n))
    && (x.status == AuctionDomain.Cancelled ==> CancellationIn(es, x.id))
    && (x.status == AuctionDomain.Closed ==> ClosingIn(es, x.id))
    && (x.winnerReassigned ==> AwardIn(es, x.id))
    && (x.settled ==> SaleEndIn(es, x.id))
    && (x.relistOf != Nil ==> ReplacementIn(es, x.id))
  }

  ghost predicate InvoiceAnnounced(i: InvoiceDomain.InvoiceState, es: seq<Event>) {
    && BillIn(es, i.id)
    && (i.status == InvoiceDomain.Paid ==> PaymentIn(es, i.id))
    && (i.status == InvoiceDomain.Expired ==> ExpiryIn(es, i.id))
  }

  ghost predicate AllAnnounced(db: Db) {
    && (forall k | k in db.auctions :: AuctionAnnounced(db.auctions[k], db.outbox))
    && (forall k | k in db.invoices :: InvoiceAnnounced(db.invoices[k], db.outbox))
  }

  // ---------- Transactions ----------

  lemma AuctionStaysAnnounced(x: AuctionDomain.AuctionState, es: seq<Event>, more: seq<Event>)
    requires AuctionAnnounced(x, es)
    ensures AuctionAnnounced(x, es + more)
  {
    assert forall e | e in es :: e in es + more;
    forall n | 1 <= n <= x.bidCount ensures BidIn(es + more, x.id, n) {
      assert BidIn(es, x.id, n);
    }
  }

  lemma InvoiceStaysAnnounced(i: InvoiceDomain.InvoiceState, es: seq<Event>, more: seq<Event>)
    requires InvoiceAnnounced(i, es)
    ensures InvoiceAnnounced(i, es + more)
  {
    assert forall e | e in es :: e in es + more;
  }

  lemma CommandAnnounces(x: AuctionDomain.AuctionState, c: Command, v: int, es: seq<Event>, e: Event)
    requires Perform(x, c).Ok? && Tells(x, c, e) && AuctionAnnounced(x, es)
    ensures AuctionAnnounced(Perform(x, c).value.next.(version := v), es + [e])
  {
    AuctionStaysAnnounced(x, es, [e]);
    assert e in es + [e];
    var y := Perform(x, c).value.next.(version := v);
    forall n | 1 <= n <= y.bidCount ensures BidIn(es + [e], y.id, n) {
      if n <= x.bidCount { assert BidIn(es + [e], x.id, n); }
    }
  }

  lemma OrderTells(db: Db, id: Id, c: Command) returns (y: AuctionDomain.AuctionState, e: Event)
    requires RowsKeyed(db) && AllAnnounced(db) && UpdateAuction(db, id, c).Ok?
    ensures id in db.auctions && y.id == id && UpdateAuction(db, id, c).value == PutAuction(db, y, [e])
    ensures AuctionAnnounced(y, db.outbox + [e])
  {
    var x := db.auctions[id];
    y, e := CommandAnnounced(x, c, db.outbox);
  }

  lemma CommandAnnounced(x: AuctionDomain.AuctionState, c: Command, es: seq<Event>)
    returns (y: AuctionDomain.AuctionState, e: Event)
    requires Perform(x, c).Ok? && AuctionAnnounced(x, es)
    ensures var change := Perform(x, c).value;
      y == change.next.(version := change.next.version + 1) && MapDomainEvents(change.next, change.events) == [e]
    ensures y.id == x.id && AuctionAnnounced(y, es + [e])
  {
    var change := Perform(x, c).value;
    y := change.next.(version := change.next.version + 1);
    CommandTells(x, c);
    e := MapDomainEvents(change.next, change.events)[0];
    CommandAnnounces(x, c, y.version, es, e);
    CommandGoesOn(x, c);
  }

  lemma WriteAnnounced(db: Db, y: AuctionDomain.AuctionState, es: seq<Event>)
    requires AllAnnounced(db) && AuctionAnnounced(y, db.outbox + es)
    ensures AllAnnounced(PutAuction(db, y, es))
  {
    var db' := PutAuction(db, y, es);
    forall k | k in db'.auctions ensures AuctionAnnounced(db'.auctions[k], db'.outbox) {
      if k != y.id { AuctionStaysAnnounced(db.auctions[k], db.outbox, es); }
    }
    forall k | k in db'.invoices ensures InvoiceAnnounced(db'.invoices[k], db'.outbox) {
      InvoiceStaysAnnounced(db.invoices[k], db.outbox, es);
    }
  }

  lemma BillAnnounced(db: Db, i: InvoiceDomain.InvoiceState, es: seq<Event>)
    requires AllAnnounced(db) && InvoiceAnnounced(i, db.outbox + es)
    ensures AllAnnounced(PutInvoice(db, i, es))
  {
    var db' := PutInvoice(db, i, es);
    forall k | k in db'.auctions ensures AuctionAnnounced(db'.auctions[k], db'.outbox) {
      AuctionStaysAnnounced(db.auctions[k], db.outbox, es);
    }
    forall k | k in db'.invoices ensures InvoiceAnnounced(db'.invoices[k], db'.outbox) {
      if k != i.id { InvoiceStaysAnnounced(db.invoices[k], db.outbox, es); }
    }
  }

  lemma ListAnnounces(db: Db, a: AuctionDomain.AuctionState, now: Time)
    requires AllAnnounced(db) && Fresh(a) && a.relistOf == Nil
    ensures var r := AddAuction(db, AuctionDomain.Change(a, [AuctionDomain.AuctionListed(now)]));
      r.Ok? ==> AllAnnounced(r.value)
  {
    MappedAlone(a, AuctionDomain.AuctionListed(now));
    if a.id !in db.auctions {
      var e := MapDomainEvent(a, AuctionDomain.AuctionListed(now)).value;
      assert e in db.outbox + [e];
      WriteAnnounced(db, a, [e]);
    }
  }

  lemma ReplaceAnnounces(db: Db, a: Id, cfg: Config, clk: Clock)
    requires RowsKeyed(db) && AllAnnounced(db)
    ensures AllAnnounced(RelistEffect(db, a, cfg, clk).db)
  {
    var db' := RelistEffect(db, a, cfg, clk).db;
    if db' != db {
      RelistUnfolds(db, a, cfg, clk);
      var w := NextWindow(cfg, clk);
      ReplacementOffersTheSame(db.auctions[a], RelistOf(a), w, clk.later);
      var v := AuctionDomain.RelistedFrom(db.auctions[a], RelistOf(a), w, clk.later).value;
      var es := MapDomainEvents(v.next, v.events);
      assert es[0] in db.outbox + es && es[1] in db.outbox + es;
      WriteAnnounced(db, v.next, es);
    }
  }

  lemma IssueAnnounces(db: Db, x: Transaction, cfg: Config)
    requires AllAnnounced(db) && x.Issue?
    ensures AllAnnounced(Commit(db, x, cfg))
  {
    InvoiceDomain.BillSaysWhatIsOwed(x.invoice, x.auction, x.debtor, x.amount, cfg.terms, x.attempt, x.now);
    var r := InvoiceDomain.NewInvoice(x.invoice, x.auction, x.debtor, x.amount, cfg.terms, x.attempt, x.now);
    if x.amount.Valid() && r.Ok? && !Issued(db.invoices, r.value.next) {
      var es := MapInvoiceEvent(r.value.event);
      assert es[0] in db.outbox + es;
      BillAnnounced(db, r.value.next, es);
    }
  }

  lemma FinishAnnounces(db: Db, inv: Id, e: InvoiceDomain.Ending)
    requires RowsKeyed(db) && AllAnnounced(db) && UpdateInvoice(db, inv, e).Ok?
    ensures AllAnnounced(UpdateInvoice(db, inv, e).value)
  {
    var i, c := db.invoices[inv], InvoiceDomain.End(db.invoices[inv], e).value;
    var es := MapInvoiceEvent(c.event);
    InvoiceStaysAnnounced(i, db.outbox, es);
    if es != [] { assert es[0] in db.outbox + es; }
    BillAnnounced(db, c.next.(version := c.next.version + 1), es);
  }

  lemma TransactionAnnounces(db: Db, x: Transaction, cfg: Config)
    requires RowsKeyed(db) && AllAnnounced(db) && WellFormed(x)
    ensures AllAnnounced(Commit(db, x, cfg))
  {
    match x
    case NoWrite | WriteSaga(_) =>
    case List(a, now) => ListAnnounces(db, a, now);
    case Order(id, c) =>
      if UpdateAuction(db, id, c).Ok? {
        var y, e := OrderTells(db, id, c);
        WriteAnnounced(db, y, [e]);
      }
    case Replace(a, clk) => ReplaceAnnounces(db, a, cfg, clk);
    case Issue(_, _, _, _, _, _) => IssueAnnounces(db, x, cfg);
    case Finish(inv, e) => if UpdateInvoice(db, inv, e).Ok? { FinishAnnounces(db, inv, e); }
  }

  // ---------- Main results ----------

  /** Whatever is in the tables has been announced. */
  lemma {:induction false} EverythingIsAnnounced(acts: seq<Act>, cfg: Config)
    ensures AllAnnounced(Reach(acts, cfg).db)
  {
    if acts != [] {
      var front := acts[..|acts| - 1];
      EverythingIsAnnounced(front, cfg);
      ReachKeepsFacts(front, cfg);
      var x := NextTransaction(Reach(front, cfg), acts[|acts| - 1], cfg);
      TransactionAnnounces(Reach(front, cfg).db, x, cfg);
    }
  }

  /** The invoice was issued a whole payment term before. */
  ghost predicate HadItsTerm(es: seq<Event>, e: Event, cfg: Config)
    requires e.InvoiceExpiredV1?
  {
    exists f :: f in es && f.InvoiceIssuedV1? && f.invoiceId == e.invoiceId && e.at >= f.at + cfg.terms.paymentTerm
  }

  /** Nobody loses a lot early: an expiry is published a whole payment term after its bill. */
  lemma NoEarlyExpiry(acts: seq<Act>, cfg: Config, e: Event)
    requires e in Reach(acts, cfg).db.outbox && e.InvoiceExpiredV1?
    ensures HadItsTerm(Reach(acts, cfg).db.outbox, e, cfg)
  {
    var db := Reach(acts, cfg).db;
    OutboxIsTrue(acts, cfg);
    EverythingIsAnnounced(acts, cfg);
    ReachKeepsFacts(acts, cfg);
    assert Told(db, cfg, e);
    assert BillIn(db.outbox, e.invoiceId);
    var f :| f in db.outbox && f.InvoiceIssuedV1? && f.invoiceId == e.invoiceId;
    assert Told(db, cfg, f);
  }
}
