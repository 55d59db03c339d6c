/**
  Every fact is announced once. An event in the outbox has happened, a transaction
  publishes what it has just made happen, and nothing happens twice.
 */
module SagaFacts {
  import opened Base
  import opened Events
  import AuctionDomain
  import opened AuctionRuns
  import InvoiceDomain
  import opened InvoiceAggregate
  import opened Database
  import opened Saga
  import opened SagaTransactions

  // ---------- What an event announces ----------

  /** What e announces has come about in the tables. */
  predicate Happened(db: Db, e: Event) {
    if e.AuctionListedV1? then e.auctionId in db.auctions
    else if e.BidPlacedV1? then e.auctionId in db.auctions && db.auctions[e.auctionId].bidCount >= e.bidCount
    else if e.AuctionCancelledV1? || e.AuctionClosedV1? then
      e.auctionId in db.auctions && db.auctions[e.auctionId].status != AuctionDomain.Listed
    else if e.WinnerReassignedV1? then e.auctionId in db.auctions && db.auctions[e.auctionId].winnerReassigned
    else if e.AuctionRelistedV1? then RelistOf(e.originalAuctionId) in db.auctions
    else if e.SaleSettledV1? || e.SaleFailedV1? then e.auctionId in db.auctions && db.auctions[e.auctionId].settled
    else if e.InvoiceIssuedV1? then e.invoiceId in db.invoices
    else e.invoiceId in db.invoices && db.invoices[e.invoiceId].status != InvoiceDomain.Pending
  }

  /**
    Two announcements of one fact, or of two that exclude each other: a listing, its n-th
    bid, the end of its bidding, its award, its replacement, the end of its sale; an
    invoice, or its end.
   */
  predicate Rivals(e: Event, f: Event) {
    || (e.AuctionListedV1? && f.AuctionListedV1? && e.auctionId == f.auctionId)
    || (e.BidPlacedV1? && f.BidPlacedV1? && e.auctionId == f.auctionId && e.bidCount == f.bidCount)
    || (EndsListing(e) && EndsListing(f) && e.auctionId == f.auctionId)
    || (e.WinnerReassignedV1? && f.WinnerReassignedV1? && e.auctionId == f.auctionId)
    || (e.AuctionRelistedV1? && f.AuctionRelistedV1? && e.originalAuctionId == f.originalAuctionId)
    || (EndsSale(e) && EndsSale(f) && e.auctionId == f.auctionId)
    || (e.InvoiceIssuedV1? && f.InvoiceIssuedV1? && e.invoiceId == f.invoiceId)
    || (EndsInvoice(e) && EndsInvoice(f) && e.invoiceId == f.invoiceId)
  }

  lemma RivalsHappenTogether(db: Db, e: Event, f: Event)
    requires Rivals(e, f)
    ensures Happened(db, e) <==> Happened(db, f)
  {
  }

  // ---------- The invariant ----------

  ghost predicate NoRivals(es: seq<Event>) {
    forall i, j | 0 <= i < j < |es| :: !Rivals(es[i], es[j])
  }

  predicate RowsKeyed(db: Db) {
    (forall k | k in db.auctions :: db.auctions[k].id == k) && (forall k | k in db.invoices :: db.invoices[k].id == k)
  }

  ghost predicate FactsInv(db: Db) {
    RowsKeyed(db) && NoRivals(db.outbox) && forall e | e in db.outbox :: Happened(db, e)
  }

  predicate Grows(x: AuctionDomain.AuctionState, y: AuctionDomain.AuctionState) {
    && y.id == x.id && y.bidCount >= x.bidCount
    && (x.status != AuctionDomain.Listed ==> y.status != AuctionDomain.Listed)
    && (x.winnerReassigned ==> y.winnerReassigned) && (x.settled ==> y.settled)
  }

  /** What has happened stays so. */
  ghost predicate Onward(db: Db, db': Db) {
    && (forall k | k in db.auctions :: k in db'.auctions && Grows(db.auctions[k], db'.auctions[k]))
    && (forall k | k in db.invoices ::
          && k in db'.invoices
          && (db.invoices[k].status != InvoiceDomain.Pending ==> db'.invoices[k].status != InvoiceDomain.Pending))
  }

  lemma HappenedStays(db: Db, db': Db, e: Event)
    requires Onward(db, db') && Happened(db, e)
    ensures Happened(db', e)
  {
  }

  /** A transaction that goes on and publishes nothing but news keeps the facts in order. */
  lemma NewsKeepsFacts(db: Db, db': Db, es: seq<Event>)
    requires FactsInv(db) && Onward(db, db') && RowsKeyed(db') && db'.outbox == db.outbox + es
    requires NoRivals(es) && forall e | e in es :: !Happened(db, e) && Happened(db', e)
    ensures FactsInv(db')
  {
    forall e | e in db'.outbox ensures Happened(db', e) {
      if e in db.outbox { HappenedStays(db, db', e); }
    }
    forall x, y | x in db.outbox && y in es ensures !Rivals(x, y) {
      if Rivals(x, y) { RivalsHappenTogether(db, x, y); }
    }
    Concatenated(db.outbox, es);
  }

  lemma Concatenated(xs: seq<Event>, ys: seq<Event>)
    requires NoRivals(xs) && NoRivals(ys) && forall x, y | x in xs && y in ys :: !Rivals(x, y)
    ensures NoRivals(xs + ys)
  {
  }

  // ---------- One transaction ----------

  ghost predicate GoesOn(db: Db, db': Db) { FactsInv(db') && Onward(db, db') }

  /** What a command makes happen, and how it announces that. */
  ghost predicate News(x: AuctionDomain.AuctionState, y: AuctionDomain.AuctionState, e: Event) {
    && y.id == x.id
    && if e.BidPlacedV1? then e.auctionId == x.id && e.bidCount == y.bidCount == x.bidCount + 1
       else if EndsListing(e) then
         e.auctionId == x.id && x.status == AuctionDomain.Listed && y.status != AuctionDomain.Listed
       else if e.WinnerReassignedV1? then e.auctionId == x.id && !x.winnerReassigned && y.winnerReassigned
       else EndsSale(e) && e.auctionId == x.id && !x.settled && y.settled
  }

  lemma CommandGoesOn(x: AuctionDomain.AuctionState, c: Command)
    requires Perform(x, c).Ok?
    ensures var y := Perform(x, c).value.next; Grows(x, y.(version := y.version + 1))
  {
  }

  lemma BidIsNews(x: AuctionDomain.AuctionState, c: Command)
    requires c.DoBid? && Perform(x, c).Ok?
    ensures var change := Perform(x, c).value; var es := MapDomainEvents(change.next, change.events);
      |es| == 1 && News(x, change.next, es[0])
  {
    var change := Perform(x, c).value;
    var placed := change.events[|change.events| - 1];
    MappedAlone(change.next, placed);
    if |change.events| == 2 {
      MappedExtended(change.next, change.events[0], placed);
      assert change.events == [change.events[0], placed];
    } else {
      assert change.events == [placed];
    }
  }

  lemma OtherIsNews(x: AuctionDomain.AuctionState, c: Command)
    requires !c.DoBid? && Perform(x, c).Ok?
    ensures var change := Perform(x, c).value; var es := MapDomainEvents(change.next, change.events);
      |es| == 1 && News(x, change.next, es[0])
  {
    var change := Perform(x, c).value;
    assert change.events == [change.events[0]];
    MappedAlone(change.next, change.events[0]);
  }

  lemma CommandIsNews(x: AuctionDomain.AuctionState, c: Command)
    requires Perform(x, c).Ok?
    ensures var change := Perform(x, c).value; var es := MapDomainEvents(change.next, change.events);
      |es| == 1 && News(x, change.next.(version := change.next.version + 1), es[0])
  {
    if c.DoBid? { BidIsNews(x, c); } else { OtherIsNews(x, c); }
  }

  /** A command that goes through rewrites its auction and publishes one piece of news. */
  lemma OrderUnfolds(db: Db, id: Id, c: Command) returns (y: AuctionDomain.AuctionState, es: seq<Event>)
    requires RowsKeyed(db) && UpdateAuction(db, id, c).Ok?
    ensures id in db.auctions && y.id == id && Grows(db.auctions[id], y)
    ensures |es| == 1 && News(db.auctions[id], y, es[0])
    ensures UpdateAuction(db, id, c).value == PutAuction(db, y, es)
  {
    var change := Perform(db.auctions[id], c).value;
    y, es := change.next.(version := change.next.version + 1), MapDomainEvents(change.next, change.events);
    CommandGoesOn(db.auctions[id], c);
    CommandIsNews(db.auctions[id], c);
  }

  lemma OrderGoesOn(db: Db, id: Id, c: Command)
    requires FactsInv(db) && UpdateAuction(db, id, c).Ok?
    ensures GoesOn(db, UpdateAuction(db, id, c).value)
  {
    var y, es := OrderUnfolds(db, id, c);
    RewriteGoesOn(db, y, es);
  }

  lemma RewriteGoesOn(db: Db, y: AuctionDomain.AuctionState, es: seq<Event>)
    requires FactsInv(db) && y.id in db.auctions && |es| == 1
    requires News(db.auctions[y.id], y, es[0]) && Grows(db.auctions[y.id], y)
    ensures GoesOn(db, PutAuction(db, y, es))
  {
    NewsKeepsFacts(db, PutAuction(db, y, es), es);
  }

  lemma ListingGoesOn(db: Db, a: AuctionDomain.AuctionState, now: Time)
    requires FactsInv(db)
    ensures var r := AddAuction(db, AuctionDomain.Change(a, [AuctionDomain.AuctionListed(now)]));
      r.Ok? ==> GoesOn(db, r.value)
  {
    MappedAlone(a, AuctionDomain.AuctionListed(now));
    if a.id !in db.auctions {
      NewsKeepsFacts(db, PutAuction(db, a, [MapDomainEvent(a, AuctionDomain.AuctionListed(now)).value]),
                     [MapDomainEvent(a, AuctionDomain.AuctionListed(now)).value]);
    }
  }

  lemma ReplacementGoesOn(db: Db, original: Id, v: AuctionDomain.Change)
    requires FactsInv(db) && v.next.id == RelistOf(original)
    requires |v.events| == 2 && v.events[0].AuctionListed?
    requires v.events[1].AuctionRelisted? && v.events[1].originalId == original
    ensures AddAuction(db, v).Ok? ==> GoesOn(db, AddAuction(db, v).value)
  {
    if v.next.id !in db.auctions {
      assert v.events == [v.events[0], v.events[1]];
      MappedPair(v.next, v.events[0], v.events[1]);
      NewsKeepsFacts(db, PutAuction(db, v.next, MapDomainEvents(v.next, v.events)), MapDomainEvents(v.next, v.events));
    }
  }

  /** A replacement either writes nothing or stores the listing built from its original. */
  lemma ReplaceUnfolds(db: Db, a: Id, cfg: Config, clk: Clock) returns (v: AuctionDomain.Verdict)
    requires RowsKeyed(db)
    ensures v.Ok? ==>
      && v.value.next.id == RelistOf(a) && |v.value.events| == 2
      && v.value.events[0].AuctionListed? && v.value.events[1].AuctionRelisted? && v.value.events[1].originalId == a
    ensures var db' := RelistEffect(db, a, cfg, clk).db;
      db' == db || (v.Ok? && AddAuction(db, v.value) == Ok(db'))
  {
    v := Err(AuctionDomain.ErrNotFound);
    var startsAt := clk.now + cfg.relistDelay;
    var w := AuctionDomain.NewBiddingWindow(startsAt, startsAt + cfg.relistDuration);
    if a in db.auctions && w.Some? {
      v := AuctionDomain.RelistedFrom(db.auctions[a], RelistOf(a), w.value, clk.later);
    }
  }

  lemma ReplaceGoesOn(db: Db, a: Id, cfg: Config, clk: Clock)
    requires FactsInv(db)
    ensures GoesOn(db, RelistEffect(db, a, cfg, clk).db)
  {
    var v := ReplaceUnfolds(db, a, cfg, clk);
    if RelistEffect(db, a, cfg, clk).db != db { ReplacementGoesOn(db, a, v.value); }
  }

  lemma IssueGoesOn(db: Db, inv: Id, a: Id, debtor: Id, amount: Money, attempt: int, cfg: Config, now: Time)
    requires FactsInv(db)
    ensures GoesOn(db, IssueInvoice(db, inv, a, debtor, amount, attempt, cfg, now).db)
  {
    var r := InvoiceDomain.NewInvoice(inv, a, debtor, amount, cfg.terms, attempt, now);
    if amount.Valid() && r.Ok? && !Issued(db.invoices, r.value.next) {
      NewsKeepsFacts(db, PutInvoice(db, r.value.next, MapInvoiceEvent(r.value.event)), MapInvoiceEvent(r.value.event));
    }
  }

  lemma FinishGoesOn(db: Db, inv: Id, e: InvoiceDomain.Ending)
    requires FactsInv(db) && UpdateInvoice(db, inv, e).Ok?
    ensures GoesOn(db, UpdateInvoice(db, inv, e).value)
  {
    var c := InvoiceDomain.End(db.invoices[inv], e).value;
    NewsKeepsFacts(db, UpdateInvoice(db, inv, e).value, MapInvoiceEvent(c.event));
  }

  lemma TransactionGoesOn(db: Db, x: Transaction, cfg: Config)
    requires FactsInv(db)
    ensures GoesOn(db, Commit(db, x, cfg))
  {
    match x
    case NoWrite | WriteSaga(_) =>
    case List(a, now) => ListingGoesOn(db, a, now);
    case Order(id, c) => if UpdateAuction(db, id, c).Ok? { OrderGoesOn(db, id, c); }
    case Replace(a, clk) => ReplaceGoesOn(db, a, cfg, clk);
    case Issue(inv, a, debtor, amount, attempt, now) => IssueGoesOn(db, inv, a, debtor, amount, attempt, cfg, now);
    case Finish(inv, e) => if UpdateInvoice(db, inv, e).Ok? { FinishGoesOn(db, inv, e); }
  }

  lemma {:induction false} ReachKeepsFacts(acts: seq<Act>, cfg: Config)
    ensures FactsInv(Reach(acts, cfg).db)
  {
    if acts != [] {
      var front := acts[..|acts| - 1];
      ReachKeepsFacts(front, cfg);
      var x := NextTransaction(Reach(front, cfg), acts[|acts| - 1], cfg);
      TransactionGoesOn(Reach(front, cfg).db, x, cfg);
    }
  }

  // ---------- Main result ----------

  /** However often handlers run and crash, no fact is announced twice, nor two that exclude each other. */
  lemma NothingPublishedTwice(acts: seq<Act>, cfg: Config, i: nat, j: nat)
    requires i < j < |Reach(acts, cfg).db.outbox|
    ensures var outbox := Reach(acts, cfg).db.outbox; !Rivals(outbox[i], outbox[j])
  {
    ReachKeepsFacts(acts, cfg);
  }
}
