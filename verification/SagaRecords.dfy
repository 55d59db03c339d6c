/**
  Every announcement is true in all its fields, and stays so. What an event says is
  compared with the row it is about: prices, parties and verdicts of an auction, amounts
  and due dates of an invoice.
 */
module SagaRecords {
  import opened Base
  import opened Events
  import AuctionDomain
  import opened AuctionRuns
  import opened AuctionRules
  import InvoiceDomain
  import opened InvoiceAggregate
  import opened Database
  import opened Saga
  import opened SagaTransactions
  import opened SagaFacts
  import opened SagaView
  import opened SagaCalls
  import opened SagaReach

  // ---------- What an event says of its auction ----------

  ghost predicate ListingTrue(x: AuctionDomain.AuctionState, e: Event)
    requires e.AuctionListedV1?
  {
    && e.sellerId == x.seller && e.title == x.lot.title
    && Money(e.startPriceMinor, e.currency) == x.startPrice && e.relistGeneration == x.relistGen
    && e.startsAt == x.window.startsAt && e.endsAt == x.window.originalEndsAt
  }

  /** The newest bid event describes the leader, whom it outbid, and the deadline. */
  ghost predicate BidTrue(x: AuctionDomain.AuctionState, e: Event)
    requires e.BidPlacedV1?
  {
    && e.bidCount <= x.bidCount && e.currency == x.startPrice.currency
    && (e.bidCount == x.bidCount && !x.winnerReassigned ==>
          && x.leadingBid == AuctionDomain.Bid(e.bidId, e.bidderId, Money(e.amountMinor, e.currency), e.at)
          && e.outbidBidderId == x.runnerUpBid.bidder && e.newEndsAt == x.window.endsAt)
  }

  /** The lot was sold exactly if there was a bid and the last one was enough; no sale is told early. */
  ghost predicate ClosingTrue(x: AuctionDomain.AuctionState, e: Event)
    requires e.AuctionClosedV1?
  {
    && x.status == AuctionDomain.Closed && e.sellerId == x.seller && e.currency == x.startPrice.currency
    && e.relistGeneration == x.relistGen && e.at >= x.window.endsAt
    && if e.outcome == "sold" then
         && x.bidCount > 0 && Enough(Money(e.hammerPriceMinor, e.currency), x.reserve)
         && (!x.winnerReassigned ==>
               e.winnerId == x.leadingBid.bidder && Money(e.hammerPriceMinor, e.currency) == x.leadingBid.amount)
       else
         && e.outcome == "not_sold" && x.outcome == AuctionDomain.NotSold && !x.settled && !x.winnerReassigned
         && (x.leadingBid == AuctionDomain.NO_BID || !Enough(x.leadingBid.amount, x.reserve))
  }

  ghost predicate SaleEndTrue(x: AuctionDomain.AuctionState, e: Event)
    requires EndsSale(e)
  {
    x.settled &&
    if e.SaleSettledV1? then x.outcome == AuctionDomain.Sold && e.winnerId == x.leadingBid.bidder
    else x.outcome == AuctionDomain.NotSold && e.reason != NoReason
  }

  ghost predicate AwardTrue(x: AuctionDomain.AuctionState, e: Event)
    requires e.WinnerReassignedV1?
  {
    && x.winnerReassigned && e.newWinnerId == x.leadingBid.bidder
    && Money(e.priceMinor, e.currency) == x.leadingBid.amount
  }

  predicate AboutAuction(e: Event) {
    !e.AuctionRelistedV1? && !e.InvoiceIssuedV1? && !EndsInvoice(e)
  }

  ghost predicate AuctionTrue(x: AuctionDomain.AuctionState, e: Event)
    requires AboutAuction(e)
  {
    if e.AuctionListedV1? then ListingTrue(x, e)
    else if e.BidPlacedV1? then BidTrue(x, e)
    else if e.AuctionCancelledV1? then x.status == AuctionDomain.Cancelled && e.sellerId == x.seller
    else if e.AuctionClosedV1? then ClosingTrue(x, e)
    else if e.WinnerReassignedV1? then AwardTrue(x, e)
    else SaleEndTrue(x, e)
  }

  // ---------- What it says of an invoice ----------

  ghost predicate InvoiceTrue(i: InvoiceDomain.InvoiceState, cfg: Config, e: Event)
    requires e.InvoiceIssuedV1? || EndsInvoice(e)
  {
    && e.auctionId == i.auctionId && e.debtorId == i.debtor
    && if e.InvoiceIssuedV1? then
         && e.hammerMinor == i.hammer.amount && e.commissionMinor == i.commission.amount
         && Money(e.totalMinor, e.currency) == i.total && e.attempt == i.attempt
         && e.dueAt == i.dueAt == e.at + cfg.terms.paymentTerm
       else if e.InvoicePaidV1? then
         && i.status == InvoiceDomain.Paid && i.pspRef != InvoiceDomain.NO_REFERENCE
         && Money(e.totalMinor, e.currency) == i.total
       else i.status == InvoiceDomain.Expired && e.attempt == i.attempt && e.at >= i.dueAt
  }

  /** A replacement is told with its window. */
  ghost predicate ReplacementTrue(y: AuctionDomain.AuctionState, e: Event)
    requires e.AuctionRelistedV1?
  {
    && y.relistOf == e.originalAuctionId
    && y.window.startsAt == e.startsAt && y.window.originalEndsAt == e.endsAt
  }

  ghost predicate Told(db: Db, cfg: Config, e: Event) {
    if e.AuctionRelistedV1? then e.newAuctionId in db.auctions && ReplacementTrue(db.auctions[e.newAuctionId], e)
    else if e.InvoiceIssuedV1? || EndsInvoice(e) then
      e.invoiceId in db.invoices && InvoiceTrue(db.invoices[e.invoiceId], cfg, e)
    else e.auctionId in db.auctions && AuctionTrue(db.auctions[e.auctionId], e)
  }

  ghost predicate RecordsInv(db: Db, cfg: Config) {
    forall e | e in db.outbox :: Told(db, cfg, e)
  }

  ghost predicate AllValid(db: Db) {
    forall k | k in db.auctions :: Valid(db.auctions[k])
  }

  // ---------- Commands keep what was said true ----------

  lemma ListingStaysTrue(x: AuctionDomain.AuctionState, c: Command, e: Event)
    requires Perform(x, c).Ok? && e.AuctionListedV1? && ListingTrue(x, e)
    ensures ListingTrue(Perform(x, c).value.next, e)
  {
  }

  lemma BidStaysTrue(x: AuctionDomain.AuctionState, c: Command, e: Event)
    requires Perform(x, c).Ok? && e.BidPlacedV1? && BidTrue(x, e)
    ensures BidTrue(Perform(x, c).value.next, e)
  {
  }

  lemma ClosingStaysTrue(x: AuctionDomain.AuctionState, c: Command, e: Event)
    requires Valid(x) && Perform(x, c).Ok? && e.AuctionClosedV1? && ClosingTrue(x, e)
    ensures ClosingTrue(Perform(x, c).value.next, e)
  {
  }

  lemma OthersStayTrue(x: AuctionDomain.AuctionState, c: Command, e: Event)
    requires Valid(x) && Perform(x, c).Ok? && AboutAuction(e) && AuctionTrue(x, e)
    requires e.AuctionCancelledV1? || e.WinnerReassignedV1? || EndsSale(e)
    ensures AuctionTrue(Perform(x, c).value.next, e)
  {
  }

  lemma AuctionStaysTrue(x: AuctionDomain.AuctionState, c: Command, e: Event)
    requires Valid(x) && Perform(x, c).Ok? && AboutAuction(e) && AuctionTrue(x, e)
    ensures AuctionTrue(Perform(x, c).value.next, e)
  {
    if e.AuctionListedV1? { ListingStaysTrue(x, c, e); }
    else if e.BidPlacedV1? { BidStaysTrue(x, c, e); }
    else if e.AuctionClosedV1? { ClosingStaysTrue(x, c, e); }
    else { OthersStayTrue(x, c, e); }
  }

  /** What a command tells is true of what it left. */
  lemma NewsIsTrue(x: AuctionDomain.AuctionState, c: Command, e: Event)
    requires Valid(x) && Perform(x, c).Ok? && Tells(x, c, e)
    ensures AboutAuction(e) && e.auctionId == x.id && AuctionTrue(Perform(x, c).value.next, e)
  {
  }

  // ---------- Transactions ----------

  lemma VersionIsNotTold(x: AuctionDomain.AuctionState, v: int, e: Event)
    requires AboutAuction(e)
    ensures AuctionTrue(x.(version := v), e) <==> AuctionTrue(x, e)
  {
  }

  lemma CommandKeepsTruth(x: AuctionDomain.AuctionState, c: Command, v: int, f: Event)
    requires Valid(x) && Perform(x, c).Ok? && AboutAuction(f) && AuctionTrue(x, f)
    ensures AuctionTrue(Perform(x, c).value.next.(version := v), f)
  {
    AuctionStaysTrue(x, c, f);
    VersionIsNotTold(Perform(x, c).value.next, v, f);
  }

  /** Whatever was true of the one auction is true of the other. */
  ghost predicate StaysTrue(x: AuctionDomain.AuctionState, y: AuctionDomain.AuctionState) {
    forall f | AboutAuction(f) && AuctionTrue(x, f) :: AuctionTrue(y, f)
  }

  lemma CommandIsTold(x: AuctionDomain.AuctionState, c: Command) returns (y: AuctionDomain.AuctionState, e: Event)
    requires Valid(x) && Perform(x, c).Ok?
    ensures var change := Perform(x, c).value;
      y == change.next.(version := change.next.version + 1) && MapDomainEvents(change.next, change.events) == [e]
    ensures y.id == x.id && AboutAuction(e) && e.auctionId == x.id && AuctionTrue(y, e)
    ensures StaysTrue(x, y)
  {
    var change := Perform(x, c).value;
    y := change.next.(version := change.next.version + 1);
    CommandTells(x, c);
    e := MapDomainEvents(change.next, change.events)[0];
    NewsIsTrue(x, c, e);
    VersionIsNotTold(change.next, y.version, e);
    CommandKeepsId(x, c);
    forall f | AboutAuction(f) && AuctionTrue(x, f) ensures AuctionTrue(y, f) {
      CommandKeepsTruth(x, c, y.version, f);
    }
  }

  lemma UpdateUnfolds(db: Db, id: Id, c: Command)
    requires UpdateAuction(db, id, c).Ok?
    ensures id in db.auctions && Perform(db.auctions[id], c).Ok?
    ensures var change := Perform(db.auctions[id], c).value;
      UpdateAuction(db, id, c).value
      == PutAuction(db, change.next.(version := change.next.version + 1), MapDomainEvents(change.next, change.events))
  {
  }

  lemma OrderTold(db: Db, id: Id, c: Command) returns (y: AuctionDomain.AuctionState, e: Event)
    requires RowsKeyed(db) && AllValid(db) && UpdateAuction(db, id, c).Ok?
    ensures id in db.auctions && y.id == id && UpdateAuction(db, id, c).value == PutAuction(db, y, [e])
    ensures AboutAuction(e) && e.auctionId == id && AuctionTrue(y, e)
    ensures StaysTrue(db.auctions[id], y)
  {
    UpdateUnfolds(db, id, c);
    y, e := CommandIsTold(db.auctions[id], c);
  }

  lemma RewriteKeepsRecords(db: Db, cfg: Config, y: AuctionDomain.AuctionState, e: Event)
    requires RecordsInv(db, cfg) && y.id in db.auctions && AboutAuction(e) && e.auctionId == y.id && AuctionTrue(y, e)
    requires StaysTrue(db.auctions[y.id], y)
    requires SameListing(db.auctions[y.id], y)
    ensures RecordsInv(PutAuction(db, y, [e]), cfg)
  {
    var db' := PutAuction(db, y, [e]);
    forall f | f in db'.outbox ensures Told(db', cfg, f) {
      if f != e { assert f in db.outbox && Told(db, cfg, f); }
    }
  }

  /** What a relist told stays as it was. */
  predicate SameListing(x: AuctionDomain.AuctionState, y: AuctionDomain.AuctionState) {
    && y.relistOf == x.relistOf
    && y.window.startsAt == x.window.startsAt && y.window.originalEndsAt == x.window.originalEndsAt
  }

  lemma OrderKeepsListing(db: Db, id: Id, c: Command)
    requires RowsKeyed(db) && UpdateAuction(db, id, c).Ok?
    ensures id in db.auctions && id in UpdateAuction(db, id, c).value.auctions
    ensures SameListing(db.auctions[id], UpdateAuction(db, id, c).value.auctions[id])
  {
  }

  lemma OrderKeepsRecords(db: Db, cfg: Config, id: Id, c: Command)
    requires RowsKeyed(db) && AllValid(db) && RecordsInv(db, cfg) && UpdateAuction(db, id, c).Ok?
    ensures RecordsInv(UpdateAuction(db, id, c).value, cfg)
  {
    var y, e := OrderTold(db, id, c);
    OrderKeepsListing(db, id, c);
    RewriteKeepsRecords(db, cfg, y, e);
  }

  lemma InsertKeepsRecords(db: Db, cfg: Config, y: AuctionDomain.AuctionState, es: seq<Event>)
    requires RecordsInv(db, cfg) && y.id !in db.auctions
    requires forall e | e in es ::
      if e.AuctionRelistedV1? then e.newAuctionId == y.id && ReplacementTrue(y, e)
      else e.AuctionListedV1? && e.auctionId == y.id && ListingTrue(y, e)
    ensures RecordsInv(PutAuction(db, y, es), cfg)
  {
    var db' := PutAuction(db, y, es);
    forall f | f in db'.outbox ensures Told(db', cfg, f) {
      if f in db.outbox { assert Told(db, cfg, f); }
    }
  }

  lemma ListKeepsRecords(db: Db, cfg: Config, a: AuctionDomain.AuctionState, now: Time)
    requires RecordsInv(db, cfg) && Fresh(a)
    ensures var r := AddAuction(db, AuctionDomain.Change(a, [AuctionDomain.AuctionListed(now)]));
      r.Ok? ==> RecordsInv(r.value, cfg)
  {
    MappedAlone(a, AuctionDomain.AuctionListed(now));
    if a.id !in db.auctions {
      InsertKeepsRecords(db, cfg, a, [MapDomainEvent(a, AuctionDomain.AuctionListed(now)).value]);
    }
  }

  lemma ReplaceKeepsRecords(db: Db, cfg: Config, a: Id, clk: Clock)
    requires RowsKeyed(db) && AllValid(db) && RecordsInv(db, cfg)
    ensures RecordsInv(RelistEffect(db, a, cfg, clk).db, cfg)
  {
    var db' := RelistEffect(db, a, cfg, clk).db;
    if db' != db {
      RelistUnfolds(db, a, cfg, clk);
      var w := NextWindow(cfg, clk);
      ReplacementOffersTheSame(db.auctions[a], RelistOf(a), w, clk.later);
      var v := AuctionDomain.RelistedFrom(db.auctions[a], RelistOf(a), w, clk.later).value;
      InsertKeepsRecords(db, cfg, v.next, MapDomainEvents(v.next, v.events));
    }
  }

  lemma IssueKeepsRecords(db: Db, cfg: Config, x: Transaction)
    requires RowsKeyed(db) && RecordsInv(db, cfg) && x.Issue?
    ensures RecordsInv(Commit(db, x, cfg), cfg)
  {
    InvoiceDomain.BillSaysWhatIsOwed(x.invoice, x.auction, x.debtor, x.amount, cfg.terms, x.attempt, x.now);
    var r := InvoiceDomain.NewInvoice(x.invoice, x.auction, x.debtor, x.amount, cfg.terms, x.attempt, x.now);
    if x.amount.Valid() && r.Ok? && !Issued(db.invoices, r.value.next) {
      BillKeepsRecords(db, cfg, r.value.next, x.now);
    }
  }

  lemma BillKeepsRecords(db: Db, cfg: Config, i: InvoiceDomain.InvoiceState, now: Time)
    requires RecordsInv(db, cfg) && i.id !in db.invoices && i.dueAt == now + cfg.terms.paymentTerm
    ensures RecordsInv(PutInvoice(db, i, MapInvoiceEvent(InvoiceDomain.InvoiceIssued(i, now))), cfg)
  {
    var db' := PutInvoice(db, i, MapInvoiceEvent(InvoiceDomain.InvoiceIssued(i, now)));
    forall f | f in db'.outbox ensures Told(db', cfg, f) {
      if f in db.outbox { assert Told(db, cfg, f); }
    }
  }

  /** An ending is told truly, and takes nothing back that was told before. */
  lemma EndingIsTrue(i: InvoiceDomain.InvoiceState, cfg: Config, e: InvoiceDomain.Ending)
    requires InvoiceDomain.End(i, e).Ok?
    ensures var c := InvoiceDomain.End(i, e).value;
      && c.next.id == i.id
      && (forall f: Event | f in MapInvoiceEvent(c.event) ::
            EndsInvoice(f) && f.invoiceId == i.id && InvoiceTrue(c.next.(version := c.next.version + 1), cfg, f))
      && (forall f: Event | (f.InvoiceIssuedV1? || EndsInvoice(f)) && InvoiceTrue(i, cfg, f) ::
            InvoiceTrue(c.next.(version := c.next.version + 1), cfg, f))
  {
    if e.Expiry? { InvoiceDomain.ExpiresIffDue(i, e.at); }
  }

  lemma FinishKeepsRecords(db: Db, cfg: Config, inv: Id, e: InvoiceDomain.Ending)
    requires RowsKeyed(db) && RecordsInv(db, cfg) && UpdateInvoice(db, inv, e).Ok?
    ensures RecordsInv(UpdateInvoice(db, inv, e).value, cfg)
  {
    EndingIsTrue(db.invoices[inv], cfg, e);
    var db' := UpdateInvoice(db, inv, e).value;
    forall f | f in db'.outbox ensures Told(db', cfg, f) {
      if f in db.outbox { assert Told(db, cfg, f); }
    }
  }

  lemma TransactionKeepsRecords(db: Db, cfg: Config, x: Transaction)
    requires RowsKeyed(db) && AllValid(db) && RecordsInv(db, cfg) && WellFormed(x)
    ensures RecordsInv(Commit(db, x, cfg), cfg)
  {
    match x
    case NoWrite | WriteSaga(_) =>
    case List(a, now) => ListKeepsRecords(db, cfg, a, now);
    case Order(id, c) => if UpdateAuction(db, id, c).Ok? { OrderKeepsRecords(db, cfg, id, c); }
    case Replace(a, clk) => ReplaceKeepsRecords(db, cfg, a, clk);
    case Issue(_, _, _, _, _, _) => IssueKeepsRecords(db, cfg, x);
    case Finish(inv, e) => if UpdateInvoice(db, inv, e).Ok? { FinishKeepsRecords(db, cfg, inv, e); }
  }

  lemma ReachIsValid(acts: seq<Act>, cfg: Config)
    ensures AllValid(Reach(acts, cfg).db) && RowsKeyed(Reach(acts, cfg).db)
  {
    var db := Reach(acts, cfg).db;
    ReachKeepsFacts(acts, cfg);
    ReachKeepsInv(acts, cfg, false);
    forall k | k in db.auctions ensures Valid(db.auctions[k]) {
      assert ViewInv(k, ViewOf(db, k));
    }
  }

  /** Whatever was ever published is true, in every field, now and in every continuation. */
  lemma {:induction false} OutboxIsTrue(acts: seq<Act>, cfg: Config)
    ensures RecordsInv(Reach(acts, cfg).db, cfg)
  {
    if acts != [] {
      var front := acts[..|acts| - 1];
      OutboxIsTrue(front, cfg);
      ReachIsValid(front, cfg);
      var x := NextTransaction(Reach(front, cfg), acts[|acts| - 1], cfg);
      TransactionKeepsRecords(Reach(front, cfg).db, cfg, x);
    }
  }
}
