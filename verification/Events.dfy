/**
  The flat integration events the contexts publish, and the mappers from the rich
  domain events. Event ids are left out: they carry no information.
 */
module Events {
  import opened Base
  import AuctionDomain
  import InvoiceDomain

  datatype Event =
    | AuctionListedV1(auctionId: Id, sellerId: Id, title: string, startPriceMinor: int, currency: Currency,
                      startsAt: Time, endsAt: Time, relistGeneration: int, at: Time)
    | BidPlacedV1(auctionId: Id, bidId: Id, bidderId: Id, amountMinor: int, currency: Currency, bidCount: int,
                  extended: bool, newEndsAt: Time, outbidBidderId: Id, at: Time)
    | AuctionCancelledV1(auctionId: Id, sellerId: Id, at: Time)
    | AuctionClosedV1(auctionId: Id, sellerId: Id, outcome: string, winnerId: Id, hammerPriceMinor: int,
                      currency: Currency, runnerUpBidderId: Id, runnerUpAmountMinor: int,
                      runnerUpQualifies: bool, relistGeneration: int, at: Time)
    | WinnerReassignedV1(auctionId: Id, newWinnerId: Id, priceMinor: int, currency: Currency, at: Time)
    | AuctionRelistedV1(originalAuctionId: Id, newAuctionId: Id, startsAt: Time, endsAt: Time, at: Time)
    | SaleSettledV1(auctionId: Id, winnerId: Id, at: Time)
    | SaleFailedV1(auctionId: Id, reason: FailureReason, at: Time)
    | InvoiceIssuedV1(invoiceId: Id, auctionId: Id, debtorId: Id, hammerMinor: int, commissionMinor: int,
                      totalMinor: int, currency: Currency, dueAt: Time, attempt: int, at: Time)
    | InvoicePaidV1(invoiceId: Id, auctionId: Id, debtorId: Id, totalMinor: int, currency: Currency, at: Time)
    | InvoiceExpiredV1(invoiceId: Id, auctionId: Id, debtorId: Id, attempt: int, at: Time)

  predicate EndsListing(e: Event) { e.AuctionCancelledV1? || e.AuctionClosedV1? }

  predicate EndsSale(e: Event) { e.SaleSettledV1? || e.SaleFailedV1? }

  predicate EndsInvoice(e: Event) { e.InvoicePaidV1? || e.InvoiceExpiredV1? }

  function OutcomeName(o: AuctionDomain.Outcome): string {
    match o
    case NoOutcome => ""
    case Sold => "sold"
    case NotSold => "not_sold"
  }

  /** a is the aggregate after the command; the reserve price never leaves it. */
  function MapDomainEvent(a: AuctionDomain.AuctionState, e: AuctionDomain.DomainEvent): Option<Event> {
    var currency := a.startPrice.currency;
    match e
    case AuctionListed(at) =>
      Some(AuctionListedV1(a.id, a.seller, a.lot.title, a.startPrice.amount, currency,
                           a.window.startsAt, a.window.endsAt, a.relistGen, at))
    case BidPlaced(bid, outbid, newEndsAt, extended, at) =>
      Some(BidPlacedV1(a.id, bid.id, bid.bidder, bid.amount.amount, currency, a.bidCount,
                       extended, newEndsAt, outbid.bidder, at))
    case AuctionExtended(_, _) => None
    case AuctionCancelled(at) => Some(AuctionCancelledV1(a.id, a.seller, at))
    case AuctionClosed(r, at) =>
      Some(AuctionClosedV1(a.id, a.seller, OutcomeName(r.outcome), r.winner.bidder, r.winner.amount.amount,
                           currency, r.runnerUp.bidder, r.runnerUp.amount.amount, r.runnerUpQualifies,
                           a.relistGen, at))
    case WinnerReassigned(w, at) => Some(WinnerReassignedV1(a.id, w.bidder, w.amount.amount, currency, at))
    case AuctionRelisted(originalId, newId, startsAt, endsAt, at) =>
      Some(AuctionRelistedV1(originalId, newId, startsAt, endsAt, at))
    case SaleSettled(at) => Some(SaleSettledV1(a.id, a.leadingBid.bidder, at))
    case SaleFailed(reason, at) => Some(SaleFailedV1(a.id, reason, at))
  }

  function MapDomainEvents(a: AuctionDomain.AuctionState, es: seq<AuctionDomain.DomainEvent>): seq<Event> {
    if es == [] then []
    else
      MapDomainEvents(a, es[..|es| - 1])
      + (match MapDomainEvent(a, es[|es| - 1])
         case Some(v) => [v]
         case None => [])
  }

  lemma MappedAlone(a: AuctionDomain.AuctionState, e: AuctionDomain.DomainEvent)
    requires MapDomainEvent(a, e).Some?
    ensures MapDomainEvents(a, [e]) == [MapDomainEvent(a, e).value]
  {
    assert [e][..0] == [];
  }

  /** An extension is not published on its own. */
  lemma MappedExtended(a: AuctionDomain.AuctionState, x: AuctionDomain.DomainEvent, e: AuctionDomain.DomainEvent)
    requires x.AuctionExtended? && MapDomainEvent(a, e).Some?
    ensures MapDomainEvents(a, [x, e]) == MapDomainEvents(a, [e])
  {
    assert [x, e][..1] == [x] && [x][..0] == [] && [e][..0] == [];
    assert MapDomainEvents(a, [x]) == [];
  }

  lemma MappedPair(a: AuctionDomain.AuctionState, x: AuctionDomain.DomainEvent, e: AuctionDomain.DomainEvent)
    requires MapDomainEvent(a, x).Some? && MapDomainEvent(a, e).Some?
    ensures MapDomainEvents(a, [x, e]) == [MapDomainEvent(a, x).value, MapDomainEvent(a, e).value]
  {
    assert [x, e][..1] == [x];
    MappedAlone(a, x);
  }

  /** Voiding is a synchronous command of the saga and is not published. */
  function MapInvoiceEvent(e: InvoiceDomain.InvoiceEvent): seq<Event> {
    match e
    case InvoiceIssued(i, at) =>
      [InvoiceIssuedV1(i.id, i.auctionId, i.debtor, i.hammer.amount, i.commission.amount, i.total.amount,
                       i.total.currency, i.dueAt, i.attempt, at)]
    case InvoicePaid(id, auctionId, debtor, total, _, at) =>
      [InvoicePaidV1(id, auctionId, debtor, total.amount, total.currency, at)]
    case InvoiceExpired(id, auctionId, debtor, attempt, at) =>
      [InvoiceExpiredV1(id, auctionId, debtor, attempt, at)]
    case InvoiceVoided(_, _) => []
  }
}
