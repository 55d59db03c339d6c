/**
  The auction aggregate as the mutable object the program works on. Every method
  either leaves the object alone and reports the error the specification names,
  or moves it to the specified value and appends the specified events.
 */
module AuctionAggregate {
  import opened Base
  import opened AuctionDomain

  class Auction {
    const id: Id
    const seller: Id
    const lot: Lot
    const startPrice: Money
    const increment: Money
    const reserve: Money
    var window: BiddingWindow
    const antiSnipe: Policy
    const verifyAbove: Money
    var extensionsUsed: int
    var status: Status
    var outcome: Outcome
    var leadingBid: Bid
    var runnerUpBid: Bid
    var winnerReassigned: bool
    var bidCount: int
    const relistOf: Id
    const relistGen: int
    var settled: bool
    const version: int
    var events: seq<DomainEvent>

    function State(): AuctionState
      reads this
    {
      AuctionState(id, seller, lot, startPrice, increment, reserve, window, antiSnipe, verifyAbove,
                   extensionsUsed, status, outcome, leadingBid, runnerUpBid, winnerReassigned, bidCount,
                   relistOf, relistGen, settled, version)
    }

    constructor Rehydrate(a: AuctionState)
      ensures State() == a && events == []
    {
      id, seller, lot := a.id, a.seller, a.lot;
      startPrice, increment, reserve := a.startPrice, a.increment, a.reserve;
      window, antiSnipe, verifyAbove, extensionsUsed := a.window, a.antiSnipe, a.verifyAbove, a.extensionsUsed;
      status, outcome, leadingBid, runnerUpBid := a.status, a.outcome, a.leadingBid, a.runnerUpBid;
      winnerReassigned, bidCount, settled := a.winnerReassigned, a.bidCount, a.settled;
      relistOf, relistGen, version := a.relistOf, a.relistGen, a.version;
      events := [];
    }

    /** The object moved as specified from the value `was` with events `log`. */
    ghost predicate Moved(v: Verdict, was: AuctionState, log: seq<DomainEvent>)
      reads this
    {
      match v
      case Ok(c) => State() == c.next && events == log + c.events
      case Err(_) => State() == was && events == log
    }

    method Record(e: DomainEvent)
      modifies this`events
      ensures events == old(events) + [e]
    {
      events := events + [e];
    }

    method PullDomainEvents() returns (pulled: seq<DomainEvent>)
      modifies this`events
      ensures pulled == old(events) && events == []
    {
      pulled := events;
      events := [];
    }

    /** The guard cascade of PlaceBid, run on the fields. */
    method Guard(bidId: Id, b: Bidder, amount: Money, now: Time) returns (refusal: Option<AuctionError>)
      ensures refusal == BidRefusal(State(), bidId, b, amount, now)
    {
      if b.id == Nil { return Some(ErrInvalidID); }
      if status != Listed || !window.IsOpenAt(now) { return Some(ErrAuctionNotOpen); }
      if b.id == seller { return Some(ErrSellerCannotBid); }
      if leadingBid != NO_BID && leadingBid.bidder == b.id { return Some(ErrLeaderCannotOutbidSelf); }
      if amount.currency != startPrice.currency { return Some(ErrCurrencyMismatch); }
      var minNext := MinimalNextBid(State());
      if minNext.None? { return Some(Panicked); }
      if amount.GTE(minNext.value) != Some(true) { return Some(ErrBidBelowMinimum); }
      if !b.verified {
        var needsVerification := amount.GTE(verifyAbove);
        if needsVerification != Some(false) { return Some(ErrVerificationRequired); }
      }
      if NewBid(bidId, b.id, amount, now).None? { return Some(ErrInvalidBid); }
      return None;
    }

    method PlaceBid(bidId: Id, b: Bidder, amount: Money, now: Time) returns (r: Result<Bid, AuctionError>)
      modifies this
      ensures var v := AuctionDomain.PlaceBid(old(State()), bidId, b, amount, now);
        && Moved(v, old(State()), old(events))
        && r == (if v.Err? then Err(v.error) else Ok(v.value.next.leadingBid))
    {
      var refusal := Guard(bidId, b, amount, now);
      if refusal.Some? { return Err(refusal.value); }
      var bid := Bid(bidId, b.id, amount, now);
      var outbid := leadingBid;
      runnerUpBid := leadingBid;
      leadingBid := bid;
      bidCount := bidCount + 1;

      var extended := false;
      if antiSnipe.TriggersAt(now, window.endsAt) && extensionsUsed < antiSnipe.maxExtensions {
        window := window.ExtendedBy(antiSnipe.extension);
        extensionsUsed := extensionsUsed + 1;
        extended := true;
        Record(AuctionExtended(window.endsAt, now));
      }
      Record(BidPlaced(bid, outbid, window.endsAt, extended, now));
      return Ok(bid);
    }

    method Cancel(actor: Id, now: Time) returns (r: Option<AuctionError>)
      modifies this
      ensures var v := AuctionDomain.Cancel(old(State()), actor, now);
        Moved(v, old(State()), old(events)) && r == (if v.Err? then Some(v.error) else None)
    {
      if actor != seller { return Some(ErrForbidden); }
      match status {
        case Cancelled => return Some(ErrAuctionCancelled);
        case Closed => return Some(ErrAlreadyClosed);
        case Listed =>
      }
      if bidCount > 0 { return Some(ErrAuctionHasBids); }
      status := Cancelled;
      Record(AuctionCancelled(now));
      return None;
    }

    method Close(now: Time) returns (r: Result<ClosingResult, AuctionError>)
      modifies this
      ensures var v := AuctionDomain.Close(old(State()), now);
        && Moved(v, old(State()), old(events))
        && r == (if v.Err? then Err(v.error) else Ok(Hammer(old(State()))))
    {
      match status {
        case Closed => return Err(ErrAlreadyClosed);
        case Cancelled => return Err(ErrAuctionCancelled);
        case Listed =>
      }
      if now < window.endsAt { return Err(ErrBiddingStillOpen); }
      var sold := leadingBid != NO_BID && MetBy(reserve, leadingBid.amount);
      status := Closed;
      if sold { outcome := Sold; } else { outcome := NotSold; }
      var result := ClosingResult(outcome, NO_BID, runnerUpBid,
                                  runnerUpBid != NO_BID && MetBy(reserve, runnerUpBid.amount));
      if sold { result := result.(winner := leadingBid); }
      Record(AuctionClosed(result, now));
      return Ok(result);
    }

    method AwardToRunnerUp(now: Time) returns (r: Result<Bid, AuctionError>)
      modifies this
      ensures var v := AuctionDomain.AwardToRunnerUp(old(State()), now);
        && Moved(v, old(State()), old(events))
        && r == (if v.Err? then Err(v.error) else Ok(v.value.next.leadingBid))
    {
      if winnerReassigned { return Err(ErrWinnerAlreadyReassigned); }
      match status {
        case Cancelled => return Err(ErrAuctionCancelled);
        case Listed => return Err(ErrBiddingStillOpen);
        case Closed =>
      }
      if settled {
        if outcome == NotSold { return Err(ErrSaleAlreadyFailed); }
        return Err(ErrAlreadySettled);
      }
      if outcome != Sold || runnerUpBid == NO_BID { return Err(ErrNoQualifyingRunnerUp); }
      leadingBid := runnerUpBid;
      runnerUpBid := NO_BID;
      winnerReassigned := true;
      Record(WinnerReassigned(leadingBid, now));
      return Ok(leadingBid);
    }

    method ConfirmSettlement(now: Time) returns (r: Option<AuctionError>)
      modifies this
      ensures var v := AuctionDomain.ConfirmSettlement(old(State()), now);
        Moved(v, old(State()), old(events)) && r == (if v.Err? then Some(v.error) else None)
    {
      match status {
        case Cancelled => return Some(ErrAuctionCancelled);
        case Listed => return Some(ErrBiddingStillOpen);
        case Closed =>
      }
      if outcome != Sold { return Some(ErrSaleAlreadyFailed); }
      if settled { return Some(ErrAlreadySettled); }
      settled := true;
      Record(SaleSettled(now));
      return None;
    }

    method FailSale(reason: FailureReason, now: Time) returns (r: Option<AuctionError>)
      modifies this
      ensures var v := AuctionDomain.FailSale(old(State()), reason, now);
        Moved(v, old(State()), old(events)) && r == (if v.Err? then Some(v.error) else None)
    {
      if reason == NoReason { return Some(ErrInvalidFailureReason); }
      match status {
        case Cancelled => return Some(ErrAuctionCancelled);
        case Listed => return Some(ErrBiddingStillOpen);
        case Closed =>
      }
      if outcome == NotSold { return Some(ErrSaleAlreadyFailed); }
      if settled { return Some(ErrAlreadySettled); }
      outcome := NotSold;
      settled := true;
      Record(SaleFailed(reason, now));
      return None;
    }
  }
}
