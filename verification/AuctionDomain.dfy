/**
  The auction aggregate as a value: what each command makes of it and which
  events it records, with the guards in the order of the program.
 */
module AuctionDomain {
  import opened Base

  datatype Status = Listed | Cancelled | Closed

  datatype Outcome = NoOutcome | Sold | NotSold

  datatype Lot = Lot(title: string, description: string)

  predicate IsBlank(s: string) {
    forall i | 0 <= i < |s| :: s[i] in {' ', '\t', '\n', '\r'}
  }

  datatype Bid = Bid(id: Id, bidder: Id, amount: Money, placedAt: Time)

  const NO_BID := Bid(Nil, Nil, ZERO_MONEY, ZERO_TIME)

  function NewBid(id: Id, bidder: Id, amount: Money, placedAt: Time): Option<Bid> {
    if id == Nil || bidder == Nil || amount == ZERO_MONEY || placedAt == ZERO_TIME then None
    else Some(Bid(id, bidder, amount, placedAt))
  }

  datatype Bidder = Bidder(id: Id, verified: bool)

  datatype BiddingWindow = BiddingWindow(startsAt: Time, endsAt: Time, originalEndsAt: Time) {

    predicate IsOpenAt(now: Time) {
      startsAt <= now < endsAt
    }

    function ExtendedBy(d: Duration): BiddingWindow
      requires endsAt + d >= 0
    {
      BiddingWindow(startsAt, endsAt + d, originalEndsAt)
    }
  }

  const NO_WINDOW := BiddingWindow(ZERO_TIME, ZERO_TIME, ZERO_TIME)

  function NewBiddingWindow(startsAt: Time, endsAt: Time): Option<BiddingWindow> {
    if startsAt == ZERO_TIME || endsAt == ZERO_TIME || endsAt <= startsAt then None
    else Some(BiddingWindow(startsAt, endsAt, endsAt))
  }

  function UnmarshalBiddingWindow(startsAt: Time, endsAt: Time, originalEndsAt: Time): Option<BiddingWindow> {
    if startsAt == ZERO_TIME || endsAt == ZERO_TIME || originalEndsAt == ZERO_TIME then None
    else if endsAt <= startsAt || endsAt < originalEndsAt then None
    else Some(BiddingWindow(startsAt, endsAt, originalEndsAt))
  }

  datatype AntiSnipePolicy = RawPolicy(window: Duration, extension: Duration, maxExtensions: int) {
    predicate Valid() {
      window > 0 && extension > 0 && maxExtensions >= 0
    }

    predicate TriggersAt(now: Time, endsAt: Time) {
      now >= endsAt - window
    }
  }

  /** The constructor rejects everything else, so no other policy exists. */
  type Policy = p: AntiSnipePolicy | p.Valid() witness RawPolicy(1, 1, 0)

  function NewAntiSnipePolicy(window: Duration, extension: Duration, maxExtensions: int): Option<Policy> {
    if window <= 0 || extension <= 0 || maxExtensions < 0 then None
    else Some(RawPolicy(window, extension, maxExtensions))
  }

  datatype ListingRules = ListingRules(currency: Currency, verifyAbove: Money, antiSnipe: Policy) {
    /** What NewListingRules admits. */
    ghost predicate Valid() {
      ValidCurrency(currency) && verifyAbove.Valid() && verifyAbove.currency == currency
    }
  }

  /** A zero reserve is met by any amount; a foreign currency never meets a reserve. */
  predicate MetBy(reserve: Money, amount: Money) {
    reserve == ZERO_MONEY || amount.GTE(reserve) == Some(true)
  }

  datatype ClosingResult = ClosingResult(outcome: Outcome, winner: Bid, runnerUp: Bid, runnerUpQualifies: bool)

  datatype DomainEvent =
    | AuctionListed(at: Time)
    | BidPlaced(bid: Bid, outbid: Bid, newEndsAt: Time, extended: bool, at: Time)
    | AuctionExtended(newEndsAt: Time, at: Time)
    | AuctionCancelled(at: Time)
    | AuctionClosed(result: ClosingResult, at: Time)
    | WinnerReassigned(newWinner: Bid, at: Time)
    | AuctionRelisted(originalId: Id, newId: Id, startsAt: Time, endsAt: Time, at: Time)
    | SaleSettled(at: Time)
    | SaleFailed(reason: FailureReason, at: Time)

  datatype AuctionError =
    | ErrAuctionNotOpen
    | ErrSellerCannotBid
    | ErrLeaderCannotOutbidSelf
    | ErrCurrencyMismatch
    | ErrBidBelowMinimum
    | ErrVerificationRequired
    | ErrUnsupportedCurrency
    | ErrAuctionHasBids
    | ErrAlreadyClosed
    | ErrAuctionCancelled
    | ErrBiddingStillOpen
    | ErrNoQualifyingRunnerUp
    | ErrWinnerAlreadyReassigned
    | ErrRelistLimitReached
    | ErrAlreadyRelisted
    | ErrAlreadySettled
    | ErrSaleAlreadyFailed
    | ErrInvalidID
    | ErrInvalidLot
    | ErrInvalidStartPrice
    | ErrInvalidIncrement
    | ErrInvalidBiddingWindow
    | ErrInvalidBid
    | ErrInvalidFailureReason
    | ErrForbidden
    | ErrNowIsZero
    | ErrInvalidVersion
    | ErrNotFound
    | Panicked

  /** The aggregate without its recorded events: what a repository stores. */
  datatype AuctionState = AuctionState(
    id: Id,
    seller: Id,
    lot: Lot,
    startPrice: Money,
    increment: Money,
    reserve: Money,
    window: BiddingWindow,
    antiSnipe: Policy,
    verifyAbove: Money,
    extensionsUsed: int,
    status: Status,
    outcome: Outcome,
    leadingBid: Bid,
    runnerUpBid: Bid,
    winnerReassigned: bool,
    bidCount: int,
    relistOf: Id,
    relistGen: int,
    settled: bool,
    version: int)
  {
    predicate HasBids() { bidCount > 0 }
  }

  /** A successful command: the next value and the events it recorded. */
  datatype Change = Change(next: AuctionState, events: seq<DomainEvent>)

  type Verdict = Result<Change, AuctionError>

  // ---------- Factories ----------

  function NewListing(id: Id, seller: Id, lot: Lot, startPrice: Money, increment: Money, reserve: Money,
                      window: BiddingWindow, rules: ListingRules, now: Time): Verdict
  {
    if id == Nil || seller == Nil then Err(ErrInvalidID)
    else if lot == Lot("", "") then Err(ErrInvalidLot)
    else if now == ZERO_TIME then Err(ErrNowIsZero)
    else if startPrice == ZERO_MONEY || startPrice.amount <= 0 then Err(ErrInvalidStartPrice)
    else if startPrice.currency != rules.currency then Err(ErrUnsupportedCurrency)
    else if increment == ZERO_MONEY || increment.amount <= 0 then Err(ErrInvalidIncrement)
    else if increment.currency != startPrice.currency then Err(ErrCurrencyMismatch)
    else if reserve != ZERO_MONEY && reserve.currency != startPrice.currency then Err(ErrCurrencyMismatch)
    else if window == NO_WINDOW then Err(ErrInvalidBiddingWindow)
    else if window.endsAt <= now then Err(ErrInvalidBiddingWindow)
    else
      Ok(Change(
        AuctionState(
          id, seller, lot, startPrice, increment, reserve, window, rules.antiSnipe, rules.verifyAbove,
          0, Listed, NoOutcome, NO_BID, NO_BID, false, 0, Nil, 0, false, 1),
        [AuctionListed(now)]))
  }

  function RelistedFrom(orig: AuctionState, newId: Id, window: BiddingWindow, now: Time): Verdict {
    if newId == Nil then Err(ErrInvalidID)
    else if orig.relistGen >= 1 then Err(ErrRelistLimitReached)
    else if window == NO_WINDOW || window.endsAt <= now then Err(ErrInvalidBiddingWindow)
    else
      Ok(Change(
        AuctionState(
          newId, orig.seller, orig.lot, orig.startPrice, orig.increment, orig.reserve, window,
          orig.antiSnipe, orig.verifyAbove,
          0, Listed, NoOutcome, NO_BID, NO_BID, false, 0, orig.id, orig.relistGen + 1, false, 1),
        [AuctionListed(now), AuctionRelisted(orig.id, newId, window.startsAt, window.endsAt, now)]))
  }

  // ---------- Commands ----------

  /** None where the program panics: the leading bid and the increment have diverging currencies. */
  function MinimalNextBid(a: AuctionState): Option<Money> {
    if a.leadingBid == NO_BID then Some(a.startPrice) else a.leadingBid.amount.Add(a.increment)
  }

  /** The guard cascade of PlaceBid; None means the bid is accepted. */
  function BidRefusal(a: AuctionState, id: Id, b: Bidder, amount: Money, now: Time): Option<AuctionError> {
    if b.id == Nil then Some(ErrInvalidID)
    else if a.status != Listed || !a.window.IsOpenAt(now) then Some(ErrAuctionNotOpen)
    else if b.id == a.seller then Some(ErrSellerCannotBid)
    else if a.leadingBid != NO_BID && a.leadingBid.bidder == b.id then Some(ErrLeaderCannotOutbidSelf)
    else if amount.currency != a.startPrice.currency then Some(ErrCurrencyMismatch)
    else if MinimalNextBid(a).None? then Some(Panicked)
    else if amount.GTE(MinimalNextBid(a).value) != Some(true) then Some(ErrBidBelowMinimum)
    else if !b.verified && amount.GTE(a.verifyAbove) != Some(false) then Some(ErrVerificationRequired)
    else if NewBid(id, b.id, amount, now).None? then Some(ErrInvalidBid)
    else None
  }

  /** A bid in the snipe window pushes the deadline while extensions are left. */
  predicate Extends(a: AuctionState, now: Time) {
    a.antiSnipe.TriggersAt(now, a.window.endsAt) && a.extensionsUsed < a.antiSnipe.maxExtensions
  }

  function Promoted(a: AuctionState, bid: Bid): AuctionState {
    a.(runnerUpBid := a.leadingBid, leadingBid := bid, bidCount := a.bidCount + 1)
  }

  function Extended(a: AuctionState): AuctionState {
    a.(window := a.window.ExtendedBy(a.antiSnipe.extension), extensionsUsed := a.extensionsUsed + 1)
  }

  function PlaceBid(a: AuctionState, id: Id, b: Bidder, amount: Money, now: Time): Verdict {
    match BidRefusal(a, id, b, amount, now)
    case Some(e) => Err(e)
    case None =>
      var bid := Bid(id, b.id, amount, now);
      if Extends(a, now) then
        var next := Extended(Promoted(a, bid));
        Ok(Change(next, [AuctionExtended(next.window.endsAt, now),
                         BidPlaced(bid, a.leadingBid, next.window.endsAt, true, now)]))
      else
        Ok(Change(Promoted(a, bid), [BidPlaced(bid, a.leadingBid, a.window.endsAt, false, now)]))
  }

  function Cancel(a: AuctionState, actor: Id, now: Time): Verdict {
    if actor != a.seller then Err(ErrForbidden)
    else if a.status == Cancelled then Err(ErrAuctionCancelled)
    else if a.status == Closed then Err(ErrAlreadyClosed)
    else if a.HasBids() then Err(ErrAuctionHasBids)
    else Ok(Change(a.(status := Cancelled), [AuctionCancelled(now)]))
  }

  /** The verdict of the hammer, fixed by the top two bids and the reserve. */
  function Hammer(a: AuctionState): ClosingResult {
    var sold := a.leadingBid != NO_BID && MetBy(a.reserve, a.leadingBid.amount);
    ClosingResult(
      if sold then Sold else NotSold,
      if sold then a.leadingBid else NO_BID,
      a.runnerUpBid,
      a.runnerUpBid != NO_BID && MetBy(a.reserve, a.runnerUpBid.amount))
  }

  function Close(a: AuctionState, now: Time): Verdict {
    if a.status == Closed then Err(ErrAlreadyClosed)
    else if a.status == Cancelled then Err(ErrAuctionCancelled)
    else if now < a.window.endsAt then Err(ErrBiddingStillOpen)
    else Ok(Change(a.(status := Closed, outcome := Hammer(a).outcome), [AuctionClosed(Hammer(a), now)]))
  }

  function AwardToRunnerUp(a: AuctionState, now: Time): Verdict {
    if a.winnerReassigned then Err(ErrWinnerAlreadyReassigned)
    else if a.status == Cancelled then Err(ErrAuctionCancelled)
    else if a.status == Listed then Err(ErrBiddingStillOpen)
    else if a.settled then Err(if a.outcome == NotSold then ErrSaleAlreadyFailed else ErrAlreadySettled)
    else if a.outcome != Sold || a.runnerUpBid == NO_BID then Err(ErrNoQualifyingRunnerUp)
    else
      Ok(Change(a.(leadingBid := a.runnerUpBid, runnerUpBid := NO_BID, winnerReassigned := true),
                [WinnerReassigned(a.runnerUpBid, now)]))
  }

  function ConfirmSettlement(a: AuctionState, now: Time): Verdict {
    if a.status == Cancelled then Err(ErrAuctionCancelled)
    else if a.status == Listed then Err(ErrBiddingStillOpen)
    else if a.outcome != Sold then Err(ErrSaleAlreadyFailed)
    else if a.settled then Err(ErrAlreadySettled)
    else Ok(Change(a.(settled := true), [SaleSettled(now)]))
  }

  function FailSale(a: AuctionState, reason: FailureReason, now: Time): Verdict {
    if reason == NoReason then Err(ErrInvalidFailureReason)
    else if a.status == Cancelled then Err(ErrAuctionCancelled)
    else if a.status == Listed then Err(ErrBiddingStillOpen)
    else if a.outcome == NotSold then Err(ErrSaleAlreadyFailed)
    else if a.settled then Err(ErrAlreadySettled)
    else Ok(Change(a.(outcome := NotSold, settled := true), [SaleFailed(reason, now)]))
  }

  /** Structural checks only, as when a row is read back. */
  function UnmarshalFromDatabase(a: AuctionState): Result<AuctionState, AuctionError> {
    if a.id == Nil || a.seller == Nil then Err(ErrInvalidID)
    else if a.window == NO_WINDOW then Err(ErrInvalidBiddingWindow)
    else if a.version < 1 then Err(ErrInvalidVersion)
    else Ok(a)
  }
}
