/**
  The auction's rules told on times and amounts: when a lot is sold, which bids move the
  deadline, what a listing offers, which refusal a caller hears and what is published.
 */
module AuctionRules {
  import opened Base
  import opened Events
  import opened AuctionDomain
  import opened AuctionRuns

  // ---------- The hammer ----------

  /** The amount is enough for the reserve, if there is one. */
  predicate Enough(amount: Money, reserve: Money) {
    reserve == ZERO_MONEY || (amount.currency == reserve.currency && amount.amount >= reserve.amount)
  }

  /** A listing closes once, and not before its deadline. */
  lemma ClosesIff(a: AuctionState, now: Time)
    ensures var v := Close(a, now);
      && (v.Ok? <==> a.status == Listed && now >= a.window.endsAt)
      && (v == Err(ErrBiddingStillOpen) <==> a.status == Listed && now < a.window.endsAt)
      && (v == Err(ErrAlreadyClosed) <==> a.status == Closed)
      && (v == Err(ErrAuctionCancelled) <==> a.status == Cancelled)
  {
  }

  /** The verdict on a log: the last bid wins if it is enough, the one before it may get a second chance. */
  ghost predicate VerdictOn(bids: seq<Bid>, reserve: Money, result: ClosingResult) {
    var n := |bids|;
    var sold := n > 0 && Enough(bids[n - 1].amount, reserve);
    && result.outcome == (if sold then Sold else NotSold)
    && result.winner == (if sold then bids[n - 1] else NO_BID)
    && result.runnerUp == (if n > 1 then bids[n - 2] else NO_BID)
    && (result.runnerUpQualifies <==> n > 1 && Enough(bids[n - 2].amount, reserve))
  }

  /** The closing as it is published. */
  ghost predicate ClosingTold(start: AuctionState, result: ClosingResult, now: Time, e: Event) {
    e == AuctionClosedV1(
      start.id, start.seller, if result.outcome == Sold then "sold" else "not_sold",
      result.winner.bidder, result.winner.amount.amount, start.startPrice.currency,
      result.runnerUp.bidder, result.runnerUp.amount.amount, result.runnerUpQualifies, start.relistGen, now)
  }

  lemma HammerFalls(a: AuctionState, bids: seq<Bid>, now: Time)
    requires Valid(a) && HeadOfLog(a, bids) && Close(a, now).Ok?
    ensures var change := Close(a, now).value;
      && |change.events| == 1 && change.events[0].AuctionClosed?
      && VerdictOn(bids, a.reserve, change.events[0].result)
      && change.next == a.(status := Closed, outcome := change.events[0].result.outcome)
      && |MapDomainEvents(change.next, change.events)| == 1
      && ClosingTold(a, change.events[0].result, now, MapDomainEvents(change.next, change.events)[0])
  {
    MappedAlone(Close(a, now).value.next, Close(a, now).value.events[0]);
  }

  /**
    The hammer. After any run, a closing sells the lot exactly if there is a bid and the
    last one is enough for the reserve; it names that bid as the winner, the one before it
    as the runner-up, and says of that one whether it is enough, too; and so it is told.
   */
  lemma VerdictFollowsLog(start: AuctionState, cs: seq<Command>, now: Time)
    requires Fresh(start) && forall c | c in cs :: WellTyped(c)
    requires Close(Execute(Run(start, []), cs).state, now).Ok?
    ensures var r := Execute(Run(start, []), cs); var change := Close(r.state, now).value;
      && |change.events| == 1 && change.events[0].AuctionClosed?
      && VerdictOn(Bids(r.log), start.reserve, change.events[0].result)
      && change.next.outcome == change.events[0].result.outcome
      && |MapDomainEvents(change.next, change.events)| == 1
      && ClosingTold(start, change.events[0].result, now, MapDomainEvents(change.next, change.events)[0])
  {
    var r := Execute(Run(start, []), cs);
    RunsKeepInv(Run(start, []), cs);
    RunsKeepTerms(start, cs);
    HammerFalls(r.state, Bids(r.log), now);
  }

  // ---------- The deadline ----------

  /** A bid in the snipe window moves the deadline while extensions are left, and no other does. */
  lemma DeadlineMoves(a: AuctionState, id: Id, b: Bidder, amount: Money, now: Time)
    requires PlaceBid(a, id, b, amount, now).Ok?
    ensures var next := PlaceBid(a, id, b, amount, now).value.next;
      && next.window.startsAt == a.window.startsAt && next.window.originalEndsAt == a.window.originalEndsAt
      && if now >= a.window.endsAt - a.antiSnipe.window && a.extensionsUsed < a.antiSnipe.maxExtensions
         then next.window.endsAt == a.window.endsAt + a.antiSnipe.extension
              && next.extensionsUsed == a.extensionsUsed + 1
         else next.window.endsAt == a.window.endsAt && next.extensionsUsed == a.extensionsUsed
  {
  }

  /** How often the bids of a log have moved the deadline. */
  function Extensions(start: AuctionState, bids: seq<Bid>): nat {
    if bids == [] then 0
    else
      var k := Extensions(start, bids[..|bids| - 1]);
      var deadline := start.window.originalEndsAt + k * start.antiSnipe.extension;
      if bids[|bids| - 1].placedAt >= deadline - start.antiSnipe.window && k < start.antiSnipe.maxExtensions
      then k + 1 else k
  }

  lemma CommandMovesDeadline(start: AuctionState, r: Run, c: Command)
    requires RunInv(r) && SameTerms(start, r.state) && WellTyped(c) && Perform(r.state, c).Ok?
    requires r.state.extensionsUsed == Extensions(start, Bids(r.log))
    ensures Do(r, c).state.extensionsUsed == Extensions(start, Bids(Do(r, c).log))
  {
    BidsOfConcat(r.log, Perform(r.state, c).value.events);
    BidsOfCommand(r.state, c);
    if c.DoBid? {
      var bid := Bid(c.id, c.bidder.id, c.amount, c.now);
      assert (Bids(r.log) + [bid])[..|Bids(r.log)|] == Bids(r.log);
      DeadlineMoves(r.state, c.id, c.bidder, c.amount, c.now);
    } else {
      assert Bids(r.log) + [] == Bids(r.log);
      OthersKeepDeadline(r.state, c);
    }
  }

  lemma OthersKeepDeadline(a: AuctionState, c: Command)
    requires !c.DoBid? && Perform(a, c).Ok?
    ensures Perform(a, c).value.next.window == a.window
    ensures Perform(a, c).value.next.extensionsUsed == a.extensionsUsed
  {
  }

  /** The deadline is a function of the bid log alone: which bids fell into the snipe window of their moment. */
  lemma {:induction false} DeadlineFollowsLog(start: AuctionState, cs: seq<Command>)
    requires Fresh(start) && forall c | c in cs :: WellTyped(c)
    ensures var r := Execute(Run(start, []), cs); var k := Extensions(start, Bids(r.log));
      r.state.extensionsUsed == k
      && r.state.window.endsAt == start.window.originalEndsAt + k * start.antiSnipe.extension
  {
    RunsKeepInv(Run(start, []), cs);
    RunsKeepTerms(start, cs);
    if cs != [] {
      var front := cs[..|cs| - 1];
      DeadlineFollowsLog(start, front);
      RunsKeepInv(Run(start, []), front);
      RunsKeepTerms(start, front);
      var before := Execute(Run(start, []), front);
      if Perform(before.state, cs[|cs| - 1]).Ok? { CommandMovesDeadline(start, before, cs[|cs| - 1]); }
    }
  }

  /** No bid of the log fell into the snipe window of the original deadline. */
  ghost predicate AllEarly(start: AuctionState, bids: seq<Bid>) {
    forall b | b in bids :: b.placedAt < start.window.originalEndsAt - start.antiSnipe.window
  }

  lemma {:induction false} NoneMovesIffEarly(start: AuctionState, bids: seq<Bid>)
    requires start.antiSnipe.maxExtensions > 0
    ensures Extensions(start, bids) == 0 <==> AllEarly(start, bids)
  {
    if bids != [] {
      var front, last := bids[..|bids| - 1], bids[|bids| - 1];
      NoneMovesIffEarly(start, front);
      assert forall b | b in bids :: b in front || b == last;
      assert last in bids && forall b | b in front :: b in bids;
    }
  }

  /** The original deadline stands exactly as long as no bid falls into its snipe window, or none could move it. */
  lemma DeadlineStandsIffBidsAreEarly(start: AuctionState, cs: seq<Command>)
    requires Fresh(start) && forall c | c in cs :: WellTyped(c)
    ensures var r := Execute(Run(start, []), cs);
      r.state.window.endsAt == r.state.window.originalEndsAt
      <==> start.antiSnipe.maxExtensions == 0 || AllEarly(start, Bids(r.log))
  {
    var r := Execute(Run(start, []), cs);
    DeadlineFollowsLog(start, cs);
    RunsKeepTerms(start, cs);
    NeverMoreThanAllowed(start, Bids(r.log));
    MovedIffSome(Extensions(start, Bids(r.log)), start.antiSnipe.extension);
    if start.antiSnipe.maxExtensions > 0 { NoneMovesIffEarly(start, Bids(r.log)); }
  }

  lemma MovedIffSome(k: nat, extension: int)
    requires extension > 0
    ensures k * extension == 0 <==> k == 0
  {
  }

  lemma {:induction false} NeverMoreThanAllowed(start: AuctionState, bids: seq<Bid>)
    ensures Extensions(start, bids) <= start.antiSnipe.maxExtensions
  {
    if bids != [] { NeverMoreThanAllowed(start, bids[..|bids| - 1]); }
  }

  // ---------- What a listing offers ----------

  /** A listing offers what its seller asked for, under the rules of the day. */
  lemma ListingOffersWhatWasAsked(
    id: Id, seller: Id, lot: Lot, startPrice: Money, increment: Money, reserve: Money, window: BiddingWindow,
    rules: ListingRules, now: Time)
    requires NewListing(id, seller, lot, startPrice, increment, reserve, window, rules, now).Ok?
    ensures var v := NewListing(id, seller, lot, startPrice, increment, reserve, window, rules, now).value;
      var a := v.next;
      && a.id == id && a.seller == seller && a.lot == lot && a.window == window
      && a.startPrice == startPrice && a.increment == increment && a.reserve == reserve
      && a.antiSnipe == rules.antiSnipe && a.verifyAbove == rules.verifyAbove
      && a.relistOf == Nil && a.relistGen == 0
      && MapDomainEvents(a, v.events) == [
           AuctionListedV1(id, seller, lot.title, startPrice.amount, startPrice.currency,
                           window.startsAt, window.endsAt, 0, now)]
  {
    var v := NewListing(id, seller, lot, startPrice, increment, reserve, window, rules, now).value;
    MappedAlone(v.next, v.events[0]);
  }

  /** A replacement offers what its original did, in the window it is given. */
  lemma ReplacementOffersTheSame(orig: AuctionState, newId: Id, window: BiddingWindow, now: Time)
    requires newId != Nil && orig.relistGen < 1 && window != NO_WINDOW && window.endsAt > now
    ensures RelistedFrom(orig, newId, window, now).Ok?
    ensures var v := RelistedFrom(orig, newId, window, now).value; var a := v.next;
      && SameOffer(orig, a) && a.id == newId && a.window == window
      && a.relistOf == orig.id && a.relistGen == orig.relistGen + 1
      && MapDomainEvents(a, v.events) == [
           AuctionListedV1(newId, orig.seller, orig.lot.title, orig.startPrice.amount, orig.startPrice.currency,
                           window.startsAt, window.endsAt, orig.relistGen + 1, now),
           AuctionRelistedV1(orig.id, newId, window.startsAt, window.endsAt, now)]
  {
    var v := RelistedFrom(orig, newId, window, now).value;
    assert v.events == [v.events[0], v.events[1]];
    MappedPair(v.next, v.events[0], v.events[1]);
  }

  // ---------- Refusals ----------

  /** Why a replacement is not built. */
  lemma RelistRefusals(orig: AuctionState, newId: Id, window: BiddingWindow, now: Time)
    ensures var v := RelistedFrom(orig, newId, window, now);
      && (v == Err(ErrInvalidID) <==> newId == Nil)
      && (v == Err(ErrRelistLimitReached) <==> newId != Nil && orig.relistGen >= 1)
      && (v == Err(ErrInvalidBiddingWindow) <==>
            newId != Nil && orig.relistGen < 1 && (window == NO_WINDOW || window.endsAt <= now))
      && (v.Ok? <==> newId != Nil && orig.relistGen < 1 && window != NO_WINDOW && window.endsAt > now)
  {
  }

  /** Why a listing is not accepted: the first thing wrong with it. */
  lemma ListingRefusals(
    id: Id, seller: Id, lot: Lot, startPrice: Money, increment: Money, reserve: Money, window: BiddingWindow,
    rules: ListingRules, now: Time)
    ensures var v := NewListing(id, seller, lot, startPrice, increment, reserve, window, rules, now);
      var named := id != Nil && seller != Nil;
      var described := named && lot != Lot("", "") && now != ZERO_TIME;
      var priced := described && startPrice != ZERO_MONEY && startPrice.amount > 0;
      var local := priced && startPrice.currency == rules.currency;
      var stepped := local && increment != ZERO_MONEY && increment.amount > 0;
      var sameCurrency := stepped && increment.currency == startPrice.currency
                          && (reserve == ZERO_MONEY || reserve.currency == startPrice.currency);
      && (v == Err(ErrInvalidID) <==> !named)
      && (v == Err(ErrInvalidLot) <==> named && lot == Lot("", ""))
      && (v == Err(ErrNowIsZero) <==> named && lot != Lot("", "") && now == ZERO_TIME)
      && (v == Err(ErrInvalidStartPrice) <==> described && !priced)
      && (v == Err(ErrUnsupportedCurrency) <==> priced && !local)
      && (v == Err(ErrInvalidIncrement) <==> local && !stepped)
      && (v == Err(ErrCurrencyMismatch) <==> stepped && !sameCurrency)
      && (v == Err(ErrInvalidBiddingWindow) <==> sameCurrency && (window == NO_WINDOW || window.endsAt <= now))
      && (v.Ok? <==> sameCurrency && window != NO_WINDOW && window.endsAt > now)
  {
  }

  /** The least a bid has to offer, as int64. */
  function Minimum(a: AuctionState): int {
    if a.leadingBid == NO_BID then a.startPrice.amount else Wrap64(a.leadingBid.amount.amount + a.increment.amount)
  }

  /** A refused bidder hears the first rule broken, in this order; each answer means what it says. */
  lemma RefusalNamesFirstRule(a: AuctionState, id: Id, b: Bidder, amount: Money, now: Time)
    requires Valid(a) && Constructed(amount)
    ensures var v := PlaceBid(a, id, b, amount, now);
      var known := b.id != Nil;
      var open := known && a.status == Listed && a.window.startsAt <= now < a.window.endsAt;
      var leads := a.leadingBid != NO_BID && a.leadingBid.bidder == b.id;
      var rival := open && b.id != a.seller && !leads;
      var sameCurrency := rival && amount.currency == a.startPrice.currency;
      var topping := sameCurrency && amount.amount >= Minimum(a);
      var trusted := topping && (b.verified || amount.amount < a.verifyAbove.amount);
      && (v == Err(ErrInvalidID) <==> !known)
      && (v == Err(ErrAuctionNotOpen) <==> known && !open)
      && (v == Err(ErrSellerCannotBid) <==> open && b.id == a.seller)
      && (v == Err(ErrLeaderCannotOutbidSelf) <==> open && b.id != a.seller && leads)
      && (v == Err(ErrCurrencyMismatch) <==> rival && !sameCurrency)
      && (v == Err(ErrBidBelowMinimum) <==> sameCurrency && !topping)
      && (v == Err(ErrVerificationRequired) <==> topping && !trusted)
      && (v == Err(ErrInvalidBid) <==> trusted && id == Nil)
      && (v.Ok? <==> trusted && id != Nil)
  {
    assert !ValidCurrency("");
  }

  /** Only the seller withdraws a listing, and only before its first bid. */
  lemma CancelsIff(a: AuctionState, actor: Id, now: Time)
    requires Valid(a)
    ensures var v := Cancel(a, actor, now);
      && (v.Ok? <==> actor == a.seller && a.status == Listed && a.leadingBid == NO_BID)
      && (v == Err(ErrForbidden) <==> actor != a.seller)
      && (v == Err(ErrAuctionHasBids) <==> actor == a.seller && a.status == Listed && a.leadingBid != NO_BID)
      && (v == Err(ErrAuctionCancelled) <==> actor == a.seller && a.status == Cancelled)
      && (v == Err(ErrAlreadyClosed) <==> actor == a.seller && a.status == Closed)
      && (v.Ok? ==> v.value == Change(a.(status := Cancelled), [AuctionCancelled(now)]))
  {
  }

  /** A sale is open between a closing that sold and its verdict. */
  predicate SaleOpen(a: AuctionState) { a.outcome == Sold && !a.settled }

  /** The sale's three moves: when each is possible, what it changes, and what it is told as. */
  lemma SaleMovesIffOpen(a: AuctionState, reason: FailureReason, now: Time)
    requires Valid(a)
    ensures var award := AwardToRunnerUp(a, now);
      && (award.Ok? <==> SaleOpen(a) && a.runnerUpBid != NO_BID)
      && (award.Ok? ==> award.value == Change(
            a.(leadingBid := a.runnerUpBid, runnerUpBid := NO_BID, winnerReassigned := true),
            [WinnerReassigned(a.runnerUpBid, now)]))
    ensures var confirm := ConfirmSettlement(a, now);
      && (confirm.Ok? <==> SaleOpen(a))
      && (confirm.Ok? ==> confirm.value == Change(a.(settled := true), [SaleSettled(now)]))
    ensures var fail := FailSale(a, reason, now);
      && (fail.Ok? <==> SaleOpen(a) && reason != NoReason)
      && (fail.Ok? ==> fail.value == Change(a.(outcome := NotSold, settled := true), [SaleFailed(reason, now)]))
  {
  }

  /** Why a sale does not move: done already, over otherwise, or not closed yet. */
  lemma SaleRefusals(a: AuctionState, reason: FailureReason, now: Time)
    requires Valid(a)
    ensures var award := AwardToRunnerUp(a, now); var open := !a.winnerReassigned;
      && (award == Err(ErrWinnerAlreadyReassigned) <==> !open)
      && (award == Err(ErrAuctionCancelled) <==> a.status == Cancelled)
      && (award == Err(ErrBiddingStillOpen) <==> a.status == Listed)
      && (award == Err(ErrSaleAlreadyFailed) <==> open && a.settled && a.outcome == NotSold)
      && (award == Err(ErrAlreadySettled) <==> open && a.settled && a.outcome == Sold)
      && (award == Err(ErrNoQualifyingRunnerUp) <==>
            open && !a.settled && a.status == Closed && (a.outcome == NotSold || a.runnerUpBid == NO_BID))
    ensures var confirm := ConfirmSettlement(a, now);
      && (confirm == Err(ErrAuctionCancelled) <==> a.status == Cancelled)
      && (confirm == Err(ErrBiddingStillOpen) <==> a.status == Listed)
      && (confirm == Err(ErrSaleAlreadyFailed) <==> a.outcome == NotSold)
      && (confirm == Err(ErrAlreadySettled) <==> a.outcome == Sold && a.settled)
    ensures var fail := FailSale(a, reason, now); var named := reason != NoReason;
      && (fail == Err(ErrInvalidFailureReason) <==> !named)
      && (fail == Err(ErrAuctionCancelled) <==> named && a.status == Cancelled)
      && (fail == Err(ErrBiddingStillOpen) <==> named && a.status == Listed)
      && (fail == Err(ErrSaleAlreadyFailed) <==> named && a.outcome == NotSold)
      && (fail == Err(ErrAlreadySettled) <==> named && a.outcome == Sold && a.settled)
  {
  }

  // ---------- What is published ----------

  /** What an accepted command publishes, field by field. */
  ghost predicate Tells(a: AuctionState, c: Command, e: Event) {
    match c
    case DoBid(id, b, amount, now) =>
      var late := now >= a.window.endsAt - a.antiSnipe.window && a.extensionsUsed < a.antiSnipe.maxExtensions;
      e == BidPlacedV1(
        a.id, id, b.id, amount.amount, a.startPrice.currency, a.bidCount + 1, late,
        a.window.endsAt + (if late then a.antiSnipe.extension else 0), a.leadingBid.bidder, now)
    case DoCancel(_, now) => e == AuctionCancelledV1(a.id, a.seller, now)
    case DoClose(now) =>
      && e.AuctionClosedV1? && e.auctionId == a.id && e.sellerId == a.seller && e.currency == a.startPrice.currency
      && e.relistGeneration == a.relistGen && e.at == now
      && e.runnerUpBidderId == a.runnerUpBid.bidder && e.runnerUpAmountMinor == a.runnerUpBid.amount.amount
      && (e.runnerUpQualifies <==> a.runnerUpBid != NO_BID && Enough(a.runnerUpBid.amount, a.reserve))
      && if a.leadingBid != NO_BID && Enough(a.leadingBid.amount, a.reserve)
         then e.outcome == "sold" && e.winnerId == a.leadingBid.bidder
              && e.hammerPriceMinor == a.leadingBid.amount.amount
         else e.outcome == "not_sold" && e.winnerId == Nil && e.hammerPriceMinor == 0
    case DoAward(now) =>
      e == WinnerReassignedV1(a.id, a.runnerUpBid.bidder, a.runnerUpBid.amount.amount, a.startPrice.currency, now)
    case DoConfirm(now) => e == SaleSettledV1(a.id, a.leadingBid.bidder, now)
    case DoFail(reason, now) => e == SaleFailedV1(a.id, reason, now)
  }

  lemma BidTells(a: AuctionState, c: Command)
    requires c.DoBid? && Perform(a, c).Ok?
    ensures var change := Perform(a, c).value; var es := MapDomainEvents(change.next, change.events);
      |es| == 1 && Tells(a, c, es[0])
  {
    var change := Perform(a, c).value;
    var placed := change.events[|change.events| - 1];
    MappedAlone(change.next, placed);
    if |change.events| == 2 {
      MappedExtended(change.next, change.events[0], placed);
      assert change.events == [change.events[0], placed];
    } else {
      assert change.events == [placed];
    }
  }

  /** Every accepted command is told once, in full and truly. */
  lemma CommandTells(a: AuctionState, c: Command)
    requires Perform(a, c).Ok?
    ensures var change := Perform(a, c).value; var es := MapDomainEvents(change.next, change.events);
      |es| == 1 && Tells(a, c, es[0])
  {
    if c.DoBid? {
      BidTells(a, c);
    } else {
      var change := Perform(a, c).value;
      assert change.events == [change.events[0]];
      MappedAlone(change.next, change.events[0]);
    }
  }
}
