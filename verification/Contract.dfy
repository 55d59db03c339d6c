/**
  The contract between the auction and the settlement context: what the hammer decides
  is what the saga starts from.
 */
module Contract {
  import opened Base
  import opened Events
  import AuctionDomain
  import opened AuctionRuns
  import opened AuctionRules
  import opened SettlementDomain

  /** What the saga starts from, read off the bid log. */
  function ClosingOn(start: AuctionDomain.AuctionState, bids: seq<AuctionDomain.Bid>): Closing
    requires bids != []
  {
    var n := |bids|;
    var runnerUp := if n > 1 then bids[n - 2] else AuctionDomain.NO_BID;
    Closing(start.id, bids[n - 1].bidder, bids[n - 1].amount, runnerUp.bidder, runnerUp.amount,
            n > 1 && Enough(runnerUp.amount, start.reserve), start.relistGen, InvoiceFor(start.id, 1))
  }

  /**
    Whatever happened before: a closing is settled exactly if there was a bid and the last
    one was enough for the reserve, and the saga then starts with that bid's bidder and
    amount, the bid before it as the runner-up, and whether that one was enough, too.
   */
  lemma ClosingIsAccepted(start: AuctionDomain.AuctionState, cs: seq<Command>, now: Time)
    requires Fresh(start) && forall c | c in cs :: WellTyped(c)
    requires AuctionDomain.Close(Execute(Run(start, []), cs).state, now).Ok?
    ensures var r := Execute(Run(start, []), cs); var bids := Bids(r.log);
      var change := AuctionDomain.Close(r.state, now).value; var es := MapDomainEvents(change.next, change.events);
      var sold := bids != [] && Enough(bids[|bids| - 1].amount, start.reserve);
      && |es| == 1 && es[0].AuctionClosedV1? && RequiresSettlement(es[0].outcome) == Some(sold)
      && (sold ==> BuildClosing(es[0]) == Ok(ClosingOn(start, bids)))
  {
    var r := Execute(Run(start, []), cs);
    VerdictFollowsLog(start, cs, now);
    RunsKeepInv(Run(start, []), cs);
    RunsKeepTerms(start, cs);
    if Bids(r.log) != [] {
      var n := |Bids(r.log)|;
      assert LoggedBid(r.state, Bids(r.log), n - 1);
      if n > 1 { assert LoggedBid(r.state, Bids(r.log), n - 2); }
    }
  }

  /** With any reserve, a runner-up who meets it means that the lot is sold. */
  ghost predicate QualifiedMeansSold(a: AuctionDomain.AuctionState) {
    forall reserve: Money | reserve == ZERO_MONEY || (reserve.Valid() && reserve.currency == a.startPrice.currency) ::
      var h := AuctionDomain.Hammer(a.(reserve := reserve));
      h.runnerUpQualifies ==> h.outcome == AuctionDomain.Sold
  }

  /** That holds exactly if the leading bid is not below the runner-up's. */
  lemma QualifiedMeansSoldIffOrdered(a: AuctionDomain.AuctionState)
    requires Valid(a) && a.runnerUpBid != AuctionDomain.NO_BID
    ensures QualifiedMeansSold(a) <==> a.leadingBid.amount.amount >= a.runnerUpBid.amount.amount
  {
    if a.leadingBid.amount.amount < a.runnerUpBid.amount.amount {
      var h := AuctionDomain.Hammer(a.(reserve := a.runnerUpBid.amount));
      assert h.runnerUpQualifies && h.outcome != AuctionDomain.Sold;
    }
  }

  /** Over any run whose bids keep clear of the int64 limit, the verdict about the runner-up is right. */
  lemma QualifiedMeansBothMeetReserve(start: AuctionDomain.AuctionState, cs: seq<Command>)
    requires Fresh(start) && forall c | c in cs :: WellTyped(c)
    requires forall b | b in Bids(Execute(Run(start, []), cs).log) ::
      b.amount.amount + start.increment.amount <= MAX_INT64
    ensures var a := Execute(Run(start, []), cs).state; var h := AuctionDomain.Hammer(a);
      h.runnerUpQualifies ==>
        && h.outcome == AuctionDomain.Sold
        && Enough(a.leadingBid.amount, a.reserve) && Enough(a.runnerUpBid.amount, a.reserve)
  {
    var r := Execute(Run(start, []), cs);
    RunsKeepInv(Run(start, []), cs);
    TopTwoRefinesLog(start, cs);
    if r.state.runnerUpBid != AuctionDomain.NO_BID {
      var bids := Bids(r.log);
      assert bids[|bids| - 1].amount.amount >= bids[|bids| - 2].amount.amount + start.increment.amount;
    }
  }
}
