/**
  Whole runs of one auction: any sequence of commands, accepted or refused, at any
  clock readings, from a fresh listing.

  Three accounts of the same run are compared: the aggregate (which keeps only the
  top two bids), the bid log the repository appends, and the recorded events.
 */
module AuctionRuns {
  import opened Base
  import opened AuctionDomain

  datatype Command =
    | DoBid(id: Id, bidder: Bidder, amount: Money, now: Time)
    | DoCancel(actor: Id, now: Time)
    | DoClose(now: Time)
    | DoAward(now: Time)
    | DoConfirm(now: Time)
    | DoFail(reason: FailureReason, now: Time)

  /** Money reaches a command only through its constructor or as the zero value. */
  ghost predicate Constructed(m: Money) {
    m == ZERO_MONEY || m.Valid()
  }

  ghost predicate WellTyped(c: Command) {
    c.DoBid? ==> Constructed(c.amount)
  }

  function Perform(a: AuctionState, c: Command): Verdict {
    match c
    case DoBid(id, b, amount, now) => PlaceBid(a, id, b, amount, now)
    case DoCancel(actor, now) => Cancel(a, actor, now)
    case DoClose(now) => Close(a, now)
    case DoAward(now) => AwardToRunnerUp(a, now)
    case DoConfirm(now) => ConfirmSettlement(a, now)
    case DoFail(reason, now) => FailSale(a, reason, now)
  }

  /** An aggregate together with every event it has recorded. */
  datatype Run = Run(state: AuctionState, log: seq<DomainEvent>)

  /** A refused command rolls back: nothing changes, nothing is recorded. */
  function Do(r: Run, c: Command): Run {
    match Perform(r.state, c)
    case Ok(change) => Run(change.next, r.log + change.events)
    case Err(_) => r
  }

  function Execute(r: Run, cs: seq<Command>): Run {
    if cs == [] then r else Do(Execute(r, cs[..|cs| - 1]), cs[|cs| - 1])
  }

  // ---------- What every reachable aggregate satisfies ----------

  /** The terms fixed at listing time. */
  ghost predicate ValidTerms(a: AuctionState) {
    && a.id != Nil && a.seller != Nil
    && !IsBlank(a.lot.title)
    && a.startPrice.Valid() && a.startPrice.amount > 0
    && a.increment.Valid() && a.increment.amount > 0 && a.increment.currency == a.startPrice.currency
    && (a.reserve == ZERO_MONEY
        || (a.reserve.Valid() && a.reserve.amount > 0 && a.reserve.currency == a.startPrice.currency))
    && a.verifyAbove.Valid() && a.verifyAbove.currency == a.startPrice.currency
    && ((a.relistOf == Nil && a.relistGen == 0) || (a.relistOf != Nil && a.relistGen == 1))
    && a.version >= 1
  }

  /** The deadline is the original one plus the extensions used, which are capped. */
  ghost predicate ValidDeadline(a: AuctionState) {
    && ZERO_TIME < a.window.startsAt < a.window.originalEndsAt <= a.window.endsAt
    && 0 <= a.extensionsUsed <= a.antiSnipe.maxExtensions
    && a.window.endsAt == a.window.originalEndsAt + a.extensionsUsed * a.antiSnipe.extension
  }

  ghost predicate ValidBid(a: AuctionState, b: Bid) {
    && b.id != Nil && b.bidder != Nil && b.bidder != a.seller && b.placedAt != ZERO_TIME
    && b.amount.Valid() && b.amount.currency == a.startPrice.currency
  }

  ghost predicate ValidBids(a: AuctionState) {
    && (a.leadingBid == NO_BID || ValidBid(a, a.leadingBid))
    && (a.runnerUpBid == NO_BID || ValidBid(a, a.runnerUpBid))
    && a.bidCount >= 0
    && (a.leadingBid == NO_BID <==> a.bidCount == 0)
    && (a.runnerUpBid != NO_BID <==> a.bidCount >= 2 && !a.winnerReassigned)
    && (a.runnerUpBid != NO_BID ==> a.runnerUpBid.bidder != a.leadingBid.bidder)
  }

  ghost predicate ValidLife(a: AuctionState) {
    && (a.outcome == NoOutcome <==> a.status != Closed)
    && (a.status == Cancelled ==> a.bidCount == 0)
    && (a.settled || a.winnerReassigned ==> a.status == Closed)
    && (a.winnerReassigned ==> a.outcome == Sold || a.settled)
    && (a.outcome == Sold ==> a.leadingBid != NO_BID)
  }

  ghost predicate Valid(a: AuctionState) {
    ValidTerms(a) && ValidDeadline(a) && ValidBids(a) && ValidLife(a)
  }

  /** A freshly listed auction, before its first command. */
  ghost predicate Fresh(a: AuctionState) {
    && Valid(a)
    && a.status == Listed && a.bidCount == 0 && a.extensionsUsed == 0
    && !a.settled && !a.winnerReassigned
  }

  /** What bidders are offered: the lot, its prices and the rules that go with it. */
  predicate SameOffer(x: AuctionState, y: AuctionState) {
    && y.seller == x.seller && y.lot == x.lot
    && y.startPrice == x.startPrice && y.increment == x.increment && y.reserve == x.reserve
    && y.antiSnipe == x.antiSnipe && y.verifyAbove == x.verifyAbove
  }

  /**
    Both factories yield fresh listings in the window they are given, one with the prices
    asked for, the other with its original's offer; a replacement of a replacement is
    impossible.
   */
  lemma FactoriesListFresh(
    orig: AuctionState, id: Id, seller: Id, lot: Lot, startPrice: Money, increment: Money, reserve: Money,
    startsAt: Time, endsAt: Time, rules: ListingRules, now: Time)
    requires Constructed(startPrice) && Constructed(increment)
    requires Constructed(reserve) && (reserve == ZERO_MONEY || reserve.amount > 0)
    requires !IsBlank(lot.title) && rules.Valid()
    requires Valid(orig)
    ensures var w := NewBiddingWindow(startsAt, endsAt); w.Some? ==>
      var v := NewListing(id, seller, lot, startPrice, increment, reserve, w.value, rules, now);
      v.Ok? ==>
        && Fresh(v.value.next) && v.value.next.relistOf == Nil && v.value.next.window == w.value
        && v.value.next.startPrice == startPrice && v.value.next.increment == increment
        && v.value.next.reserve == reserve
    ensures var w := NewBiddingWindow(startsAt, endsAt); w.Some? ==>
      var v := RelistedFrom(orig, id, w.value, now);
      v.Ok? ==>
        && Fresh(v.value.next) && v.value.next.relistOf == orig.id && orig.relistOf == Nil
        && SameOffer(orig, v.value.next) && v.value.next.window == w.value
  {
  }

  /** Commands never touch the terms, so a store may leave those columns alone. */
  ghost predicate SameTerms(a: AuctionState, b: AuctionState) {
    b == a.(window := b.window, extensionsUsed := b.extensionsUsed, status := b.status, outcome := b.outcome,
            leadingBid := b.leadingBid, runnerUpBid := b.runnerUpBid, winnerReassigned := b.winnerReassigned,
            bidCount := b.bidCount, settled := b.settled)
    && b.window.startsAt == a.window.startsAt && b.window.originalEndsAt == a.window.originalEndsAt
  }

  lemma BidKeepsDeadline(a: AuctionState)
    requires ValidDeadline(a) && a.extensionsUsed < a.antiSnipe.maxExtensions
    ensures ValidDeadline(Extended(a)) && Extended(a).window.endsAt > a.window.endsAt
  {
    assert (a.extensionsUsed + 1) * a.antiSnipe.extension
        == a.extensionsUsed * a.antiSnipe.extension + a.antiSnipe.extension;
  }

  /** No command breaks the aggregate, changes its terms, or reaches the currency panic. */
  lemma CommandKeepsValid(a: AuctionState, c: Command)
    requires Valid(a) && WellTyped(c)
    ensures Perform(a, c) != Err(Panicked)
    ensures Perform(a, c).Ok? ==> Valid(Perform(a, c).value.next) && SameTerms(a, Perform(a, c).value.next)
  {
    if c.DoBid? && Perform(a, c).Ok? && Extends(a, c.now) {
      BidKeepsDeadline(a);
    }
  }

  // ---------- The bid log ----------

  function Bids(log: seq<DomainEvent>): seq<Bid> {
    if log == [] then []
    else
      var e := log[|log| - 1];
      Bids(log[..|log| - 1]) + (if e.BidPlaced? then [e.bid] else [])
  }

  lemma {:induction false} BidsOfConcat(xs: seq<DomainEvent>, ys: seq<DomainEvent>)
    ensures Bids(xs + ys) == Bids(xs) + Bids(ys)
  {
    if ys == [] {
      assert xs + ys == xs;
    } else {
      var front := ys[..|ys| - 1];
      assert (xs + ys)[..|xs + ys| - 1] == xs + front;
      BidsOfConcat(xs, front);
    }
  }

  /** The bids one command adds to the log. */
  lemma BidsOfCommand(a: AuctionState, c: Command)
    requires Perform(a, c).Ok?
    ensures Bids(Perform(a, c).value.events) ==
      if c.DoBid? then [Bid(c.id, c.bidder.id, c.amount, c.now)] else []
  {
    var es := Perform(a, c).value.events;
    if |es| == 2 {
      assert es[..1] == [es[0]];
      assert Bids(es[..1]) == Bids(es[..1][..0]);
    } else {
      assert es[..0] == [];
    }
  }

  /** The bid was placed in the window, in the right currency, and tops its predecessor. */
  ghost predicate LoggedBid(a: AuctionState, bids: seq<Bid>, i: nat)
    requires i < |bids|
  {
    && ValidBid(a, bids[i])
    && a.window.startsAt <= bids[i].placedAt < a.window.endsAt
    && if i == 0 then bids[i].amount.amount >= a.startPrice.amount else Raises(a, bids[i - 1], bids[i])
  }

  /** Consecutive bids come from different bidders and rise by the increment, unless int64 overflows. */
  ghost predicate Raises(a: AuctionState, lower: Bid, higher: Bid) {
    && lower.bidder != higher.bidder
    && (lower.amount.amount + a.increment.amount <= MAX_INT64 ==>
          higher.amount.amount >= lower.amount.amount + a.increment.amount)
  }

  function FromEnd(bids: seq<Bid>, n: nat): Bid {
    if n < |bids| then bids[|bids| - 1 - n] else NO_BID
  }

  /** The denormalized head of state agrees with the log; an award moves it one bid down. */
  ghost predicate HeadOfLog(a: AuctionState, bids: seq<Bid>) {
    && a.bidCount == |bids|
    && a.leadingBid == FromEnd(bids, if a.winnerReassigned then 1 else 0)
    && a.runnerUpBid == (if a.winnerReassigned then NO_BID else FromEnd(bids, 1))
  }

  /** Whenever the hammer fell, it fell at or after the deadline, which then stood still. */
  ghost predicate ClosedInTime(a: AuctionState, log: seq<DomainEvent>) {
    forall e | e in log && e.AuctionClosed? :: a.status == Closed && a.window.endsAt <= e.at
  }

  ghost predicate RunInv(r: Run) {
    && Valid(r.state)
    && HeadOfLog(r.state, Bids(r.log))
    && (forall i | 0 <= i < |Bids(r.log)| :: LoggedBid(r.state, Bids(r.log), i))
    && ClosedInTime(r.state, r.log)
  }

  lemma CommandKeepsLog(r: Run, c: Command)
    requires RunInv(r) && WellTyped(c) && Perform(r.state, c).Ok?
    ensures var r' := Do(r, c); HeadOfLog(r'.state, Bids(r'.log))
    ensures var r' := Do(r, c); forall i | 0 <= i < |Bids(r'.log)| :: LoggedBid(r'.state, Bids(r'.log), i)
  {
    var change := Perform(r.state, c).value;
    BidsOfConcat(r.log, change.events);
    BidsOfCommand(r.state, c);
    if c.DoBid? {
      BidExtendsLog(r.state, Bids(r.log), c);
    } else {
      assert Bids(Do(r, c).log) == Bids(r.log);
      OtherKeepsLog(r.state, Bids(r.log), c);
    }
  }

  lemma OtherKeepsLog(a: AuctionState, bids: seq<Bid>, c: Command)
    requires Valid(a) && HeadOfLog(a, bids) && forall i | 0 <= i < |bids| :: LoggedBid(a, bids, i)
    requires !c.DoBid? && Perform(a, c).Ok?
    ensures var next := Perform(a, c).value.next;
      HeadOfLog(next, bids) && forall i | 0 <= i < |bids| :: LoggedBid(next, bids, i)
  {
    forall i | 0 <= i < |bids| ensures LoggedBid(Perform(a, c).value.next, bids, i) {
      assert LoggedBid(a, bids, i);
    }
  }

  lemma BidExtendsLog(a: AuctionState, bids: seq<Bid>, c: Command)
    requires Valid(a) && HeadOfLog(a, bids) && forall i | 0 <= i < |bids| :: LoggedBid(a, bids, i)
    requires c.DoBid? && WellTyped(c) && Perform(a, c).Ok?
    ensures var next := Perform(a, c).value.next; var longer := bids + [Bid(c.id, c.bidder.id, c.amount, c.now)];
      HeadOfLog(next, longer) && forall i | 0 <= i < |longer| :: LoggedBid(next, longer, i)
  {
    var next := Perform(a, c).value.next;
    var longer := bids + [Bid(c.id, c.bidder.id, c.amount, c.now)];
    forall i | 0 <= i < |longer| ensures LoggedBid(next, longer, i) {
      if i < |bids| {
        assert LoggedBid(a, bids, i);
      }
    }
  }

  lemma CommandKeepsClosedInTime(r: Run, c: Command)
    requires RunInv(r) && WellTyped(c) && Perform(r.state, c).Ok?
    ensures ClosedInTime(Do(r, c).state, Do(r, c).log)
  {
    var change := Perform(r.state, c).value;
    CommandKeepsValid(r.state, c);
    forall e | e in Do(r, c).log && e.AuctionClosed?
      ensures change.next.status == Closed && change.next.window.endsAt <= e.at
    {
      assert e in r.log || e in change.events;
    }
  }

  lemma {:induction false} RunsKeepInv(r: Run, cs: seq<Command>)
    requires RunInv(r)
    requires forall c | c in cs :: WellTyped(c)
    ensures RunInv(Execute(r, cs))
  {
    if cs != [] {
      var front, c := cs[..|cs| - 1], cs[|cs| - 1];
      RunsKeepInv(r, front);
      var before := Execute(r, front);
      if Perform(before.state, c).Ok? {
        CommandKeepsValid(before.state, c);
        CommandKeepsLog(before, c);
        CommandKeepsClosedInTime(before, c);
      }
    }
  }

  // ---------- Main results ----------

  /**
    Top-two refinement. Whatever commands were sent, the aggregate's two bids are
    the last two of the log and its counter the log's length; and if no logged bid is
    within one increment of the int64 limit, bids rise by at least the increment and
    the runner-up is the highest bid of anyone but the leader.
   */
  lemma TopTwoRefinesLog(start: AuctionState, cs: seq<Command>)
    requires Fresh(start) && forall c | c in cs :: WellTyped(c)
    ensures var r := Execute(Run(start, []), cs); var bids := Bids(r.log);
      && r.state.bidCount == |bids|
      && (!r.state.winnerReassigned ==>
            r.state.leadingBid == FromEnd(bids, 0) && r.state.runnerUpBid == FromEnd(bids, 1))
      && ((forall b | b in bids :: b.amount.amount + start.increment.amount <= MAX_INT64) ==>
            && (forall i, j | 0 <= i < j < |bids| ::
                  bids[j].amount.amount >= bids[i].amount.amount + start.increment.amount)
            && (!r.state.winnerReassigned ==>
                  forall b | b in bids && b.bidder != r.state.leadingBid.bidder ::
                    b.amount.amount <= r.state.runnerUpBid.amount.amount))
  {
    var r := Execute(Run(start, []), cs);
    assert RunInv(r) && SameTerms(start, r.state) by {
      RunsKeepInv(Run(start, []), cs);
      RunsKeepTerms(start, cs);
    }
    if forall b | b in Bids(r.log) :: b.amount.amount + start.increment.amount <= MAX_INT64 {
      LogRises(r.state, Bids(r.log));
      RunnerUpIsHighestOther(r.state, Bids(r.log));
    }
  }

  lemma RunnerUpIsHighestOther(a: AuctionState, bids: seq<Bid>)
    requires Valid(a) && HeadOfLog(a, bids)
    requires forall i, j | 0 <= i < j < |bids| ::
      bids[j].amount.amount >= bids[i].amount.amount + a.increment.amount
    ensures !a.winnerReassigned ==>
      forall b | b in bids && b.bidder != a.leadingBid.bidder :: b.amount.amount <= a.runnerUpBid.amount.amount
  {
    if !a.winnerReassigned {
      forall b | b in bids && b.bidder != a.leadingBid.bidder
        ensures b.amount.amount <= a.runnerUpBid.amount.amount
      {
        var i :| 0 <= i < |bids| && bids[i] == b;
        assert i < |bids| - 1;
      }
    }
  }

  lemma {:induction false} RunsKeepTerms(start: AuctionState, cs: seq<Command>)
    requires Fresh(start) && forall c | c in cs :: WellTyped(c)
    ensures SameTerms(start, Execute(Run(start, []), cs).state)
  {
    if cs != [] {
      var front := cs[..|cs| - 1];
      RunsKeepTerms(start, front);
      RunsKeepInv(Run(start, []), front);
      CommandKeepsValid(Execute(Run(start, []), front).state, cs[|cs| - 1]);
    }
  }

  lemma {:induction false} LogRises(a: AuctionState, bids: seq<Bid>)
    requires Valid(a) && forall i | 0 <= i < |bids| :: LoggedBid(a, bids, i)
    requires forall b | b in bids :: b.amount.amount + a.increment.amount <= MAX_INT64
    ensures forall i, j | 0 <= i < j < |bids| ::
      bids[j].amount.amount >= bids[i].amount.amount + a.increment.amount
  {
    if |bids| > 0 {
      var front := bids[..|bids| - 1];
      forall i | 0 <= i < |front| ensures LoggedBid(a, front, i) {
        assert LoggedBid(a, bids, i);
      }
      LogRises(a, front);
      if |bids| > 1 {
        assert LoggedBid(a, bids, |bids| - 1);
        assert bids[|bids| - 2] in bids;
      }
    }
  }

  /** Who may bid what, and when; the minimum is the start price or the leader plus the increment, as int64. */
  ghost predicate Admissible(a: AuctionState, b: Bidder, amount: Money, now: Time) {
    && a.status == Listed && a.window.startsAt <= now < a.window.endsAt
    && b.id != Nil && b.id != a.seller && (a.leadingBid == NO_BID || b.id != a.leadingBid.bidder)
    && amount.Valid() && amount.currency == a.startPrice.currency
    && amount.amount >= (if a.leadingBid == NO_BID then a.startPrice.amount
                         else Wrap64(a.leadingBid.amount.amount + a.increment.amount))
    && (b.verified || amount.amount < a.verifyAbove.amount)
  }

  /** The cascade of guards admits exactly the admissible bids, and an accepted one leads. */
  lemma AcceptedIffAdmissible(a: AuctionState, id: Id, b: Bidder, amount: Money, now: Time)
    requires Valid(a) && Constructed(amount) && id != Nil
    ensures var v := PlaceBid(a, id, b, amount, now);
      && (v.Ok? <==> Admissible(a, b, amount, now))
      && (v.Ok? ==> v.value.next.leadingBid == Bid(id, b.id, amount, now) && v.value.next.runnerUpBid == a.leadingBid)
  {
    assert !ValidCurrency("");
  }

  ghost predicate EveryAcceptedBidRaises(a: AuctionState) {
    forall id, b, amount, now | Constructed(amount) && BidRefusal(a, id, b, amount, now).None? ::
      amount.amount >= a.leadingBid.amount.amount + a.increment.amount
  }

  /** The increment is enforced exactly as long as leading + increment fits in int64. */
  lemma IncrementEnforcedIffNoOverflow(a: AuctionState)
    requires Valid(a) && a.status == Listed && a.leadingBid != NO_BID
    ensures EveryAcceptedBidRaises(a) <==> a.leadingBid.amount.amount + a.increment.amount <= MAX_INT64
  {
    if a.leadingBid.amount.amount + a.increment.amount > MAX_INT64 {
      // The minimum wrapped below zero: an amount of 0 is accepted.
      var taken := {a.seller, a.leadingBid.bidder};
      var k := if Client(0) !in taken then 0 else if Client(1) !in taken then 1 else 2;
      var b, amount := Bidder(Client(k), true), Money(0, a.startPrice.currency);
      assert BidRefusal(a, Client(0), b, amount, a.window.startsAt).None?;
    }
  }

  /**
    Deadlines. The deadline is the original one plus the extensions used, which never
    exceed the cap; every logged bid was placed inside the final window; every close
    happened at or after the final deadline, even if clocks ran backwards.
   */
  lemma DeadlinesHold(start: AuctionState, cs: seq<Command>)
    requires Fresh(start) && forall c | c in cs :: WellTyped(c)
    ensures var r := Execute(Run(start, []), cs); var a := r.state;
      && a.window.endsAt == start.window.endsAt + a.extensionsUsed * start.antiSnipe.extension
      && 0 <= a.extensionsUsed <= start.antiSnipe.maxExtensions
      && (forall b | b in Bids(r.log) :: start.window.startsAt <= b.placedAt < a.window.endsAt)
      && (forall e | e in r.log && e.AuctionClosed? :: e.at >= a.window.endsAt)
  {
    var r := Execute(Run(start, []), cs);
    assert RunInv(r) && SameTerms(start, r.state) by {
      RunsKeepInv(Run(start, []), cs);
      RunsKeepTerms(start, cs);
    }
    FinalDeadline(start, r);
  }

  lemma FinalDeadline(start: AuctionState, r: Run)
    requires Fresh(start) && RunInv(r) && SameTerms(start, r.state)
    ensures var a := r.state;
      && a.window.endsAt == start.window.endsAt + a.extensionsUsed * start.antiSnipe.extension
      && 0 <= a.extensionsUsed <= start.antiSnipe.maxExtensions
      && (forall b | b in Bids(r.log) :: start.window.startsAt <= b.placedAt < a.window.endsAt)
      && (forall e | e in r.log && e.AuctionClosed? :: e.at >= a.window.endsAt)
  {
    assert start.window.endsAt == start.window.originalEndsAt;
    forall b | b in Bids(r.log) ensures start.window.startsAt <= b.placedAt < r.state.window.endsAt {
      var i :| 0 <= i < |Bids(r.log)| && Bids(r.log)[i] == b;
      assert LoggedBid(r.state, Bids(r.log), i);
    }
  }

  /** A bid accepted while extensions are left leaves a real chance to reply. */
  lemma TimeToReply(a: AuctionState, id: Id, b: Bidder, amount: Money, now: Time)
    requires Valid(a) && PlaceBid(a, id, b, amount, now).Ok?
    requires a.extensionsUsed < a.antiSnipe.maxExtensions
    ensures var left := PlaceBid(a, id, b, amount, now).value.next.window.endsAt - now;
      left > (if now >= a.window.endsAt - a.antiSnipe.window then a.antiSnipe.extension else a.antiSnipe.window)
  {
  }

  // ---------- Replay ----------

  function Evolve(a: AuctionState, e: DomainEvent): AuctionState {
    match e
    case BidPlaced(bid, outbid, newEndsAt, extended, _) =>
      a.(leadingBid := bid, runnerUpBid := outbid, bidCount := a.bidCount + 1,
         window := a.window.(endsAt := newEndsAt),
         extensionsUsed := a.extensionsUsed + (if extended then 1 else 0))
    case AuctionCancelled(_) => a.(status := Cancelled)
    case AuctionClosed(result, _) => a.(status := Closed, outcome := result.outcome)
    case WinnerReassigned(newWinner, _) =>
      a.(leadingBid := newWinner, runnerUpBid := NO_BID, winnerReassigned := true)
    case SaleSettled(_) => a.(settled := true)
    case SaleFailed(_, _) => a.(outcome := NotSold, settled := true)
    case _ => a
  }

  function Replay(a: AuctionState, log: seq<DomainEvent>): AuctionState {
    if log == [] then a else Evolve(Replay(a, log[..|log| - 1]), log[|log| - 1])
  }

  lemma {:induction false} ReplayOfConcat(a: AuctionState, xs: seq<DomainEvent>, ys: seq<DomainEvent>)
    ensures Replay(a, xs + ys) == Replay(Replay(a, xs), ys)
  {
    if ys == [] {
      assert xs + ys == xs;
    } else {
      var front := ys[..|ys| - 1];
      assert (xs + ys)[..|xs + ys| - 1] == xs + front;
      ReplayOfConcat(a, xs, front);
    }
  }

  /** The events of one command carry everything the command changed. */
  lemma ReplayOfCommand(a: AuctionState, c: Command)
    requires Perform(a, c).Ok?
    ensures Replay(a, Perform(a, c).value.events) == Perform(a, c).value.next
  {
    var es := Perform(a, c).value.events;
    if |es| == 2 {
      assert es[..1] == [es[0]];
      assert es[..1][..0] == [];
      assert Replay(a, es[..1]) == Evolve(Replay(a, []), es[0]);
    } else {
      assert es[..0] == [];
      assert Replay(a, es) == Evolve(Replay(a, []), es[0]);
    }
  }

  /** Replay. The recorded events alone rebuild the aggregate, after any run. */
  lemma {:induction false} ReplayRebuilds(start: AuctionState, cs: seq<Command>)
    ensures var r := Execute(Run(start, []), cs); Replay(start, r.log) == r.state
  {
    if cs != [] {
      var front, c := cs[..|cs| - 1], cs[|cs| - 1];
      ReplayRebuilds(start, front);
      var before := Execute(Run(start, []), front);
      if Perform(before.state, c).Ok? {
        ReplayOfCommand(before.state, c);
        ReplayOfConcat(start, before.log, Perform(before.state, c).value.events);
      }
    }
  }
}
