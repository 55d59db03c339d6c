/**
  The catalog read model: a row per listed auction, advanced by bid events that arrive
  repeatedly and in any order.
 */
module CatalogItems {
  import opened Base
  import opened Events
  import opened Rows

  datatype CatalogItem = CatalogItem(
    title: string, sellerId: Id, currency: Currency,
    currentPriceMinor: int, minimalNextBidMinor: int, bidCount: int, endsAt: Time)

  /** Lag means "not projected yet": the event is retried. */
  datatype ProjectionError = ProjectionLag | OutOfRange

  /** What a delivery leaves of the row, and whether it is acknowledged. */
  datatype Projected = Projected(row: Option<CatalogItem>, answer: Option<ProjectionError>)

  /** With no bids the minimal next bid is the start price. */
  function ListedItem(e: Event): CatalogItem
    requires e.AuctionListedV1?
  {
    CatalogItem(e.title, e.sellerId, e.currency, e.startPriceMinor, e.startPriceMinor, 0, e.endsAt)
  }

  /** The row after the bid; the increment is joined from the write side. */
  function Advanced(item: CatalogItem, e: Event, incrementMinor: int): CatalogItem
    requires e.BidPlacedV1?
  {
    item.(currentPriceMinor := e.amountMinor, minimalNextBidMinor := e.amountMinor + incrementMinor,
          bidCount := e.bidCount, endsAt := e.newEndsAt)
  }

  /** The database refuses a minimal next bid that leaves its column. */
  predicate NextFits(e: Event, incrementMinor: int)
    requires e.BidPlacedV1?
  {
    e.amountMinor + incrementMinor <= MAX_INT64
  }

  /** Why the guarded update hit nothing: a stale duplicate, a row rightly removed, or lag. */
  function Missed(row: Option<CatalogItem>, e: Event, auction: Option<PgAuction>): Option<ProjectionError>
    requires e.BidPlacedV1?
  {
    var stale := row.Some? && row.value.bidCount >= e.bidCount;
    var removed := row.None? && auction.Some? && auction.value.status != "listed";
    if stale || removed then None else Some(ProjectionLag)
  }

  /** The guarded UPDATE: only a newer bid advances the row. auction is the write side's row, which it joins. */
  function ApplyBid(row: Option<CatalogItem>, e: Event, auction: Option<PgAuction>): Projected
    requires e.BidPlacedV1?
  {
    if row.None? || auction.None? || row.value.bidCount >= e.bidCount then Projected(row, Missed(row, e, auction))
    else if !NextFits(e, auction.value.incrementMinor) then Projected(row, Some(OutOfRange))
    else Projected(Some(Advanced(row.value, e, auction.value.incrementMinor)), None)
  }

  /** A newer bid that fits moves the row, which shows it; stale bids and removed rows are done with, others retried. */
  lemma BidIsProjected(row: Option<CatalogItem>, e: Event, auction: Option<PgAuction>)
    requires e.BidPlacedV1?
    ensures var p := ApplyBid(row, e, auction);
      var stale := row.Some? && e.bidCount <= row.value.bidCount;
      var gone := row.None? && auction.Some? && auction.value.status != "listed";
      var fits := auction.Some? && e.amountMinor + auction.value.incrementMinor <= MAX_INT64;
      var moves := row.Some? && !stale && fits;
      && (!moves ==> p.row == row)
      && (moves ==>
            && p.row.Some? && p.row.value.bidCount == e.bidCount && p.row.value.currentPriceMinor == e.amountMinor
            && p.row.value.minimalNextBidMinor == e.amountMinor + auction.value.incrementMinor
            && p.row.value.endsAt == e.newEndsAt)
      && (p.answer == None <==> moves || stale || gone)
      && (p.answer == Some(OutOfRange) <==> row.Some? && !stale && auction.Some? && !fits)
  {
  }
}

module CatalogProjection {
  import opened Base
  import opened Events
  import opened CatalogItems
  import opened Rows

  class CatalogPostgresProjection {
    var items: map<Id, CatalogItem>

    constructor ()
      ensures items == map[]
    {
      items := map[];
    }

    function Row(id: Id): Option<CatalogItem>
      reads this
    {
      if id in items then Some(items[id]) else None
    }

    /** A repeated Listed never regresses a row that bids have advanced. */
    method UpsertListed(e: Event)
      requires e.AuctionListedV1?
      modifies this
      ensures items == if e.auctionId in old(items) then old(items) else old(items)[e.auctionId := ListedItem(e)]
    {
      if e.auctionId !in items { items := items[e.auctionId := ListedItem(e)]; }
    }

    /** An acknowledged bid is shown, or its auction is over and the row was removed. */
    method ApplyBid(e: Event, auctions: map<Id, PgAuction>) returns (r: Option<ProjectionError>)
      requires e.BidPlacedV1?
      modifies this
      ensures var auction := if e.auctionId in auctions then Some(auctions[e.auctionId]) else None;
        Projected(Row(e.auctionId), r) == CatalogItems.ApplyBid(old(Row(e.auctionId)), e, auction)
      ensures items - {e.auctionId} == old(items) - {e.auctionId}
      ensures r.None? ==>
        if e.auctionId in items then items[e.auctionId].bidCount >= e.bidCount
        else e.auctionId in auctions && auctions[e.auctionId].status != "listed"
    {
      if e.auctionId in items && e.auctionId in auctions && items[e.auctionId].bidCount < e.bidCount {
        var increment := auctions[e.auctionId].incrementMinor;
        if e.amountMinor + increment > MAX_INT64 { return Some(OutOfRange); }
        items := items[e.auctionId := Advanced(items[e.auctionId], e, increment)];
        return None;
      }
      r := ClassifyMiss(e, auctions);
    }

    /** A miss is acknowledged exactly if the row shows the bid already or has gone with its auction. */
    method ClassifyMiss(e: Event, auctions: map<Id, PgAuction>) returns (r: Option<ProjectionError>)
      requires e.BidPlacedV1?
      ensures r in {None, Some(ProjectionLag)}
      ensures r.None? <==>
        || (e.auctionId in items && items[e.auctionId].bidCount >= e.bidCount)
        || (e.auctionId !in items && e.auctionId in auctions && auctions[e.auctionId].status != "listed")
    {
      if e.auctionId in items {
        if items[e.auctionId].bidCount >= e.bidCount { return None; }
        return Some(ProjectionLag);
      }
      if e.auctionId in auctions && auctions[e.auctionId].status != "listed" { return None; }
      return Some(ProjectionLag);
    }

    method Remove(id: Id)
      modifies this
      ensures items == old(items) - {id}
    {
      items := items - {id};
    }
  }
}

module CatalogAgreement {
  import opened Base
  import opened Events
  import AuctionDomain
  import opened AuctionRuns
  import opened CatalogItems
  import opened Rows

  /** The auction right after the command, if that was an accepted bid. */
  function StateOf(before: AuctionDomain.AuctionState, c: Command): seq<AuctionDomain.AuctionState> {
    if c.DoBid? && Perform(before, c).Ok? then [Perform(before, c).value.next] else []
  }

  /** The bid events the command publishes. */
  function EventOf(before: AuctionDomain.AuctionState, c: Command): seq<Event> {
    match Perform(before, c)
    case Err(_) => []
    case Ok(change) => BidsAmong(MapDomainEvents(change.next, change.events))
  }

  /** The auction right after each accepted bid of a run. */
  function BidStates(start: AuctionDomain.AuctionState, cs: seq<Command>): seq<AuctionDomain.AuctionState> {
    if cs == [] then []
    else BidStates(start, cs[..|cs| - 1]) + StateOf(Execute(Run(start, []), cs[..|cs| - 1]).state, cs[|cs| - 1])
  }

  /** The bid events a run publishes, in order. */
  function BidEvents(start: AuctionDomain.AuctionState, cs: seq<Command>): seq<Event> {
    if cs == [] then []
    else BidEvents(start, cs[..|cs| - 1]) + EventOf(Execute(Run(start, []), cs[..|cs| - 1]).state, cs[|cs| - 1])
  }

  function BidsAmong(es: seq<Event>): seq<Event> {
    if es == [] then []
    else BidsAmong(es[..|es| - 1]) + (if es[|es| - 1].BidPlacedV1? then [es[|es| - 1]] else [])
  }

  /** What the catalog should show for a listed auction. */
  function ShownItem(a: AuctionDomain.AuctionState): CatalogItem {
    var price := if a.leadingBid == AuctionDomain.NO_BID then a.startPrice else a.leadingBid.amount;
    var next := AuctionDomain.MinimalNextBid(a);
    CatalogItem(a.lot.title, a.seller, a.startPrice.currency, price.amount,
                if next.None? then 0 else next.value.amount, a.bidCount, a.window.endsAt)
  }

  /** The event describes the auction as the bid left it. */
  ghost predicate Describes(e: Event, s: AuctionDomain.AuctionState) {
    && e.BidPlacedV1? && s.leadingBid != AuctionDomain.NO_BID
    && e.amountMinor == s.leadingBid.amount.amount && e.bidCount == s.bidCount && e.newEndsAt == s.window.endsAt
  }

  lemma OnlyOne(e: Event)
    ensures BidsAmong([e]) == if e.BidPlacedV1? then [e] else []
  {
    assert [e][..0] == [];
  }

  lemma BidPublishes(a: AuctionDomain.AuctionState, c: Command)
    requires c.DoBid? && Perform(a, c).Ok?
    ensures var change := Perform(a, c).value; var es := BidsAmong(MapDomainEvents(change.next, change.events));
      |es| == 1 && Describes(es[0], change.next)
  {
    var change := Perform(a, c).value;
    var placed := change.events[|change.events| - 1];
    if |change.events| == 2 {
      MappedExtended(change.next, change.events[0], placed);
      assert change.events == [change.events[0], placed];
    } else {
      assert change.events == [placed];
    }
    MappedAlone(change.next, placed);
    OnlyOne(MapDomainEvent(change.next, placed).value);
  }

  lemma OthersRecordOne(a: AuctionDomain.AuctionState, c: Command)
    requires !c.DoBid? && Perform(a, c).Ok?
    ensures var change := Perform(a, c).value;
      |change.events| == 1 && !change.events[0].BidPlaced? && MapDomainEvent(change.next, change.events[0]).Some?
  {
  }

  lemma OthersPublishNoBid(a: AuctionDomain.AuctionState, c: Command)
    requires !c.DoBid? && Perform(a, c).Ok?
    ensures var change := Perform(a, c).value; BidsAmong(MapDomainEvents(change.next, change.events)) == []
  {
    OthersRecordOne(a, c);
    var change := Perform(a, c).value;
    assert change.events == [change.events[0]];
    MappedAlone(change.next, change.events[0]);
    OnlyOne(MapDomainEvent(change.next, change.events[0]).value);
  }

  /** The i-th event describes the auction after its i-th bid, counted from 1. */
  ghost predicate AllDescribed(
    start: AuctionDomain.AuctionState, events: seq<Event>, states: seq<AuctionDomain.AuctionState>)
  {
    && |events| == |states|
    && forall i | 0 <= i < |states| ::
         Describes(events[i], states[i]) && states[i].bidCount == i + 1 && SameTerms(start, states[i])
         && Valid(states[i])
  }

  lemma StepDescribed(start: AuctionDomain.AuctionState, before: AuctionDomain.AuctionState, c: Command)
    requires Valid(before) && SameTerms(start, before) && WellTyped(c)
    ensures var states, events := StateOf(before, c), EventOf(before, c);
      && |events| == |states| <= 1
      && (Perform(before, c).Ok? ==> Perform(before, c).value.next.bidCount == before.bidCount + |states|)
      && (states != [] ==>
            && Describes(events[0], states[0]) && states[0].bidCount == before.bidCount + 1
            && SameTerms(start, states[0]) && Valid(states[0]))
  {
    if Perform(before, c).Ok? {
      CommandKeepsValid(before, c);
      if c.DoBid? { BidPublishes(before, c); } else { OthersPublishNoBid(before, c); }
    }
  }

  lemma {:induction false} EventsDescribeStates(start: AuctionDomain.AuctionState, cs: seq<Command>)
    requires Fresh(start) && forall c | c in cs :: WellTyped(c)
    ensures AllDescribed(start, BidEvents(start, cs), BidStates(start, cs))
    ensures Execute(Run(start, []), cs).state.bidCount == |BidStates(start, cs)|
  {
    if cs != [] {
      var front, c := cs[..|cs| - 1], cs[|cs| - 1];
      var before := Execute(Run(start, []), front).state;
      EventsDescribeStates(start, front);
      RunIsValid(start, front);
      StepDescribed(start, before, c);
    }
  }

  lemma RunIsValid(start: AuctionDomain.AuctionState, cs: seq<Command>)
    requires Fresh(start) && forall c | c in cs :: WellTyped(c)
    ensures var a := Execute(Run(start, []), cs).state; Valid(a) && SameTerms(start, a)
  {
    RunsKeepTerms(start, cs);
    RunsKeepInv(Run(start, []), cs);
  }

  /** The auction as it was listed, or after its n-th bid. */
  function StateAfter(start: AuctionDomain.AuctionState, states: seq<AuctionDomain.AuctionState>, n: nat)
    : AuctionDomain.AuctionState
    requires n <= |states|
  {
    if n == 0 then start else states[n - 1]
  }

  /** Unless the winner was reassigned, the auction still shows what its last bid left. */
  lemma {:induction false} LastBidShows(start: AuctionDomain.AuctionState, cs: seq<Command>)
    ensures var a, states := Execute(Run(start, []), cs).state, BidStates(start, cs);
      !a.winnerReassigned ==> ShownItem(a) == ShownItem(StateAfter(start, states, |states|))
  {
    if cs != [] {
      var front, c := cs[..|cs| - 1], cs[|cs| - 1];
      LastBidShows(start, front);
      var before := Execute(Run(start, []), front).state;
      if Perform(before, c).Ok? {
        if !c.DoBid? { StepShows(before, c); }
      }
    }
  }

  /** Commands other than bids and the award change nothing the catalog shows. */
  lemma StepShows(a: AuctionDomain.AuctionState, c: Command)
    requires !c.DoBid? && Perform(a, c).Ok?
    ensures var next := Perform(a, c).value.next;
      !next.winnerReassigned ==> !a.winnerReassigned && ShownItem(next) == ShownItem(a)
  {
  }

  lemma AdvancedShows(start: AuctionDomain.AuctionState, item: CatalogItem, e: Event, s: AuctionDomain.AuctionState)
    requires Valid(s) && SameTerms(start, s) && Describes(e, s) && NextFits(e, start.increment.amount)
    requires item.title == start.lot.title && item.sellerId == start.seller
    requires item.currency == start.startPrice.currency
    ensures Advanced(item, e, start.increment.amount) == ShownItem(s)
  {
  }

  // ---------- Deliveries ----------

  /** An event of the auction, and the write side's row as its handler found it. */
  datatype Delivery = Delivery(event: Event, auction: PgAuction)

  /** The auction's catalog row and the events acknowledged so far. */
  datatype Shelf = Shelf(row: Option<CatalogItem>, acked: set<Event>)

  function Deliver(s: Shelf, d: Delivery): Shelf {
    if d.event.AuctionListedV1? then
      Shelf(if s.row.None? then Some(ListedItem(d.event)) else s.row, s.acked + {d.event})
    else if d.event.BidPlacedV1? then
      var p := ApplyBid(s.row, d.event, Some(d.auction));
      Shelf(p.row, if p.answer.None? then s.acked + {d.event} else s.acked)
    else if EndsListing(d.event) then Shelf(None, s.acked + {d.event})
    else s
  }

  function Project(stream: seq<Delivery>): Shelf {
    if stream == [] then Shelf(None, {}) else Deliver(Project(stream[..|stream| - 1]), stream[|stream| - 1])
  }

  /** A delivery of the listing, of one of these bid events or of the end of the listing. */
  ghost predicate Belongs(start: AuctionDomain.AuctionState, events: seq<Event>, d: Delivery) {
    && d.auction.incrementMinor == start.increment.amount
    && (d.event in events || EndsListing(d.event)
        || exists at :: d.event == MapDomainEvent(start, AuctionDomain.AuctionListed(at)).value)
  }

  /** Every handler found the auction listed. */
  ghost predicate StillListed(stream: seq<Delivery>) {
    forall d | d in stream :: d.auction.status == "listed" && !EndsListing(d.event)
  }

  /** The row shows the auction as it was listed, or after a bid whose event has been acknowledged. */
  ghost predicate RowTrue(
    start: AuctionDomain.AuctionState, events: seq<Event>, states: seq<AuctionDomain.AuctionState>, s: Shelf)
  {
    s.row.Some? ==>
      var n := s.row.value.bidCount;
      && 0 <= n <= |states| && s.row.value == ShownItem(StateAfter(start, states, n))
      && (n > 0 ==>
            && n <= |events| && events[n - 1] in s.acked
            && events[n - 1].BidPlacedV1? && NextFits(events[n - 1], start.increment.amount))
  }

  /** An acknowledged bid is shown, or a later one. */
  ghost predicate AckedShown(s: Shelf) {
    forall e | e in s.acked ::
      s.row.Some? && (e.BidPlacedV1? ==> s.row.value.bidCount >= e.bidCount)
  }

  lemma ShownTerms(
    start: AuctionDomain.AuctionState, events: seq<Event>, states: seq<AuctionDomain.AuctionState>, n: nat)
    requires Fresh(start) && AllDescribed(start, events, states) && n <= |states|
    ensures var item := ShownItem(StateAfter(start, states, n));
      item.bidCount == n && item.title == start.lot.title && item.sellerId == start.seller
      && item.currency == start.startPrice.currency
  {
  }

  lemma BidAdvances(
    start: AuctionDomain.AuctionState, events: seq<Event>, states: seq<AuctionDomain.AuctionState>, s: Shelf, i: nat)
    requires Fresh(start) && AllDescribed(start, events, states) && RowTrue(start, events, states, s)
    requires i < |events| && s.row.Some? && NextFits(events[i], start.increment.amount)
    ensures Advanced(s.row.value, events[i], start.increment.amount) == ShownItem(states[i])
  {
    ShownTerms(start, events, states, s.row.value.bidCount);
    AdvancedShows(start, s.row.value, events[i], states[i]);
  }

  lemma BidDelivered(
    start: AuctionDomain.AuctionState, events: seq<Event>, states: seq<AuctionDomain.AuctionState>,
    s: Shelf, d: Delivery)
    requires Fresh(start) && AllDescribed(start, events, states)
    requires Belongs(start, events, d) && d.event in events && RowTrue(start, events, states, s)
    ensures RowTrue(start, events, states, Deliver(s, d))
    ensures AckedShown(s) && d.auction.status == "listed" ==> AckedShown(Deliver(s, d))
  {
    var i :| 0 <= i < |events| && events[i] == d.event;
    assert Describes(events[i], states[i]) && states[i].bidCount == i + 1;
    if s.row.Some? && NextFits(d.event, start.increment.amount) { BidAdvances(start, events, states, s, i); }
  }

  lemma {:induction false} StreamStaysTrue(
    start: AuctionDomain.AuctionState, events: seq<Event>, states: seq<AuctionDomain.AuctionState>,
    stream: seq<Delivery>)
    requires Fresh(start) && AllDescribed(start, events, states)
    requires forall d | d in stream :: Belongs(start, events, d)
    ensures RowTrue(start, events, states, Project(stream))
    ensures StillListed(stream) ==> AckedShown(Project(stream))
  {
    if stream != [] {
      var front, d := stream[..|stream| - 1], stream[|stream| - 1];
      StreamStaysTrue(start, events, states, front);
      assert d in stream && forall x | x in front :: x in stream;
      if d.event in events { BidDelivered(start, events, states, Project(front), d); }
    }
  }

  lemma AllAckedIsCurrent(
    start: AuctionDomain.AuctionState, events: seq<Event>, states: seq<AuctionDomain.AuctionState>, s: Shelf)
    requires AllDescribed(start, events, states) && RowTrue(start, events, states, s) && AckedShown(s)
    requires s.row.Some? && forall e | e in events :: e in s.acked
    ensures s.row.value == ShownItem(StateAfter(start, states, |states|))
  {
    var n := |events|;
    if n > 0 {
      assert Describes(events[n - 1], states[n - 1]) && states[n - 1].bidCount == n;
    }
  }

  lemma LastBidIsCurrent(
    start: AuctionDomain.AuctionState, events: seq<Event>, states: seq<AuctionDomain.AuctionState>,
    s: Shelf, d: Delivery)
    requires Fresh(start) && AllDescribed(start, events, states) && Belongs(start, events, d)
    requires RowTrue(start, events, states, s) && s.row.Some?
    requires events != [] && d.event == events[|events| - 1]
    ensures d.event.BidPlacedV1?
    ensures Deliver(s, d).row == Some(ShownItem(StateAfter(start, states, |states|)))
       <==> NextFits(d.event, start.increment.amount)
  {
    var n := |events|;
    assert Describes(events[n - 1], states[n - 1]) && states[n - 1].bidCount == n;
    if NextFits(d.event, start.increment.amount) { BidAdvances(start, events, states, s, n - 1); }
  }

  lemma LastDelivered(
    start: AuctionDomain.AuctionState, events: seq<Event>, states: seq<AuctionDomain.AuctionState>,
    stream: seq<Delivery>, d: Delivery)
    requires Fresh(start) && AllDescribed(start, events, states)
    requires forall x | x in stream + [d] :: Belongs(start, events, x)
    requires Project(stream).row.Some? && events != [] && d.event == events[|events| - 1]
    ensures d.event.BidPlacedV1?
    ensures Project(stream + [d]).row == Some(ShownItem(StateAfter(start, states, |states|)))
       <==> NextFits(d.event, start.increment.amount)
  {
    assert forall x | x in stream :: x in stream + [d];
    assert d in stream + [d];
    StreamStaysTrue(start, events, states, stream);
    LastBidIsCurrent(start, events, states, Project(stream), d);
    assert (stream + [d])[..|stream|] == stream;
  }

  // ---------- Main results ----------

  /**
    Catalog agreement. Any stream of an auction's events - repeated, permuted, incomplete -
    leaves no row or one that shows the auction as it was listed or after a bid that was
    acknowledged. While the auction is listed an acknowledged bid is never lost, and once
    all are acknowledged the row shows the current price, minimal next bid and deadline.
   */
  lemma CatalogAgrees(start: AuctionDomain.AuctionState, cs: seq<Command>, stream: seq<Delivery>)
    requires Fresh(start) && forall c | c in cs :: WellTyped(c)
    requires forall d | d in stream :: Belongs(start, BidEvents(start, cs), d)
    ensures var s := Project(stream); var a := Execute(Run(start, []), cs).state;
      && RowTrue(start, BidEvents(start, cs), BidStates(start, cs), s)
      && (StillListed(stream) ==>
            && AckedShown(s)
            && (s.row.Some? && (forall e | e in BidEvents(start, cs) :: e in s.acked) && !a.winnerReassigned ==>
                  s.row == Some(ShownItem(a))))
  {
    var s, events, states := Project(stream), BidEvents(start, cs), BidStates(start, cs);
    EventsDescribeStates(start, cs);
    StreamStaysTrue(start, events, states, stream);
    LastBidShows(start, cs);
    if StillListed(stream) && s.row.Some? && forall e | e in events :: e in s.acked {
      AllAckedIsCurrent(start, events, states, s);
    }
  }

  /**
    The limit. Whatever was delivered before, delivering the last bid to a listed row
    brings it up to date exactly if the bid and the increment fit into int64 together.
   */
  lemma CurrentIffNextFits(start: AuctionDomain.AuctionState, cs: seq<Command>, stream: seq<Delivery>, d: Delivery)
    requires Fresh(start) && forall c | c in cs :: WellTyped(c)
    requires forall x | x in stream + [d] :: Belongs(start, BidEvents(start, cs), x)
    requires Project(stream).row.Some? && !Execute(Run(start, []), cs).state.winnerReassigned
    requires var es := BidEvents(start, cs); es != [] && d.event == es[|es| - 1]
    ensures d.event.BidPlacedV1?
    ensures Project(stream + [d]).row == Some(ShownItem(Execute(Run(start, []), cs).state))
       <==> NextFits(d.event, start.increment.amount)
  {
    EventsDescribeStates(start, cs);
    LastBidShows(start, cs);
    LastDelivered(start, BidEvents(start, cs), BidStates(start, cs), stream, d);
  }
}
