/**
  The auction repository over rows: one transaction reads the row, runs the command,
  writes the changed columns under the version check, appends accepted bids to the
  history and publishes the mapped events.
 */
module PgRepository {
  import opened Base
  import opened Events
  import AuctionDomain
  import opened AuctionRuns
  import opened Rows

  datatype BidRow = BidRow(
    bidId: Id, auctionId: Id, bidderId: Id, amountMinor: int, currency: Currency, placedAt: Time)

  datatype RepoError = NotFound | CorruptRow | Refused(error: AuctionDomain.AuctionError) | DuplicateBid

  type UpdateFn = AuctionDomain.AuctionState -> AuctionDomain.Verdict

  function ToBidRow(auction: Id, b: AuctionDomain.Bid): BidRow {
    BidRow(b.id, auction, b.bidder, b.amount.amount, b.amount.currency, b.placedAt)
  }

  function BidRows(auction: Id, bids: seq<AuctionDomain.Bid>): seq<BidRow> {
    seq(|bids|, i requires 0 <= i < |bids| => ToBidRow(auction, bids[i]))
  }

  // ---------- One transaction ----------

  /** What a transaction of the auction context writes. */
  datatype Store = Store(rows: map<Id, PgAuction>, bids: seq<BidRow>, outbox: seq<Event>)

  /** The bid id is the history's primary key, for all auctions together. */
  predicate IdTaken(bids: seq<BidRow>, id: Id) {
    exists i | 0 <= i < |bids| :: bids[i].bidId == id
  }

  /** Inserting row after row violates no primary key. */
  predicate Insertable(bids: seq<BidRow>, more: seq<BidRow>) {
    more == [] ||
    var front := more[..|more| - 1];
    Insertable(bids, front) && !IdTaken(bids + front, more[|more| - 1].bidId)
  }

  /** Reads, updates and writes, or fails and leaves everything as it was. */
  function Transact(s: Store, id: Id, updateFn: UpdateFn): Result<Store, RepoError> {
    if id !in s.rows then Err(NotFound)
    else
      match ToDomainAuction(s.rows[id])
      case Err(_) => Err(CorruptRow)
      case Ok(a) =>
        match updateFn(a)
        case Err(e) => Err(Refused(e))
        case Ok(change) =>
          var placed := BidRows(change.next.id, Bids(change.events));
          var row := UpdateColumns(s.rows[id], ToPgAuction(change.next), s.rows[id].version).value;
          if !Insertable(s.bids, placed) then Err(DuplicateBid)
          else
            Ok(Store(s.rows[id := row], s.bids + placed, s.outbox + MapDomainEvents(change.next, change.events)))
  }

  class AuctionPostgresRepository {
    var rows: map<Id, PgAuction>
    var bids: seq<BidRow>
    var outbox: seq<Event>

    function Contents(): Store
      reads this
    {
      Store(rows, bids, outbox)
    }

    constructor ()
      ensures Contents() == Store(map[], [], [])
    {
      rows, bids, outbox := map[], [], [];
    }

    /** The id is taken: nothing happens. The original has a replacement: refused. */
    method Add(v: AuctionDomain.Change) returns (r: Option<AuctionDomain.AuctionError>)
      modifies this
      ensures bids == old(bids)
      ensures v.next.id in old(rows) ==> r == None && rows == old(rows) && outbox == old(outbox)
      ensures v.next.id !in old(rows) ==>
        if v.next.relistOf != Nil && exists k | k in old(rows) :: old(rows)[k].relistOf == Some(v.next.relistOf)
        then r == Some(AuctionDomain.ErrAlreadyRelisted) && rows == old(rows) && outbox == old(outbox)
        else
          r == None && rows == old(rows)[v.next.id := ToPgAuction(v.next)]
          && outbox == old(outbox) + MapDomainEvents(v.next, v.events)
    {
      if v.next.id in rows { return None; }
      if v.next.relistOf != Nil {
        var rest := rows.Keys;
        while rest != {}
          invariant rest <= rows.Keys
          invariant forall k | k in rows && k !in rest :: rows[k].relistOf != Some(v.next.relistOf)
          decreases rest
        {
          var k :| k in rest;
          if rows[k].relistOf == Some(v.next.relistOf) { return Some(AuctionDomain.ErrAlreadyRelisted); }
          rest := rest - {k};
        }
      }
      rows := rows[v.next.id := ToPgAuction(v.next)];
      Publish(v.next, v.events);
      return None;
    }

    method Get(id: Id) returns (r: Result<AuctionDomain.AuctionState, RepoError>)
      ensures id !in rows ==> r == Err(NotFound)
      ensures id in rows ==>
        match ToDomainAuction(rows[id])
        case Ok(a) => r == Ok(a)
        case Err(_) => r == Err(CorruptRow)
    {
      if id !in rows { return Err(NotFound); }
      var read := ToDomainAuction(rows[id]);
      return if read.Err? then Err(CorruptRow) else Ok(read.value);
    }

    /** A bid id that is taken rolls the whole transaction back. */
    method Update(id: Id, updateFn: UpdateFn) returns (r: Option<RepoError>)
      modifies this
      ensures match Transact(old(Contents()), id, updateFn)
        case Ok(s) => r == None && Contents() == s
        case Err(e) => r == Some(e) && Contents() == old(Contents())
    {
      if id !in rows { return Some(NotFound); }
      var read := ToDomainAuction(rows[id]);
      if read.Err? { return Some(CorruptRow); }
      var updated := updateFn(read.value);
      if updated.Err? { return Some(Refused(updated.error)); }
      var change, rowsBefore, bidsBefore := updated.value, rows, bids;
      var row := UpdateColumns(rows[id], ToPgAuction(change.next), rows[id].version);
      rows := rows[id := row.value];
      var appended := AppendBids(change.next.id, change.events);
      if !appended {
        rows, bids := rowsBefore, bidsBefore;
        return Some(DuplicateBid);
      }
      Publish(change.next, change.events);
      return None;
    }

    /** Accepted bids are taken from the recorded events, one row each, in order. */
    method AppendBids(id: Id, events: seq<AuctionDomain.DomainEvent>) returns (appended: bool)
      modifies this`bids
      ensures appended == Insertable(old(bids), BidRows(id, Bids(events)))
      ensures appended ==> bids == old(bids) + BidRows(id, Bids(events))
    {
      for i := 0 to |events|
        invariant bids == old(bids) + BidRows(id, Bids(events[..i]))
        invariant Insertable(old(bids), BidRows(id, Bids(events[..i])))
      {
        BidsOfPrefix(id, events, i);
        if events[i].BidPlaced? {
          var row := ToBidRow(id, events[i].bid);
          AppendedOne(old(bids), BidRows(id, Bids(events[..i])), row);
          if IdTaken(bids, row.bidId) {
            RefusedForGood(old(bids), id, events, i);
            return false;
          }
          bids := bids + [row];
        }
      }
      assert events[..|events|] == events;
      return true;
    }

    method Publish(a: AuctionDomain.AuctionState, events: seq<AuctionDomain.DomainEvent>)
      modifies this`outbox
      ensures outbox == old(outbox) + MapDomainEvents(a, events)
    {
      for i := 0 to |events|
        invariant outbox == old(outbox) + MapDomainEvents(a, events[..i])
      {
        assert events[..i + 1][..i] == events[..i];
        var integration := MapDomainEvent(a, events[i]);
        if integration.Some? { outbox := outbox + [integration.value]; }
      }
      assert events[..|events|] == events;
    }
  }

  lemma BidsOfPrefix(id: Id, events: seq<AuctionDomain.DomainEvent>, i: nat)
    requires i < |events|
    ensures var front := BidRows(id, Bids(events[..i]));
      BidRows(id, Bids(events[..i + 1]))
      == if events[i].BidPlaced? then front + [ToBidRow(id, events[i].bid)] else front
  {
    assert events[..i + 1][..i] == events[..i];
  }

  lemma AppendedOne(bids: seq<BidRow>, front: seq<BidRow>, row: BidRow)
    ensures Insertable(bids, front + [row]) <==> Insertable(bids, front) && !IdTaken(bids + front, row.bidId)
  {
    assert (front + [row])[..|front|] == front;
  }

  lemma {:induction false} PrefixInsertable(bids: seq<BidRow>, xs: seq<BidRow>, ys: seq<BidRow>)
    requires Insertable(bids, xs + ys)
    ensures Insertable(bids, xs)
  {
    if ys == [] {
      assert xs + ys == xs;
    } else {
      var front := ys[..|ys| - 1];
      assert xs + ys == (xs + front) + [ys[|ys| - 1]];
      AppendedOne(bids, xs + front, ys[|ys| - 1]);
      PrefixInsertable(bids, xs, front);
    }
  }

  lemma BidRowsOfConcat(id: Id, xs: seq<AuctionDomain.Bid>, ys: seq<AuctionDomain.Bid>)
    ensures BidRows(id, xs + ys) == BidRows(id, xs) + BidRows(id, ys)
  {
  }

  /** A row that cannot be inserted fails the whole list. */
  lemma RefusedForGood(bids: seq<BidRow>, id: Id, events: seq<AuctionDomain.DomainEvent>, i: nat)
    requires i < |events| && events[i].BidPlaced?
    requires IdTaken(bids + BidRows(id, Bids(events[..i])), events[i].bid.id)
    ensures !Insertable(bids, BidRows(id, Bids(events)))
  {
    var front, rest := events[..i + 1], events[i + 1..];
    BidsOfPrefix(id, events, i);
    AppendedOne(bids, BidRows(id, Bids(events[..i])), ToBidRow(id, events[i].bid));
    assert events == front + rest;
    BidsOfConcat(front, rest);
    BidRowsOfConcat(id, Bids(front), Bids(rest));
    if Insertable(bids, BidRows(id, Bids(events))) {
      PrefixInsertable(bids, BidRows(id, Bids(front)), BidRows(id, Bids(rest)));
    }
  }
}
