/** The simple stores: maps of values, replaced only when an update succeeds. */
module InMemoryStores {
  import opened Base
  import AuctionDomain
  import opened AuctionRuns
  import Rows
  import SettlementDomain

  type AuctionUpdate = AuctionDomain.AuctionState -> AuctionDomain.Verdict

  type SagaUpdate = SettlementDomain.SettlementState -> SettlementDomain.SagaVerdict

  predicate Due(a: AuctionDomain.AuctionState, before: Time) {
    a.status == AuctionDomain.Listed && a.window.endsAt <= before
  }

  /** The scan looks for exactly the auctions that can be closed. */
  lemma DueIffCloses(a: AuctionDomain.AuctionState, now: Time)
    ensures Due(a, now) <==> AuctionDomain.Close(a, now).Ok?
  {
  }

  /** No command's result is refused when it is stored. */
  lemma StoredUnchanged(a: AuctionDomain.AuctionState, c: Command)
    requires Valid(a) && WellTyped(c) && Perform(a, c).Ok?
    ensures var stored := Perform(a, c).value.next.(version := a.version + 1);
      AuctionDomain.UnmarshalFromDatabase(stored) == Ok(stored)
  {
    CommandKeepsValid(a, c);
  }

  class AuctionInMemRepository {
    var auctions: map<Id, AuctionDomain.AuctionState>

    constructor ()
      ensures auctions == map[]
    {
      auctions := map[];
    }

    ghost predicate Replaced(original: Id)
      reads this
    {
      exists k :: k in auctions && auctions[k].relistOf == original
    }

    /** A known id is a silent no-op; a second replacement of the same original is refused. */
    method Add(a: AuctionDomain.AuctionState) returns (r: Option<AuctionDomain.AuctionError>)
      modifies this
      ensures var taken := a.id in old(auctions);
        var refused := !taken && a.relistOf != Nil && old(Replaced(a.relistOf));
        && r == (if refused then Some(AuctionDomain.ErrAlreadyRelisted) else None)
        && auctions == if taken || refused then old(auctions) else old(auctions)[a.id := a]
    {
      if a.id in auctions { return None; }
      if a.relistOf != Nil {
        var rest := auctions.Keys;
        while rest != {}
          invariant rest <= auctions.Keys
          invariant forall k | k in auctions && k !in rest :: auctions[k].relistOf != a.relistOf
          decreases rest
        {
          var k :| k in rest;
          if auctions[k].relistOf == a.relistOf { return Some(AuctionDomain.ErrAlreadyRelisted); }
          rest := rest - {k};
        }
      }
      auctions := auctions[a.id := a];
      return None;
    }

    method Get(id: Id) returns (r: Option<AuctionDomain.AuctionState>)
      ensures r == if id in auctions then Some(auctions[id]) else None
    {
      return if id in auctions then Some(auctions[id]) else None;
    }

    method Update(id: Id, updateFn: AuctionUpdate) returns (r: Option<AuctionDomain.AuctionError>)
      modifies this
      ensures id !in old(auctions) ==> r == Some(AuctionDomain.ErrNotFound) && auctions == old(auctions)
      ensures id in old(auctions) ==>
        match updateFn(old(auctions)[id])
        case Err(e) => r == Some(e) && auctions == old(auctions)
        case Ok(c) =>
          var bumped := AuctionDomain.UnmarshalFromDatabase(c.next.(version := c.next.version + 1));
          if bumped.Err? then r == Some(bumped.error) && auctions == old(auctions)
          else r == None && auctions == old(auctions)[id := bumped.value]
    {
      if id !in auctions { return Some(AuctionDomain.ErrNotFound); }
      var updated := updateFn(auctions[id]);
      if updated.Err? { return Some(updated.error); }
      var next := updated.value.next;
      var bumped := AuctionDomain.UnmarshalFromDatabase(next.(version := next.version + 1));
      if bumped.Err? { return Some(bumped.error); }
      auctions := auctions[id := bumped.value];
      return None;
    }

    /** The closing worker's scan, in no particular order; it stops at the limit and misses nothing below it. */
    method DueForClosing(before: Time, limit: int) returns (ids: seq<Id>)
      ensures forall id | id in ids :: id in auctions && Due(auctions[id], before)
      ensures forall i, j | 0 <= i < j < |ids| :: ids[i] != ids[j]
      ensures |ids| <= if limit < 0 then 0 else limit
      ensures |ids| < limit ==> forall id | id in auctions && Due(auctions[id], before) :: id in ids
    {
      ids := [];
      var rest := auctions.Keys;
      while rest != {}
        invariant rest <= auctions.Keys
        invariant forall id | id in ids :: id in auctions && id !in rest && Due(auctions[id], before)
        invariant forall i, j | 0 <= i < j < |ids| :: ids[i] != ids[j]
        invariant |ids| <= if limit < 0 then 0 else limit
        invariant forall id | id in auctions && id !in rest && Due(auctions[id], before) :: id in ids
        decreases rest
      {
        if |ids| >= limit { return; }
        var id :| id in rest;
        rest := rest - {id};
        if Due(auctions[id], before) { ids := ids + [id]; }
      }
    }
  }

  datatype SagaStoreError = NotFound | Refused(error: SettlementDomain.SagaError) | Unreadable

  /** Structural checks only, as when a row is read back. */
  predicate Rehydrates(s: SettlementDomain.SettlementState) {
    s.auctionId != Nil && s.winner != Nil && s.hammer != ZERO_MONEY && s.attempt in {1, 2} && s.version >= 1
  }

  /** This store takes what the database takes, except that it does not look at amounts' currencies. */
  lemma StorableIffRehydrates(s: SettlementDomain.SettlementState)
    ensures Rows.Storable(s) <==>
      && Rehydrates(s) && s.hammer.Valid()
      && (if s.runnerUp == Nil then s.runnerUpAmount == ZERO_MONEY
          else s.runnerUpAmount.Valid() && s.runnerUpAmount.currency == s.hammer.currency)
  {
    assert !ValidCurrency("");
  }

  class SettlementInMemoryRepository {
    var byAuction: map<Id, SettlementDomain.SettlementState>

    constructor ()
      ensures byAuction == map[]
    {
      byAuction := map[];
    }

    method Add(s: SettlementDomain.SettlementState)
      modifies this
      ensures byAuction == if s.auctionId in old(byAuction) then old(byAuction) else old(byAuction)[s.auctionId := s]
    {
      if s.auctionId in byAuction { return; }
      byAuction := byAuction[s.auctionId := s];
    }

    method Get(id: Id) returns (r: Result<SettlementDomain.SettlementState, SagaStoreError>)
      ensures r == if id in byAuction then Ok(byAuction[id]) else Err(NotFound)
    {
      return if id in byAuction then Ok(byAuction[id]) else Err(NotFound);
    }

    method Update(id: Id, updateFn: SagaUpdate) returns (r: Option<SagaStoreError>)
      modifies this
      ensures id !in old(byAuction) ==> r == Some(NotFound) && byAuction == old(byAuction)
      ensures id in old(byAuction) ==>
        match updateFn(old(byAuction)[id])
        case Err(e) => r == Some(Refused(e)) && byAuction == old(byAuction)
        case Ok(s) =>
          var bumped := s.(version := s.version + 1);
          if Rehydrates(bumped) then r == None && byAuction == old(byAuction)[id := bumped]
          else r == Some(Unreadable) && byAuction == old(byAuction)
    {
      if id !in byAuction { return Some(NotFound); }
      var updated := updateFn(byAuction[id]);
      if updated.Err? { return Some(Refused(updated.error)); }
      var bumped := updated.value.(version := updated.value.version + 1);
      if !Rehydrates(bumped) { return Some(Unreadable); }
      byAuction := byAuction[id := bumped];
      return None;
    }
  }
}
