/**
  Many transactions on the tables of the auction context, to any auctions in any order.
  Each auction's part of the history is its bid log, its row is the aggregate, and what
  was published about it is what its commands announced.
 */
module PgHistory {
  import opened Base
  import opened Events
  import AuctionDomain
  import opened AuctionRuns
  import opened AuctionRules
  import opened Rows
  import opened PgRepository

  datatype Order = Order(auction: Id, command: Command)

  function Obey(c: Command): UpdateFn { a => Perform(a, c) }

  /** One that fails leaves the tables alone. */
  function After(s: Store, o: Order): Store {
    match Transact(s, o.auction, Obey(o.command))
    case Ok(after) => after
    case Err(_) => s
  }

  predicate Commits(s: Store, o: Order) { Transact(s, o.auction, Obey(o.command)).Ok? }

  /** The tables after a sequence of transactions. */
  function Work(s: Store, orders: seq<Order>): Store {
    if orders == [] then s else After(Work(s, orders[..|orders| - 1]), orders[|orders| - 1])
  }

  /** The commands to one auction whose transactions went through. */
  function Committed(s: Store, orders: seq<Order>, id: Id): seq<Command> {
    if orders == [] then []
    else
      var front, o := orders[..|orders| - 1], orders[|orders| - 1];
      Committed(s, front, id) + (if o.auction == id && Commits(Work(s, front), o) then [o.command] else [])
  }

  // ---------- One auction's part of the tables ----------

  function Of(bids: seq<BidRow>, id: Id): seq<BidRow> {
    if bids == [] then []
    else
      Of(bids[..|bids| - 1], id) + (if bids[|bids| - 1].auctionId == id then [bids[|bids| - 1]] else [])
  }

  predicate Concerns(e: Event, id: Id) { !e.AuctionRelistedV1? && e.auctionId == id }

  function About(es: seq<Event>, id: Id): seq<Event> {
    if es == [] then []
    else About(es[..|es| - 1], id) + (if Concerns(es[|es| - 1], id) then [es[|es| - 1]] else [])
  }

  lemma {:induction false} OfConcat(xs: seq<BidRow>, ys: seq<BidRow>, id: Id)
    requires forall i, j | 0 <= i < |ys| && 0 <= j < |ys| :: ys[i].auctionId == ys[j].auctionId
    ensures Of(xs + ys, id) == Of(xs, id) + (if ys != [] && ys[0].auctionId == id then ys else [])
  {
    if ys == [] {
      assert xs + ys == xs;
    } else {
      var front := ys[..|ys| - 1];
      assert (xs + ys)[..|xs + ys| - 1] == xs + front;
      OfConcat(xs, front, id);
    }
  }

  lemma {:induction false} AboutConcat(xs: seq<Event>, ys: seq<Event>, of: Id, id: Id)
    requires forall e | e in ys :: Concerns(e, of)
    ensures About(xs + ys, id) == About(xs, id) + (if of == id then ys else [])
  {
    if ys == [] {
      assert xs + ys == xs;
    } else {
      var front := ys[..|ys| - 1];
      assert (xs + ys)[..|xs + ys| - 1] == xs + front;
      assert Concerns(ys[|ys| - 1], of);
      AboutConcat(xs, front, of, id);
    }
  }

  /** What the map store's run of commands records and announces, in order. */
  function Recorded(start: AuctionDomain.AuctionState, cs: seq<Command>): seq<AuctionDomain.DomainEvent> {
    if cs == [] then []
    else
      Recorded(start, cs[..|cs| - 1])
      + (match Perform(StoreRun(start, cs[..|cs| - 1]), cs[|cs| - 1])
         case Ok(change) => change.events
         case Err(_) => [])
  }

  function Announced(start: AuctionDomain.AuctionState, cs: seq<Command>): seq<Event> {
    if cs == [] then []
    else
      Announced(start, cs[..|cs| - 1])
      + (match Perform(StoreRun(start, cs[..|cs| - 1]), cs[|cs| - 1])
         case Ok(change) => MapDomainEvents(change.next, change.events)
         case Err(_) => [])
  }

  lemma CommandConcerns(a: AuctionDomain.AuctionState, c: Command)
    requires Perform(a, c).Ok?
    ensures var change := Perform(a, c).value;
      change.next.id == a.id && forall e | e in MapDomainEvents(change.next, change.events) :: Concerns(e, a.id)
  {
    var change := Perform(a, c).value;
    var last := change.events[|change.events| - 1];
    MappedAlone(change.next, last);
    if |change.events| == 2 {
      MappedExtended(change.next, change.events[0], last);
      assert change.events == [change.events[0], last];
    } else {
      assert change.events == [last];
    }
  }

  // ---------- The invariant ----------

  /** What the tables should hold about one auction: its row, its bids and what was published about it. */
  datatype Account = Account(row: PgAuction, bids: seq<BidRow>, published: seq<Event>)

  /** The account its commands give. */
  function AccountOf(start: AuctionDomain.AuctionState, cs: seq<Command>): Account {
    Account(ToPgAuction(StoreRun(start, cs)), BidRows(start.id, Bids(Recorded(start, cs))), Announced(start, cs))
  }

  /** One more entry in the account. */
  function Entered(acc: Account, entry: Account): Account {
    Account(entry.row, acc.bids + entry.bids, acc.published + entry.published)
  }

  predicate Keyed(s: Store) {
    forall k | k in s.rows :: s.rows[k].id == k
  }

  /** Since before, the tables got this account of the auction, and nothing else about it. */
  ghost predicate Tracks(before: Store, s: Store, id: Id, acc: Account) {
    && id in s.rows && s.rows[id] == acc.row
    && Of(s.bids, id) == Of(before.bids, id) + acc.bids
    && About(s.outbox, id) == About(before.outbox, id) + acc.published
  }

  lemma EntryTracked(before: Store, s: Store, id: Id, acc: Account, entry: Account)
    requires Keyed(s) && Tracks(before, s, id, acc) && entry.row.id == id
    requires forall i | 0 <= i < |entry.bids| :: entry.bids[i].auctionId == id
    requires forall e | e in entry.published :: Concerns(e, id)
    ensures var s' := Store(s.rows[id := entry.row], s.bids + entry.bids, s.outbox + entry.published);
      Keyed(s') && Tracks(before, s', id, Entered(acc, entry))
  {
    OfConcat(s.bids, entry.bids, id);
    AboutConcat(s.outbox, entry.published, id, id);
  }

  lemma TransactUnfolds(s: Store, id: Id, a: AuctionDomain.AuctionState, c: Command)
    returns (change: AuctionDomain.Change)
    requires id in s.rows && ToDomainAuction(s.rows[id]) == Ok(a) && Commits(s, Order(id, c))
    ensures Perform(a, c) == Ok(change)
    ensures After(s, Order(id, c)) == Store(
      s.rows[id := UpdateColumns(s.rows[id], ToPgAuction(change.next), s.rows[id].version).value],
      s.bids + BidRows(change.next.id, Bids(change.events)),
      s.outbox + MapDomainEvents(change.next, change.events))
  {
    change := Perform(a, c).value;
  }

  /** A transaction of another auction. */
  lemma OtherEntry(s: Store, id: Id, of: Id, row: PgAuction, bids: seq<BidRow>, published: seq<Event>)
    requires Keyed(s) && row.id == of != id && forall i | 0 <= i < |bids| :: bids[i].auctionId == of
    requires forall e | e in published :: Concerns(e, of)
    ensures var s' := Store(s.rows[of := row], s.bids + bids, s.outbox + published);
      && Keyed(s') && (id in s.rows ==> id in s'.rows && s'.rows[id] == s.rows[id])
      && Of(s'.bids, id) == Of(s.bids, id) && About(s'.outbox, id) == About(s.outbox, id)
  {
    OfConcat(s.bids, bids, id);
    AboutConcat(s.outbox, published, of, id);
  }

  lemma AnotherAuctionMoves(s: Store, id: Id, o: Order)
    requires Keyed(s) && o.auction != id && Commits(s, o)
    ensures var s' := After(s, o);
      && Keyed(s') && (id in s.rows ==> id in s'.rows && s'.rows[id] == s.rows[id])
      && Of(s'.bids, id) == Of(s.bids, id) && About(s'.outbox, id) == About(s.outbox, id)
  {
    var row := s.rows[o.auction];
    var a := ToDomainAuction(row).value;
    var change := TransactUnfolds(s, o.auction, a, o.command);
    CommandConcerns(a, o.command);
    OtherEntry(s, id, o.auction, UpdateColumns(row, ToPgAuction(change.next), row.version).value,
               BidRows(change.next.id, Bids(change.events)), MapDomainEvents(change.next, change.events));
  }

  lemma StoreRunKeepsId(start: AuctionDomain.AuctionState, cs: seq<Command>)
    requires Valid(start) && WholeSeconds(start.antiSnipe) && forall c | c in cs :: WellTyped(c)
    ensures StoreRun(start, cs).id == start.id
  {
    if cs != [] {
      var front, c := cs[..|cs| - 1], cs[|cs| - 1];
      StoreRunKeepsId(start, front);
      if Perform(StoreRun(start, front), c).Ok? { CommandConcerns(StoreRun(start, front), c); }
    }
  }

  /** What a committed change adds to the account. */
  function EntryOf(id: Id, change: AuctionDomain.Change, v: int): Account {
    Account(ToPgAuction(change.next.(version := v + 1)), BidRows(id, Bids(change.events)),
            MapDomainEvents(change.next, change.events))
  }

  lemma RunGrows(start: AuctionDomain.AuctionState, cs: seq<Command>, c: Command, change: AuctionDomain.Change)
    requires Perform(StoreRun(start, cs), c) == Ok(change)
    ensures StoreRun(start, cs + [c]) == change.next.(version := StoreRun(start, cs).version + 1)
    ensures Recorded(start, cs + [c]) == Recorded(start, cs) + change.events
    ensures Announced(start, cs + [c]) == Announced(start, cs) + MapDomainEvents(change.next, change.events)
  {
    assert (cs + [c])[..|cs|] == cs;
  }

  lemma AccountGrows(start: AuctionDomain.AuctionState, cs: seq<Command>, c: Command, change: AuctionDomain.Change)
    requires Perform(StoreRun(start, cs), c) == Ok(change)
    ensures AccountOf(start, cs + [c])
         == Entered(AccountOf(start, cs), EntryOf(start.id, change, StoreRun(start, cs).version))
  {
    RunGrows(start, cs, c, change);
    BidsOfConcat(Recorded(start, cs), change.events);
    BidRowsOfConcat(start.id, Bids(Recorded(start, cs)), Bids(change.events));
  }

  lemma EntryIsProper(a: AuctionDomain.AuctionState, c: Command, change: AuctionDomain.Change)
    requires Perform(a, c) == Ok(change)
    ensures var entry := EntryOf(a.id, change, a.version);
      && entry.row.id == a.id && (forall i | 0 <= i < |entry.bids| :: entry.bids[i].auctionId == a.id)
      && forall e | e in entry.published :: Concerns(e, a.id)
  {
    CommandConcerns(a, c);
  }

  lemma WholeRow(a: AuctionDomain.AuctionState, c: Command, change: AuctionDomain.Change)
    requires Valid(a) && WellTyped(c) && Perform(a, c) == Ok(change)
    ensures change.next.id == a.id
    ensures UpdateColumns(ToPgAuction(a), ToPgAuction(change.next), a.version)
         == Some(ToPgAuction(change.next.(version := a.version + 1)))
  {
    PartialUpdateIsWhole(a, c);
    CommandConcerns(a, c);
  }

  lemma EntryWritten(s: Store, s': Store, a: AuctionDomain.AuctionState, change: AuctionDomain.Change)
    requires a.id in s.rows && s.rows[a.id] == ToPgAuction(a) && change.next.id == a.id
    requires UpdateColumns(ToPgAuction(a), ToPgAuction(change.next), a.version)
          == Some(ToPgAuction(change.next.(version := a.version + 1)))
    requires s' == Store(
      s.rows[a.id := UpdateColumns(s.rows[a.id], ToPgAuction(change.next), s.rows[a.id].version).value],
      s.bids + BidRows(change.next.id, Bids(change.events)),
      s.outbox + MapDomainEvents(change.next, change.events))
    ensures var entry := EntryOf(a.id, change, a.version);
      s' == Store(s.rows[a.id := entry.row], s.bids + entry.bids, s.outbox + entry.published)
  {
  }

  lemma ItsAuctionMoves(before: Store, s: Store, start: AuctionDomain.AuctionState, cs: seq<Command>, c: Command)
    requires Fresh(start) && WholeSeconds(start.antiSnipe) && WellTyped(c) && forall x | x in cs :: WellTyped(x)
    requires Keyed(s) && Tracks(before, s, start.id, AccountOf(start, cs)) && Commits(s, Order(start.id, c))
    ensures var s' := After(s, Order(start.id, c));
      Keyed(s') && Tracks(before, s', start.id, AccountOf(start, cs + [c]))
    ensures StoreRun(start, cs + [c]).version == StoreRun(start, cs).version + 1
  {
    var a := StoreRun(start, cs);
    RowsRefineMapOverRuns(start, cs);
    StoreRunKeepsId(start, cs);
    var change := TransactUnfolds(s, a.id, a, c);
    WholeRow(a, c, change);
    EntryWritten(s, After(s, Order(start.id, c)), a, change);
    EntryIsProper(a, c, change);
    RunGrows(start, cs, c, change);
    AccountGrows(start, cs, c, change);
    EntryTracked(before, s, start.id, AccountOf(start, cs), EntryOf(start.id, change, a.version));
  }

  lemma OrderTracked(before: Store, s: Store, start: AuctionDomain.AuctionState, cs: seq<Command>, o: Order)
    requires Fresh(start) && WholeSeconds(start.antiSnipe) && forall x | x in cs :: WellTyped(x)
    requires WellTyped(o.command) && Keyed(s) && Tracks(before, s, start.id, AccountOf(start, cs))
    ensures var s' := After(s, o); var more := if o.auction == start.id && Commits(s, o) then [o.command] else [];
      && Keyed(s') && Tracks(before, s', start.id, AccountOf(start, cs + more))
      && StoreRun(start, cs + more).version == StoreRun(start, cs).version + |more|
  {
    assert cs + [] == cs;
    if Commits(s, o) {
      if o.auction == start.id {
        ItsAuctionMoves(before, s, start, cs, o.command);
      } else {
        AnotherAuctionMoves(s, start.id, o);
      }
    }
  }

  /**
    Whatever transactions are run, to this auction and any others: its row is the aggregate
    after the commands that were committed, its part of the history grew by exactly the bid
    log, in order, and what was published about it is exactly what they announced.
   */
  lemma {:induction false} HistoryIsBidLog(s: Store, orders: seq<Order>, start: AuctionDomain.AuctionState)
    requires Keyed(s) && start.id in s.rows && s.rows[start.id] == ToPgAuction(start)
    requires Fresh(start) && WholeSeconds(start.antiSnipe) && forall o | o in orders :: WellTyped(o.command)
    ensures forall c | c in Committed(s, orders, start.id) :: WellTyped(c)
    ensures Keyed(Work(s, orders))
    ensures var done := Committed(s, orders, start.id);
      Tracks(s, Work(s, orders), start.id, AccountOf(start, done))
      && StoreRun(start, done).version == start.version + |done|
  {
    if orders != [] {
      var front, o := orders[..|orders| - 1], orders[|orders| - 1];
      HistoryIsBidLog(s, front, start);
      OrderTracked(s, Work(s, front), start, Committed(s, front, start.id), o);
    }
  }

  /**
    An auction listed into an empty history: over any transactions its row counts the
    history's entries and shows the last two of them, unless the winner was reassigned.
   */
  lemma HistoryMatchesRow(s: Store, orders: seq<Order>, start: AuctionDomain.AuctionState)
    requires Keyed(s) && start.id in s.rows && s.rows[start.id] == ToPgAuction(start) && Of(s.bids, start.id) == []
    requires Fresh(start) && WholeSeconds(start.antiSnipe) && forall o | o in orders :: WellTyped(o.command)
    ensures start.id in Work(s, orders).rows
    ensures HeadOfHistory(Work(s, orders).rows[start.id], Of(Work(s, orders).bids, start.id))
  {
    HistoryIsBidLog(s, orders, start);
    var cs := Committed(s, orders, start.id);
    var acc := AccountOf(start, cs);
    AccountHeads(start, cs);
    assert [] + acc.bids == acc.bids;
  }

  /** The row's denormalized columns against the history. */
  ghost predicate HeadOfHistory(row: PgAuction, history: seq<BidRow>) {
    var n := |history|;
    && row.bidCount == n
    && (!row.winnerReassigned ==>
          && row.leadingBidId == (if n > 0 then Some(history[n - 1].bidId) else None)
          && row.leadingBidderId == (if n > 0 then Some(history[n - 1].bidderId) else None)
          && row.leadingAmountMinor == (if n > 0 then Some(history[n - 1].amountMinor) else None)
          && row.runnerUpBidId == (if n > 1 then Some(history[n - 2].bidId) else None)
          && row.runnerUpBidderId == (if n > 1 then Some(history[n - 2].bidderId) else None)
          && row.runnerUpAmountMinor == (if n > 1 then Some(history[n - 2].amountMinor) else None))
  }

  lemma LogHeadsRow(a: AuctionDomain.AuctionState, v: int, bids: seq<AuctionDomain.Bid>, id: Id)
    requires Valid(a) && a.bidCount == |bids|
    requires !a.winnerReassigned ==> a.leadingBid == FromEnd(bids, 0) && a.runnerUpBid == FromEnd(bids, 1)
    ensures HeadOfHistory(ToPgAuction(a.(version := v)), BidRows(id, bids))
  {
  }

  lemma AccountHeads(start: AuctionDomain.AuctionState, cs: seq<Command>)
    requires Fresh(start) && forall c | c in cs :: WellTyped(c)
    ensures HeadOfHistory(AccountOf(start, cs).row, AccountOf(start, cs).bids)
  {
    StoreRunsTheAggregate(start, cs);
    TopTwoRefinesLog(start, cs);
    RunsKeepInv(Run(start, []), cs);
    var r := Execute(Run(start, []), cs);
    LogHeadsRow(r.state, StoreRun(start, cs).version, Bids(r.log), start.id);
  }

  // ---------- The store runs the aggregate ----------

  lemma VersionIsNotRead(a: AuctionDomain.AuctionState, v: int, c: Command)
    ensures Perform(a.(version := v), c) ==
      match Perform(a, c)
      case Ok(change) => Ok(AuctionDomain.Change(change.next.(version := v), change.events))
      case Err(e) => Err(e)
  {
  }

  /** Up to the version, which the store counts, the map store runs the aggregate and records the same events. */
  lemma {:induction false} StoreRunsTheAggregate(start: AuctionDomain.AuctionState, cs: seq<Command>)
    ensures var r := Execute(Run(start, []), cs);
      StoreRun(start, cs) == r.state.(version := StoreRun(start, cs).version) && Recorded(start, cs) == r.log
  {
    if cs != [] {
      var front, c := cs[..|cs| - 1], cs[|cs| - 1];
      StoreRunsTheAggregate(start, front);
      VersionIsNotRead(Execute(Run(start, []), front).state, StoreRun(start, front).version, c);
    }
  }

  // ---------- The history and the outbox ----------

  /** The bids a stream of events tells of. */
  function ToldBids(es: seq<Event>): seq<BidRow> {
    if es == [] then []
    else
      var e := es[|es| - 1];
      ToldBids(es[..|es| - 1])
      + (if e.BidPlacedV1? then [BidRow(e.bidId, e.auctionId, e.bidderId, e.amountMinor, e.currency, e.at)] else [])
  }

  lemma {:induction false} ToldBidsOfConcat(xs: seq<Event>, ys: seq<Event>)
    ensures ToldBids(xs + ys) == ToldBids(xs) + ToldBids(ys)
  {
    if ys == [] {
      assert xs + ys == xs;
    } else {
      var front := ys[..|ys| - 1];
      assert (xs + ys)[..|xs + ys| - 1] == xs + front;
      ToldBidsOfConcat(xs, front);
    }
  }

  lemma RecordedBids(a: AuctionDomain.AuctionState, c: Command)
    requires Perform(a, c).Ok?
    ensures Bids(Perform(a, c).value.events)
         == if c.DoBid? then [AuctionDomain.Bid(c.id, c.bidder.id, c.amount, c.now)] else []
  {
    var events := Perform(a, c).value.events;
    assert Bids(events[..0]) == [];
    if |events| == 2 {
      assert events[..1][..0] == [];
      assert Bids(events[..1]) == [];
    }
  }

  /** What a command adds to the history is what it tells. */
  lemma CommandTellsItsBids(a: AuctionDomain.AuctionState, c: Command)
    requires Valid(a) && WellTyped(c) && Perform(a, c).Ok?
    ensures var change := Perform(a, c).value;
      ToldBids(MapDomainEvents(change.next, change.events)) == BidRows(a.id, Bids(change.events))
  {
    var change := Perform(a, c).value;
    var es := MapDomainEvents(change.next, change.events);
    CommandTells(a, c);
    assert es == [es[0]] && es[..0] == [];
    RecordedBids(a, c);
  }

  lemma {:induction false} CommandsTellTheirBids(start: AuctionDomain.AuctionState, cs: seq<Command>)
    requires Fresh(start) && WholeSeconds(start.antiSnipe) && forall c | c in cs :: WellTyped(c)
    ensures ToldBids(Announced(start, cs)) == BidRows(start.id, Bids(Recorded(start, cs)))
  {
    if cs != [] {
      var front, c := cs[..|cs| - 1], cs[|cs| - 1];
      var a := StoreRun(start, front);
      CommandsTellTheirBids(start, front);
      RowsRefineMapOverRuns(start, front);
      StoreRunKeepsId(start, front);
      assert cs == front + [c];
      if Perform(a, c).Ok? {
        var change := Perform(a, c).value;
        RunGrows(start, front, c, change);
        CommandTellsItsBids(a, c);
        BidsOfConcat(Recorded(start, front), change.events);
        BidRowsOfConcat(start.id, Bids(Recorded(start, front)), Bids(change.events));
        ToldBidsOfConcat(Announced(start, front), MapDomainEvents(change.next, change.events));
      } else {
        assert Announced(start, cs) == Announced(start, front) && Recorded(start, cs) == Recorded(start, front);
      }
    }
  }

  /** An auction's history and what was published of its bids agree, row by row, over any transactions. */
  lemma HistoryIsWhatWasTold(s: Store, orders: seq<Order>, start: AuctionDomain.AuctionState)
    requires Keyed(s) && start.id in s.rows && s.rows[start.id] == ToPgAuction(start)
    requires Fresh(start) && WholeSeconds(start.antiSnipe) && forall o | o in orders :: WellTyped(o.command)
    requires Of(s.bids, start.id) == ToldBids(About(s.outbox, start.id))
    ensures var s' := Work(s, orders); Of(s'.bids, start.id) == ToldBids(About(s'.outbox, start.id))
  {
    HistoryIsBidLog(s, orders, start);
    var cs := Committed(s, orders, start.id);
    CommandsTellTheirBids(start, cs);
    ToldBidsOfConcat(About(s.outbox, start.id), Announced(start, cs));
  }

  // ---------- The primary key ----------

  predicate UniqueIds(bids: seq<BidRow>) {
    forall i, j | 0 <= i < j < |bids| :: bids[i].bidId != bids[j].bidId
  }

  lemma {:induction false} InsertedUnique(bids: seq<BidRow>, more: seq<BidRow>)
    requires UniqueIds(bids) && Insertable(bids, more)
    ensures UniqueIds(bids + more)
  {
    if more == [] {
      assert bids + more == bids;
    } else {
      var front := more[..|more| - 1];
      InsertedUnique(bids, front);
      assert bids + more == bids + front + [more[|more| - 1]];
    }
  }

  /** No two bids of the whole history share an id, whatever ids clients send. */
  lemma {:induction false} KeyHolds(s: Store, orders: seq<Order>)
    requires UniqueIds(s.bids)
    ensures UniqueIds(Work(s, orders).bids)
  {
    if orders != [] {
      var front, o := orders[..|orders| - 1], orders[|orders| - 1];
      KeyHolds(s, front);
      var t := Work(s, front);
      if Commits(t, o) {
        var change := Perform(ToDomainAuction(t.rows[o.auction]).value, o.command).value;
        InsertedUnique(t.bids, BidRows(change.next.id, Bids(change.events)));
      }
    }
  }

  /** A bid the aggregate accepts is rolled back exactly if its id was used before, for whatever auction. */
  lemma ReusedIdRollsBack(s: Store, id: Id, a: AuctionDomain.AuctionState, c: Command)
    requires id in s.rows && ToDomainAuction(s.rows[id]) == Ok(a) && c.DoBid? && Perform(a, c).Ok?
    ensures Transact(s, id, Obey(c)) == Err(DuplicateBid) <==> IdTaken(s.bids, c.id)
  {
    var change := Perform(a, c).value;
    BidsOfCommand(a, c);
    var row := ToBidRow(change.next.id, AuctionDomain.Bid(c.id, c.bidder.id, c.amount, c.now));
    assert BidRows(change.next.id, Bids(change.events)) == [] + [row];
    AppendedOne(s.bids, [], row);
    assert s.bids + [] == s.bids;
  }
}
