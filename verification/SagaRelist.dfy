/**
  Replacements. The relist command reads the original and inserts the replacement in two
  separate transactions; the machine takes them as one step, and this is why that loses
  nothing. And whatever happens, a replacement offers what its original does.
 */
module SagaRelist {
  import opened Base
  import AuctionDomain
  import opened AuctionRuns
  import opened AuctionRules
  import opened Database
  import opened Saga
  import opened SagaTransactions
  import opened SagaFacts

  // ---------- The two calls ----------

  /** The first call: load the original and build its replacement. */
  function BuildReplacement(db: Db, original: Id, cfg: Config, clk: Clock): AuctionDomain.Verdict {
    var startsAt := clk.now + cfg.relistDelay;
    match AuctionDomain.NewBiddingWindow(startsAt, startsAt + cfg.relistDuration)
    case None => Err(AuctionDomain.ErrInvalidBiddingWindow)
    case Some(window) =>
      if original !in db.auctions then Err(AuctionDomain.ErrNotFound)
      else AuctionDomain.RelistedFrom(db.auctions[original], RelistOf(original), window, clk.later)
  }

  /** The second call: store it, unless the original has a replacement already. */
  function InsertReplacement(db: Db, built: AuctionDomain.Verdict): Called {
    match built
    case Err(e) => Called(db, Some(AuctionFault(e)))
    case Ok(v) => Idempotent(db, AddAuction(db, v), AuctionDomain.ErrAlreadyRelisted)
  }

  lemma RelistIsBuildThenInsert(db: Db, original: Id, cfg: Config, clk: Clock)
    ensures RelistEffect(db, original, cfg, clk) == InsertReplacement(db, BuildReplacement(db, original, cfg, clk))
  {
  }

  // ---------- What a replacement takes over never changes ----------

  predicate KeepsOffer(x: AuctionDomain.AuctionState, y: AuctionDomain.AuctionState) {
    SameOffer(x, y) && y.id == x.id && y.relistOf == x.relistOf && y.relistGen == x.relistGen
  }

  ghost predicate OffersKept(db: Db, db': Db) {
    forall k | k in db.auctions :: k in db'.auctions && KeepsOffer(db.auctions[k], db'.auctions[k])
  }

  lemma OrderKeepsOffers(db: Db, id: Id, c: Command)
    requires RowsKeyed(db)
    ensures UpdateAuction(db, id, c).Ok? ==> OffersKept(db, UpdateAuction(db, id, c).value)
  {
  }

  lemma TransactionKeepsOffers(db: Db, x: Transaction, cfg: Config)
    requires RowsKeyed(db)
    ensures OffersKept(db, Commit(db, x, cfg))
  {
    if x.Order? {
      OrderKeepsOffers(db, x.auction, x.command);
    } else if x.Replace? {
      var v := ReplaceUnfolds(db, x.auction, cfg, x.clk);
    }
  }

  lemma {:induction false} LaterKeepsOffers(acts: seq<Act>, more: seq<Act>, cfg: Config)
    ensures OffersKept(Reach(acts, cfg).db, Reach(acts + more, cfg).db)
  {
    if more == [] {
      assert acts + more == acts;
    } else {
      var front := more[..|more| - 1];
      LaterKeepsOffers(acts, front, cfg);
      ReachKeepsFacts(acts + front, cfg);
      LastAct(acts, more, cfg);
      var x := NextTransaction(Reach(acts + front, cfg), more[|more| - 1], cfg);
      TransactionKeepsOffers(Reach(acts + front, cfg).db, x, cfg);
    }
  }

  // ---------- A replacement offers what its original offers ----------

  ghost predicate ReplacementsFaithful(db: Db) {
    forall k | k in db.auctions && db.auctions[k].relistOf != Nil ::
      db.auctions[k].relistOf in db.auctions && SameOffer(db.auctions[db.auctions[k].relistOf], db.auctions[k])
  }

  /** What is new in the table is no replacement, or a faithful one. */
  ghost predicate NewcomersFaithful(db: Db, db': Db) {
    forall k | k in db'.auctions && k !in db.auctions && db'.auctions[k].relistOf != Nil ::
      db'.auctions[k].relistOf in db.auctions && SameOffer(db.auctions[db'.auctions[k].relistOf], db'.auctions[k])
  }

  lemma FaithfulStays(db: Db, db': Db)
    requires ReplacementsFaithful(db) && OffersKept(db, db') && NewcomersFaithful(db, db')
    ensures ReplacementsFaithful(db')
  {
    forall k | k in db'.auctions && db'.auctions[k].relistOf != Nil
      ensures db'.auctions[k].relistOf in db'.auctions
      ensures SameOffer(db'.auctions[db'.auctions[k].relistOf], db'.auctions[k])
    {
      var original := db'.auctions[k].relistOf;
      if k in db.auctions { assert KeepsOffer(db.auctions[k], db'.auctions[k]); }
      assert original in db.auctions && KeepsOffer(db.auctions[original], db'.auctions[original]);
    }
  }

  lemma NewcomersOfReplace(db: Db, a: Id, cfg: Config, clk: Clock)
    requires RowsKeyed(db)
    ensures NewcomersFaithful(db, RelistEffect(db, a, cfg, clk).db)
  {
    RelistIsBuildThenInsert(db, a, cfg, clk);
    var built := BuildReplacement(db, a, cfg, clk);
    if built.Ok? {
      var startsAt := clk.now + cfg.relistDelay;
      var window := AuctionDomain.NewBiddingWindow(startsAt, startsAt + cfg.relistDuration).value;
      ReplacementOffersTheSame(db.auctions[a], RelistOf(a), window, clk.later);
    }
  }

  lemma NewcomersOfTransaction(db: Db, x: Transaction, cfg: Config)
    requires RowsKeyed(db) && WellFormed(x)
    ensures NewcomersFaithful(db, Commit(db, x, cfg))
  {
    if x.Replace? {
      NewcomersOfReplace(db, x.auction, cfg, x.clk);
    } else if x.Order? {
      OrderAddsNothing(db, x.auction, x.command);
    }
  }

  lemma OrderAddsNothing(db: Db, id: Id, c: Command)
    requires RowsKeyed(db)
    ensures var r := UpdateAuction(db, id, c); r.Ok? ==> r.value.auctions.Keys == db.auctions.Keys
  {
    if UpdateAuction(db, id, c).Ok? { var y, es := OrderUnfolds(db, id, c); }
  }

  /** In every reachable store a replacement offers the lot, the prices and the rules of its original. */
  lemma {:induction false} ReplacementsAreFaithful(acts: seq<Act>, cfg: Config)
    ensures ReplacementsFaithful(Reach(acts, cfg).db)
  {
    if acts != [] {
      var front := acts[..|acts| - 1];
      ReplacementsAreFaithful(front, cfg);
      ReachKeepsFacts(front, cfg);
      var x := NextTransaction(Reach(front, cfg), acts[|acts| - 1], cfg);
      TransactionKeepsOffers(Reach(front, cfg).db, x, cfg);
      NewcomersOfTransaction(Reach(front, cfg).db, x, cfg);
      FaithfulStays(Reach(front, cfg).db, Reach(acts, cfg).db);
    }
  }

  /**
    A stale read does no harm: whatever happens between the two calls, inserting what was
    built from the original as it stood then does what one atomic relist does now.
   */
  lemma StaleReadIsHarmless(acts: seq<Act>, more: seq<Act>, cfg: Config, a: Id, clk: Clock)
    requires a in Reach(acts, cfg).db.auctions
    ensures var before, after := Reach(acts, cfg).db, Reach(acts + more, cfg).db;
      InsertReplacement(after, BuildReplacement(before, a, cfg, clk)) == RelistEffect(after, a, cfg, clk)
  {
    LaterKeepsOffers(acts, more, cfg);
    RelistIsBuildThenInsert(Reach(acts + more, cfg).db, a, cfg, clk);
    BuiltAlike(Reach(acts, cfg).db, Reach(acts + more, cfg).db, a, cfg, clk);
  }

  lemma BuiltAlike(db: Db, db': Db, a: Id, cfg: Config, clk: Clock)
    requires OffersKept(db, db') && a in db.auctions
    ensures BuildReplacement(db', a, cfg, clk) == BuildReplacement(db, a, cfg, clk)
  {
  }
}
