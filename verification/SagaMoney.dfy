/**
  The saga machine and the payment machine run together on one table of invoices: payers
  charge the provider outside any transaction while sagas bill, award, void and settle.
  Each machine sees the other only as a run of its own moves, so the results of both hold,
  and together they say where the money is when a sale has its verdict.
 */
module SagaMoney {
  import opened Base
  import opened Events
  import AuctionDomain
  import InvoiceDomain
  import opened InvoiceAggregate
  import opened PspLedger
  import P = PayInvoice
  import opened Database
  import opened Saga
  import opened SagaTransactions
  import opened SagaFacts
  import opened SagaTheorems

  // ---------- The joint machine ----------

  datatype Joint = Joint(world: World, payers: map<nat, P.Payer>, psp: Ledger, abandoned: set<Id>)

  datatype JointAct =
    | Elsewhere(act: Act)
    | Arrives(payer: nat, invoice: Id, actor: Id)
    | Pays(payer: nat, oracle: P.Oracle)
    | GivesUp(payer: nat)

  /** The payment machine keeps no versions. */
  function Unversioned(m: Invoices): Invoices { map k | k in m :: m[k].(version := 1) }

  function BooksOf(j: Joint): P.Books { P.Books(Unversioned(j.world.db.invoices), j.psp) }

  /** The debtor's invoice is there, but its row cannot be read back. */
  predicate CannotRead(db: Db, p: P.Payer) {
    p.pc.Reading? && Lookup(db.invoices, p.invoice, p.actor).Some? && !InvoiceDomain.Readable(db.invoices[p.invoice])
  }

  function GivenUp(j: Joint, n: nat): Joint
    requires n in j.payers
  {
    j.(payers := j.payers - {n}, abandoned := j.abandoned + {j.payers[n].invoice})
  }

  /** Marking the invoice paid is one transaction on the shared table. */
  ghost function AfterMark(w: World, p: P.Payer, o: P.Oracle, cfg: Config): World {
    if p.pc.Marking? && Lookup(w.db.invoices, p.invoice, p.actor).Some?
    then Next(w, PayInvoice(p.invoice, p.pc.ref, o.now), cfg)
    else w
  }

  ghost function JointNext(j: Joint, a: JointAct, cfg: Config): Joint {
    match a
    case Elsewhere(act) => if act.PayInvoice? then j else j.(world := Next(j.world, act, cfg))
    case Arrives(n, inv, actor) =>
      if n in j.payers then j else j.(payers := j.payers[n := P.Payer(inv, actor, P.Reading)])
    case Pays(n, o) =>
      if n !in j.payers || j.payers[n].pc.Finished? || o.newRef == InvoiceDomain.NO_REFERENCE then j
      else if CannotRead(j.world.db, j.payers[n]) then GivenUp(j, n)
      else
        var (b, p) := P.PayStep(BooksOf(j), j.payers[n], o);
        Joint(AfterMark(j.world, j.payers[n], o, cfg), j.payers[n := p], b.psp, P.AfterAnswer(j.abandoned, p))
    case GivesUp(n) => if n !in j.payers || j.payers[n].pc.Finished? then j else GivenUp(j, n)
  }

  const IDLE := Joint(NOTHING, map[], Ledger(map[], {}), {})

  ghost function JointReach(acts: seq<JointAct>, cfg: Config): Joint {
    if acts == [] then IDLE else JointNext(JointReach(acts[..|acts| - 1], cfg), acts[|acts| - 1], cfg)
  }

  // ---------- What the saga machine sees ----------

  ghost predicate SagaSees(w: World, cfg: Config) { exists acts :: Reach(acts, cfg) == w }

  lemma SagaActs(w: World, act: Act, cfg: Config)
    requires SagaSees(w, cfg)
    ensures SagaSees(Next(w, act, cfg), cfg)
  {
    var acts :| Reach(acts, cfg) == w;
    assert (acts + [act])[..|acts|] == acts;
    assert Reach(acts + [act], cfg) == Next(w, act, cfg);
  }

  lemma {:induction false} JointIsSagaRun(acts: seq<JointAct>, cfg: Config)
    ensures SagaSees(JointReach(acts, cfg).world, cfg)
  {
    if acts == [] {
      assert Reach([], cfg) == NOTHING;
    } else {
      var front, a := acts[..|acts| - 1], acts[|acts| - 1];
      JointIsSagaRun(front, cfg);
      var j := JointReach(front, cfg);
      if a.Elsewhere? {
        SagaActs(j.world, a.act, cfg);
      } else if a.Pays? && a.payer in j.payers && j.payers[a.payer].pc.Marking? {
        SagaActs(j.world, PayInvoice(j.payers[a.payer].invoice, j.payers[a.payer].pc.ref, a.oracle.now), cfg);
      }
    }
  }

  // ---------- What the payment machine sees ----------

  function PayStateOf(j: Joint): P.PayState { P.PayState(BooksOf(j), j.payers, j.abandoned) }

  ghost predicate PayersSee(s: P.PayState) { exists moves :: P.Reach(moves) == s }

  lemma PayersMove(s: P.PayState, m: P.Move)
    requires PayersSee(s)
    ensures PayersSee(P.Next(s, m))
  {
    var moves :| P.Reach(moves) == s;
    assert (moves + [m])[..|moves|] == moves;
    assert P.Reach(moves + [m]) == P.Next(s, m);
  }

  /** Whoever is past reading has read the row. */
  ghost predicate HaveRead(j: Joint) {
    forall n | n in j.payers && !j.payers[n].pc.Reading? && !j.payers[n].pc.Finished? ::
      var inv := j.payers[n].invoice;
      inv in j.world.db.invoices && InvoiceDomain.Readable(j.world.db.invoices[inv])
  }

  ghost predicate AmountsKept(db: Db, db': Db) {
    forall k | k in db.invoices ::
      && k in db'.invoices
      && db'.invoices[k] == db.invoices[k].(status := db'.invoices[k].status, pspRef := db'.invoices[k].pspRef,
                                            version := db'.invoices[k].version)
  }

  /** The move of the payment machine that a transaction amounts to; None if it leaves the invoices alone. */
  function MoveOf(db: Db, x: Transaction, cfg: Config): Option<P.Move> {
    match x
    case Issue(inv, a, debtor, amount, attempt, now) =>
      (match InvoiceDomain.NewInvoice(inv, a, debtor, amount, cfg.terms, attempt, now)
       case Ok(c) => if amount.Valid() then Some(P.Issue(c.next)) else None
       case Err(_) => None)
    case Finish(inv, Expiry(at)) =>
      if inv in db.invoices && InvoiceDomain.Readable(db.invoices[inv]) then Some(P.Expiry(inv, at)) else None
    case Finish(inv, Withdrawal(at)) =>
      if inv in db.invoices && InvoiceDomain.Readable(db.invoices[inv]) then Some(P.Voiding(inv, at)) else None
    case _ => None
  }

  /** The invoices after the transaction, as the payment machine has them. */
  ghost predicate MovedAs(db': Db, s: P.PayState, m: Option<P.Move>) {
    Unversioned(db'.invoices) == if m.Some? then P.Next(s, m.value).books.invoices else s.books.invoices
  }

  lemma IssuedAlike(m: Invoices, i: InvoiceDomain.InvoiceState)
    ensures Issued(Unversioned(m), i) <==> Issued(m, i)
  {
    if Issued(m, i) && i.id !in m {
      var k :| k in m && m[k].auctionId == i.auctionId && m[k].attempt == i.attempt;
      assert k in Unversioned(m) && Unversioned(m)[k].auctionId == i.auctionId;
    }
  }

  /** What an issue stores, if it stores anything. */
  lemma IssueUnfolds(db: Db, x: Transaction, cfg: Config) returns (es: seq<Event>)
    requires x.Issue?
    ensures var m := MoveOf(db, x, cfg);
      && (m.Some? ==>
            m.value.Issue? && m.value.bill.version == 1
            && m.value.bill.status == InvoiceDomain.Pending && m.value.bill.pspRef == InvoiceDomain.NO_REFERENCE)
      && Commit(db, x, cfg)
         == if m.Some? && !Issued(db.invoices, m.value.bill) then PutInvoice(db, m.value.bill, es) else db
  {
    es := [];
    var r := InvoiceDomain.NewInvoice(x.invoice, x.auction, x.debtor, x.amount, cfg.terms, x.attempt, x.now);
    if r.Ok? { es := MapInvoiceEvent(r.value.event); }
  }

  lemma IssueIsMove(db: Db, x: Transaction, cfg: Config, s: P.PayState)
    requires x.Issue? && s.books.invoices == Unversioned(db.invoices)
    ensures AmountsKept(db, Commit(db, x, cfg)) && MovedAs(Commit(db, x, cfg), s, MoveOf(db, x, cfg))
  {
    var es := IssueUnfolds(db, x, cfg);
    var m := MoveOf(db, x, cfg);
    if m.Some? {
      IssuedAlike(db.invoices, m.value.bill);
      StoredAlike(db, m.value.bill, es);
    }
  }

  lemma StoredAlike(db: Db, i: InvoiceDomain.InvoiceState, es: seq<Event>)
    requires i.version == 1
    ensures Unversioned(PutInvoice(db, i, es).invoices) == Unversioned(db.invoices)[i.id := i]
  {
  }

  /** Ending an invoice does not look at its version. */
  lemma EndsAlike(i: InvoiceDomain.InvoiceState, e: InvoiceDomain.Ending)
    ensures InvoiceDomain.End(i, e).Ok? <==> InvoiceDomain.End(i.(version := 1), e).Ok?
    ensures InvoiceDomain.End(i, e).Ok? ==>
      var next := InvoiceDomain.End(i, e).value.next;
      && InvoiceDomain.End(i.(version := 1), e).value.next == next.(version := 1)
      && next == i.(status := next.status, pspRef := next.pspRef)
  {
  }

  lemma EndedAlike(db: Db, inv: Id, e: InvoiceDomain.Ending)
    requires inv in db.invoices && InvoiceDomain.Readable(db.invoices[inv]) && db.invoices[inv].id == inv
    ensures var r := UpdateInvoice(db, inv, e);
      var ended := InvoiceDomain.End(Unversioned(db.invoices)[inv], e);
      var db' := if r.Ok? then r.value else db;
      && AmountsKept(db, db')
      && Unversioned(db'.invoices)
         == if ended.Ok? then Unversioned(db.invoices)[inv := ended.value.next] else Unversioned(db.invoices)
  {
    EndsAlike(db.invoices[inv], e);
  }

  lemma FinishIsMove(db: Db, x: Transaction, cfg: Config, s: P.PayState)
    requires x.Finish? && !PaysInvoice(x) && s.books.invoices == Unversioned(db.invoices)
    requires x.invoice in db.invoices ==> db.invoices[x.invoice].id == x.invoice
    ensures AmountsKept(db, Commit(db, x, cfg)) && MovedAs(Commit(db, x, cfg), s, MoveOf(db, x, cfg))
  {
    if x.invoice in db.invoices && InvoiceDomain.Readable(db.invoices[x.invoice]) {
      EndedAlike(db, x.invoice, x.ending);
    }
  }

  lemma TransactionIsMove(db: Db, x: Transaction, cfg: Config, s: P.PayState)
    requires RowsKeyed(db) && !PaysInvoice(x) && s.books.invoices == Unversioned(db.invoices)
    ensures AmountsKept(db, Commit(db, x, cfg)) && MovedAs(Commit(db, x, cfg), s, MoveOf(db, x, cfg))
  {
    if x.Issue? { IssueIsMove(db, x, cfg, s); }
    else if x.Finish? { FinishIsMove(db, x, cfg, s); }
  }

  lemma WorldMoved(j: Joint, w: World, m: Option<P.Move>)
    requires PayersSee(PayStateOf(j)) && HaveRead(j) && AmountsKept(j.world.db, w.db)
    requires MovedAs(w.db, PayStateOf(j), m) && (m.Some? ==> m.value.Issue? || m.value.Expiry? || m.value.Voiding?)
    ensures PayersSee(PayStateOf(j.(world := w))) && HaveRead(j.(world := w))
  {
    if m.Some? {
      PayersMove(PayStateOf(j), m.value);
      assert PayStateOf(j.(world := w)) == P.Next(PayStateOf(j), m.value);
    } else {
      assert PayStateOf(j.(world := w)) == PayStateOf(j);
    }
  }

  lemma ElsewhereSeen(j: Joint, act: Act, cfg: Config)
    requires RowsKeyed(j.world.db) && PayersSee(PayStateOf(j)) && HaveRead(j) && !act.PayInvoice?
    ensures var j' := j.(world := Next(j.world, act, cfg)); PayersSee(PayStateOf(j')) && HaveRead(j')
  {
    var x := NextTransaction(j.world, act, cfg);
    TransactionIsMove(j.world.db, x, cfg, PayStateOf(j));
    WorldMoved(j, Next(j.world, act, cfg), MoveOf(j.world.db, x, cfg));
  }

  // ---------- A payer's call ----------

  lemma MarkKeepsAmounts(w: World, p: P.Payer, o: P.Oracle, cfg: Config)
    requires RowsKeyed(w.db) && p.pc.Marking?
    requires p.invoice in w.db.invoices && InvoiceDomain.Readable(w.db.invoices[p.invoice])
    ensures AmountsKept(w.db, AfterMark(w, p, o, cfg).db)
  {
    EndedAlike(w.db, p.invoice, InvoiceDomain.Payment(p.pc.ref, o.now));
  }

  lemma MarkIsMove(j: Joint, p: P.Payer, o: P.Oracle, cfg: Config)
    requires RowsKeyed(j.world.db) && p.pc.Marking?
    requires p.invoice in j.world.db.invoices && InvoiceDomain.Readable(j.world.db.invoices[p.invoice])
    ensures Unversioned(AfterMark(j.world, p, o, cfg).db.invoices) == P.PayStep(BooksOf(j), p, o).0.invoices
  {
    EndedAlike(j.world.db, p.invoice, InvoiceDomain.Payment(p.pc.ref, o.now));
  }

  lemma OtherCallsLeaveInvoices(j: Joint, p: P.Payer, o: P.Oracle)
    requires !p.pc.Marking?
    ensures P.PayStep(BooksOf(j), p, o).0.invoices == BooksOf(j).invoices
    ensures var p' := P.PayStep(BooksOf(j), p, o).1;
      p'.pc.Finished? || p'.pc.Reading? || !p.pc.Reading? || Lookup(BooksOf(j).invoices, p.invoice, p.actor).Some?
  {
  }

  lemma CallKeepsPayer(b: P.Books, p: P.Payer, o: P.Oracle)
    ensures P.PayStep(b, p, o).1.invoice == p.invoice
    ensures p.pc.Finished? ==> P.PayStep(b, p, o).1.pc.Finished?
  {
  }

  lemma PaysSeen(j: Joint, n: nat, o: P.Oracle, cfg: Config)
    requires RowsKeyed(j.world.db) && PayersSee(PayStateOf(j)) && HaveRead(j) && n in j.payers
    requires !j.payers[n].pc.Finished? && o.newRef != InvoiceDomain.NO_REFERENCE && !CannotRead(j.world.db, j.payers[n])
    ensures var j' := JointNext(j, Pays(n, o), cfg); PayersSee(PayStateOf(j')) && HaveRead(j')
  {
    var p, j' := j.payers[n], JointNext(j, Pays(n, o), cfg);
    if p.pc.Marking? {
      MarkKeepsAmounts(j.world, p, o, cfg);
      MarkIsMove(j, p, o, cfg);
    } else {
      OtherCallsLeaveInvoices(j, p, o);
    }
    CallKeepsPayer(BooksOf(j), p, o);
    PayersMove(PayStateOf(j), P.Advance(n, o));
    assert PayStateOf(j') == P.Next(PayStateOf(j), P.Advance(n, o));
  }

  lemma GivenUpSeen(j: Joint, n: nat)
    requires PayersSee(PayStateOf(j)) && HaveRead(j) && n in j.payers && !j.payers[n].pc.Finished?
    ensures PayersSee(PayStateOf(GivenUp(j, n))) && HaveRead(GivenUp(j, n))
  {
    PayersMove(PayStateOf(j), P.Crash(n));
  }

  lemma {:induction false} JointIsPaymentRun(acts: seq<JointAct>, cfg: Config)
    ensures PayersSee(PayStateOf(JointReach(acts, cfg))) && HaveRead(JointReach(acts, cfg))
  {
    if acts == [] {
      assert P.Reach([]) == P.NOTHING;
      assert PayStateOf(IDLE) == P.NOTHING;
    } else {
      var front, a := acts[..|acts| - 1], acts[|acts| - 1];
      var j := JointReach(front, cfg);
      JointIsPaymentRun(front, cfg);
      JointIsKeyed(front, cfg);
      if JointNext(j, a, cfg) != j {
        match a
        case Elsewhere(act) => ElsewhereSeen(j, act, cfg);
        case Arrives(n, inv, actor) => PayersMove(PayStateOf(j), P.Arrive(n, inv, actor));
        case Pays(n, o) =>
          if CannotRead(j.world.db, j.payers[n]) { GivenUpSeen(j, n); } else { PaysSeen(j, n, o, cfg); }
        case GivesUp(n) => GivenUpSeen(j, n);
      }
    }
  }

  lemma JointIsKeyed(acts: seq<JointAct>, cfg: Config)
    ensures RowsKeyed(JointReach(acts, cfg).world.db)
  {
    JointIsSagaRun(acts, cfg);
    var run :| Reach(run, cfg) == JointReach(acts, cfg).world;
    ReachKeepsFacts(run, cfg);
  }

  // ---------- Main result ----------

  /** No attempt to pay this invoice is under way, and none broke off without being repeated. */
  ghost predicate AtRest(j: Joint, k: Id) {
    k !in j.abandoned && forall n | n in j.payers && j.payers[n].invoice == k :: j.payers[n].pc.Finished?
  }

  /** The debtor's money follows the invoice. */
  ghost predicate Square(j: Joint, k: Id) {
    NetDebit(j.psp, k) == if IsPaid(j.world.db, k) then j.world.db.invoices[k].total.amount else 0
  }

  lemma RestIsSquare(acts: seq<JointAct>, cfg: Config, k: Id)
    requires AtRest(JointReach(acts, cfg), k)
    ensures Square(JointReach(acts, cfg), k)
  {
    var j := JointReach(acts, cfg);
    JointIsPaymentRun(acts, cfg);
    var moves :| P.Reach(moves) == PayStateOf(j);
    P.ReachKeepsInv(moves);
    assert P.KeyInv(BooksOf(j), k);
    assert !P.Owing(BooksOf(j), k);
    assert k in Unversioned(j.world.db.invoices) <==> k in j.world.db.invoices;
  }

  /** The winner or the runner-up is out of pocket by the total of the leading bidder's bill; the other by nothing. */
  ghost predicate LeaderIsDebited(j: Joint, a: Id)
    requires a in j.world.db.auctions
  {
    var db, first, second := j.world.db, InvoiceFor(a, 1), InvoiceFor(a, 2);
    exists k :: k in {first, second} && k in db.invoices
      && db.invoices[k].debtor == db.auctions[a].leadingBid.bidder
      && db.invoices[k].hammer == db.auctions[a].leadingBid.amount
      && NetDebit(j.psp, k) == db.invoices[k].total.amount
      && NetDebit(j.psp, if k == first then second else first) == 0
  }

  /**
    The verdict follows the money. Whatever sagas and payers do to each other, once a sale
    has its verdict and no payment of its invoices is under way: a sold lot's leading
    bidder is out of pocket by the total of the one paid invoice and nobody else by
    anything; a failed sale has cost nobody anything.
   */
  lemma MoneyFollowsVerdict(acts: seq<JointAct>, cfg: Config, a: Id)
    requires var j := JointReach(acts, cfg);
      a in j.world.db.auctions && j.world.db.auctions[a].settled
      && AtRest(j, InvoiceFor(a, 1)) && AtRest(j, InvoiceFor(a, 2))
    ensures var j := JointReach(acts, cfg);
      if j.world.db.auctions[a].outcome == AuctionDomain.Sold then LeaderIsDebited(j, a)
      else NetDebit(j.psp, InvoiceFor(a, 1)) == 0 && NetDebit(j.psp, InvoiceFor(a, 2)) == 0
  {
    var j := JointReach(acts, cfg);
    RestIsSquare(acts, cfg, InvoiceFor(a, 1));
    RestIsSquare(acts, cfg, InvoiceFor(a, 2));
    JointIsSagaRun(acts, cfg);
    var run :| Reach(run, cfg) == j.world;
    VerdictMatchesMoney(run, [], cfg, a);
    PaidKeys(run, cfg, a);
  }

  lemma PaidKeys(run: seq<Act>, cfg: Config, a: Id)
    ensures var db := Reach(run, cfg).db;
      forall k | IsPaid(db, k) && db.invoices[k].auctionId == a :: k in {InvoiceFor(a, 1), InvoiceFor(a, 2)}
    ensures var db := Reach(run, cfg).db;
      forall n | n in {1, 2} && InvoiceFor(a, n) in db.invoices :: db.invoices[InvoiceFor(a, n)].auctionId == a
  {
    Reached(run, cfg, a);
  }
}
