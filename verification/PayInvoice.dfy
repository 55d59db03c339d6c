/**
  Paying an invoice: charge the provider outside any transaction, mark the invoice
  paid under its lock, and refund when that race is lost.

  Any number of payers run against expiry and void, each at its own pace; each may
  crash between any two calls, and any reply of the provider may get lost.
 */
module PayInvoice {
  import opened Base
  import opened InvoiceDomain
  import opened InvoiceAggregate
  import opened PspLedger
  import opened FakePsp

  datatype PayOutcome =
    | Success
    | NotFound
    | PaymentDeclined
    | PspUnavailable
    | NoLongerPayable
    | Failed(error: InvoiceError)

  datatype Pc =
    | Reading
    | Charging(total: Money)
    | Marking(ref: PaymentReference)
    | Refunding
    | Finished(outcome: PayOutcome)

  datatype Payer = Payer(invoice: Id, actor: Id, pc: Pc)

  datatype Books = Books(invoices: Invoices, psp: Ledger)

  /** The clock, the provider's replies and the reference it would make up. */
  datatype Oracle = Oracle(now: Time, charge: Reply, refund: Reply, newRef: PaymentReference)

  // ---------- One payer ----------

  /** The call a payer makes next: a read, a charge, a locked update or a refund. */
  function PayStep(b: Books, p: Payer, o: Oracle): (Books, Payer) {
    match p.pc
    case Reading =>
      (b, p.(pc :=
        match Lookup(b.invoices, p.invoice, p.actor)
        case None => Finished(NotFound)
        case Some(i) =>
          match i.status
          case Paid => Finished(Success)
          case Pending => Charging(i.total)
          case _ => Refunding))
    case Charging(total) =>
      var (psp, answer) := Charge(b.psp, p.invoice, total, o.charge, o.newRef);
      (b.(psp := psp), p.(pc :=
        match answer
        case Charged(ref) => Marking(ref)
        case ChargeDeclined => Finished(PaymentDeclined)
        case ChargeUnavailable => Finished(PspUnavailable)))
    case Marking(ref) =>
      if Lookup(b.invoices, p.invoice, p.actor).None? then (b, p.(pc := Finished(NotFound)))
      else
        (match MarkPaid(b.invoices[p.invoice], ref, o.now)
         case Ok(c) => (b.(invoices := b.invoices[p.invoice := c.next]), p.(pc := Finished(Success)))
         case Err(e) =>
           (b, p.(pc :=
             if e == ErrInvoiceAlreadyPaid then Finished(Success)
             else if e in {ErrInvoiceExpired, ErrInvoiceVoided} then Refunding
             else Finished(Failed(e)))))
    case Refunding =>
      var (psp, answered) := Refund(b.psp, p.invoice, o.refund);
      (b.(psp := psp), p.(pc := Finished(if answered then NoLongerPayable else PspUnavailable)))
    case Finished(_) => (b, p)
  }

  function Remaining(pc: Pc): nat {
    match pc
    case Reading => 4
    case Charging(_) => 3
    case Marking(_) => 2
    case Refunding => 1
    case Finished(_) => 0
  }

  /** The payer alone, from where it stands to its answer. */
  function Uninterrupted(b: Books, p: Payer, o: Oracle): (r: (Books, Payer))
    ensures r.1.pc.Finished?
    decreases Remaining(p.pc)
  {
    if p.pc.Finished? then (b, p)
    else
      var (b', p') := PayStep(b, p, o);
      Uninterrupted(b', p', o)
  }

  /** A step that brings the answer ends the run. */
  lemma LastStep(b: Books, p: Payer, o: Oracle)
    requires PayStep(b, p, o).1.pc.Finished?
    ensures Uninterrupted(b, p, o) == PayStep(b, p, o)
  {
  }

  // ---------- Everyone together ----------

  /** abandoned remembers the keys on which a payer gave up without a definite answer. */
  datatype PayState = PayState(books: Books, payers: map<nat, Payer>, abandoned: set<Id>)

  datatype Move =
    | Issue(bill: InvoiceState)
    | Arrive(payer: nat, invoice: Id, actor: Id)
    | Advance(payer: nat, oracle: Oracle)
    | Crash(payer: nat)
    | Expiry(invoice: Id, now: Time)
    | Voiding(invoice: Id, now: Time)

  function WithInvoice(s: PayState, id: Id, v: InvoiceVerdict): PayState {
    if v.Err? then s else s.(books := s.books.(invoices := s.books.invoices[id := v.value.next]))
  }

  function AfterAnswer(abandoned: set<Id>, p: Payer): set<Id> {
    match p.pc
    case Finished(PspUnavailable) => abandoned + {p.invoice}
    case Finished(Failed(_)) => abandoned + {p.invoice}
    case Finished(NotFound) => abandoned
    case Finished(_) => abandoned - {p.invoice}
    case _ => abandoned
  }

  function Next(s: PayState, m: Move): PayState {
    match m
    case Issue(i) =>
      if Issued(s.books.invoices, i) || i.status != Pending || i.pspRef != NO_REFERENCE then s
      else s.(books := s.books.(invoices := s.books.invoices[i.id := i]))
    case Arrive(n, invoice, actor) =>
      if n in s.payers then s else s.(payers := s.payers[n := Payer(invoice, actor, Reading)])
    case Advance(n, o) =>
      if n !in s.payers || s.payers[n].pc.Finished? || o.newRef == NO_REFERENCE then s
      else
        var (b, p) := PayStep(s.books, s.payers[n], o);
        PayState(b, s.payers[n := p], AfterAnswer(s.abandoned, p))
    case Crash(n) =>
      if n !in s.payers || s.payers[n].pc.Finished? then s
      else s.(payers := s.payers - {n}, abandoned := s.abandoned + {s.payers[n].invoice})
    case Expiry(id, now) =>
      if id !in s.books.invoices then s else WithInvoice(s, id, Expire(s.books.invoices[id], now))
    case Voiding(id, now) =>
      if id !in s.books.invoices then s else WithInvoice(s, id, Void(s.books.invoices[id], now))
  }

  const NOTHING := PayState(Books(map[], Ledger(map[], {})), map[], {})

  function Reach(moves: seq<Move>): PayState {
    if moves == [] then NOTHING else Next(Reach(moves[..|moves| - 1]), moves[|moves| - 1])
  }

  // ---------- The invariant ----------

  predicate Dead(i: InvoiceState) { i.status == Expired || i.status == Voided }

  /** What the ledger and one invoice agree on. */
  ghost predicate KeyInv(b: Books, id: Id) {
    && (id in b.psp.charges ==>
          id in b.invoices && b.psp.charges[id].ref != NO_REFERENCE
          && b.psp.charges[id].amount == b.invoices[id].total)
    && (id in b.psp.refunded ==> id in b.psp.charges && Dead(b.invoices[id]))
    && (id in b.invoices ==>
          && (b.invoices[id].status == Paid ==>
                id in b.psp.charges && b.invoices[id].pspRef == b.psp.charges[id].ref)
          && (b.invoices[id].status != Paid ==> b.invoices[id].pspRef == NO_REFERENCE))
  }

  /** What a payer remembers is still true. */
  ghost predicate PayerInv(b: Books, p: Payer) {
    match p.pc
    case Reading => true
    case Charging(total) => p.invoice in b.invoices && b.invoices[p.invoice].total == total
                            && b.invoices[p.invoice].debtor == p.actor
    case Marking(ref) => p.invoice in b.psp.charges && b.psp.charges[p.invoice].ref == ref
                         && p.invoice in b.invoices && b.invoices[p.invoice].debtor == p.actor
    case Refunding => p.invoice in b.invoices && Dead(b.invoices[p.invoice])
    case Finished(Success) => p.invoice in b.invoices && b.invoices[p.invoice].status == Paid
    case Finished(NoLongerPayable) => p.invoice in b.invoices && Dead(b.invoices[p.invoice])
    case Finished(Failed(_)) => false
    case Finished(_) => true
  }

  /** The debtor's money is neither earned nor returned. */
  predicate Owing(b: Books, id: Id) {
    id in b.psp.charges && id !in b.psp.refunded && id in b.invoices && b.invoices[id].status != Paid
  }

  predicate Settling(p: Payer) { p.pc.Marking? || p.pc.Refunding? }

  ghost predicate SomeoneSettles(payers: map<nat, Payer>, id: Id) {
    exists n :: n in payers && payers[n].invoice == id && Settling(payers[n])
  }

  ghost predicate PayInv(s: PayState) {
    && (forall id :: KeyInv(s.books, id))
    && (forall n | n in s.payers :: PayerInv(s.books, s.payers[n]))
    && (forall id | Owing(s.books, id) :: id in s.abandoned || SomeoneSettles(s.payers, id))
  }

  /** How the books may change under a payer's feet: every memory above survives. */
  ghost predicate BooksEvolve(b: Books, b': Books) {
    && (forall id | id in b.invoices ::
          && id in b'.invoices
          && b'.invoices[id].total == b.invoices[id].total && b'.invoices[id].debtor == b.invoices[id].debtor
          && (b.invoices[id].status != Pending ==> b'.invoices[id].status == b.invoices[id].status))
    && (forall id | id in b.psp.charges :: id in b'.psp.charges && b'.psp.charges[id] == b.psp.charges[id])
  }

  lemma StepKeepsBooks(b: Books, p: Payer, o: Oracle)
    requires (forall id :: KeyInv(b, id)) && PayerInv(b, p) && o.newRef != NO_REFERENCE
    ensures var (b', p') := PayStep(b, p, o);
      BooksEvolve(b, b') && PayerInv(b', p') && forall id :: KeyInv(b', id)
  {
    var (b', p') := PayStep(b, p, o);
    assert KeyInv(b, p.invoice);
    forall id ensures KeyInv(b', id) {
      assert KeyInv(b, id);
    }
  }

  /** After the step the payer's own key is accounted for. */
  lemma StepSettles(b: Books, p: Payer, o: Oracle)
    requires (forall id :: KeyInv(b, id)) && PayerInv(b, p) && o.newRef != NO_REFERENCE && !p.pc.Finished?
    ensures var (b', p') := PayStep(b, p, o);
      && (forall id | Owing(b', id) && id != p.invoice :: Owing(b, id))
      && (p'.pc.Finished? && p'.pc.outcome !in {PspUnavailable, NotFound} ==> !Owing(b', p.invoice))
      && (Owing(b', p.invoice) && !Settling(p') && p'.pc != Finished(PspUnavailable) ==>
            Owing(b, p.invoice) && !Settling(p))
  {
    assert KeyInv(b, p.invoice);
  }

  lemma AdvanceKeepsInv(s: PayState, n: nat, o: Oracle)
    requires PayInv(s) && n in s.payers && !s.payers[n].pc.Finished? && o.newRef != NO_REFERENCE
    ensures PayInv(Next(s, Advance(n, o)))
  {
    var p := s.payers[n];
    var s' := Next(s, Advance(n, o));
    var p' := s'.payers[n];
    StepKeepsBooks(s.books, p, o);
    StepSettles(s.books, p, o);
    forall id | Owing(s'.books, id) ensures id in s'.abandoned || SomeoneSettles(s'.payers, id) {
      if id == p.invoice && Settling(p') {
        assert s'.payers[n].invoice == id && Settling(s'.payers[n]);
      } else if id in s.abandoned {
      } else if Owing(s.books, id) {
        var m :| m in s.payers && s.payers[m].invoice == id && Settling(s.payers[m]);
        if m != n {
          assert s'.payers[m] == s.payers[m];
        }
      }
    }
  }

  lemma CrashKeepsInv(s: PayState, n: nat)
    requires PayInv(s)
    ensures PayInv(Next(s, Crash(n)))
  {
    var s' := Next(s, Crash(n));
    forall id | Owing(s'.books, id) ensures id in s'.abandoned || SomeoneSettles(s'.payers, id) {
      if id !in s.abandoned {
        var m :| m in s.payers && s.payers[m].invoice == id && Settling(s.payers[m]);
        if m in s'.payers {
          assert s'.payers[m] == s.payers[m];
        }
      }
    }
  }

  /** Issuing, expiring and voiding leave the ledger and the payers alone. */
  predicate Outside(m: Move) { m.Issue? || m.Arrive? || m.Expiry? || m.Voiding? }

  lemma OutsideKeepsBooks(s: PayState, m: Move)
    requires (forall id :: KeyInv(s.books, id)) && Outside(m)
    ensures var s' := Next(s, m);
      && BooksEvolve(s.books, s'.books)
      && forall id :: KeyInv(s'.books, id) && (Owing(s'.books, id) ==> Owing(s.books, id))
  {
    var s' := Next(s, m);
    forall id ensures KeyInv(s'.books, id) && (Owing(s'.books, id) ==> Owing(s.books, id)) {
      assert KeyInv(s.books, id);
    }
  }

  lemma OutsideKeepsInv(s: PayState, m: Move)
    requires PayInv(s) && Outside(m)
    ensures PayInv(Next(s, m))
  {
    var s' := Next(s, m);
    OutsideKeepsBooks(s, m);
    forall id | Owing(s'.books, id) ensures id in s'.abandoned || SomeoneSettles(s'.payers, id) {
      assert Owing(s.books, id);
      if id !in s.abandoned {
        var k :| k in s.payers && s.payers[k].invoice == id && Settling(s.payers[k]);
        assert s'.payers[k] == s.payers[k];
      }
    }
  }

  lemma {:induction false} ReachKeepsInv(moves: seq<Move>)
    ensures PayInv(Reach(moves))
  {
    if moves != [] {
      var front, m := moves[..|moves| - 1], moves[|moves| - 1];
      ReachKeepsInv(front);
      match m
      case Advance(n, o) => if Next(Reach(front), m) != Reach(front) { AdvanceKeepsInv(Reach(front), n, o); }
      case Crash(n) => CrashKeepsInv(Reach(front), n);
      case _ => OutsideKeepsInv(Reach(front), m);
    }
  }

  // ---------- Main results ----------

  /**
    Safety of every reachable state. A paid invoice was charged under its own key for
    its total, carries the provider's reference and was never refunded; a refunded one
    is expired or voided; a payer told "success" has paid, one told "no longer payable"
    will never have.
   */
  lemma PaidMeansCharged(moves: seq<Move>, id: Id)
    requires id in Reach(moves).books.invoices
    ensures var s := Reach(moves); var i := s.books.invoices[id];
      && (i.status == Paid ==>
            && id in s.books.psp.charges && id !in s.books.psp.refunded
            && s.books.psp.charges[id] == Debit(i.pspRef, i.total))
      && (id in s.books.psp.refunded ==> Dead(i))
      && (forall n | n in s.payers && s.payers[n].invoice == id ::
            && (s.payers[n].pc == Finished(Success) ==> i.status == Paid)
            && (s.payers[n].pc == Finished(NoLongerPayable) ==> Dead(i)))
  {
    ReachKeepsInv(moves);
    assert KeyInv(Reach(moves).books, id);
  }

  function Earned(b: Books, id: Id): int {
    if id in b.invoices && b.invoices[id].status == Paid then b.invoices[id].total.amount else 0
  }

  /**
    Conservation. From any reachable state, crashes included, one uninterrupted attempt
    by the debtor that gets an answer from the provider leaves the debtor out of pocket
    by the total if the invoice is paid and by nothing otherwise, and touches no other key.
   */
  lemma AttemptSquaresBooks(moves: seq<Move>, id: Id, actor: Id, o: Oracle)
    requires Lookup(Reach(moves).books.invoices, id, actor).Some? && o.newRef != NO_REFERENCE
    ensures var b := Reach(moves).books; var (b', p) := Uninterrupted(b, Payer(id, actor, Reading), o);
      && (p.pc != Finished(PspUnavailable) ==> p.pc != Finished(NotFound) && NetDebit(b'.psp, id) == Earned(b', id))
      && (forall k | k != id :: NetDebit(b'.psp, k) == NetDebit(b.psp, k) && Earned(b', k) == Earned(b, k))
  {
    ReachKeepsInv(moves);
    var b := Reach(moves).books;
    RunSquaresBooks(b, Payer(id, actor, Reading), o);
  }

  lemma {:induction false} RunSquaresBooks(b: Books, p: Payer, o: Oracle)
    requires (forall id :: KeyInv(b, id)) && PayerInv(b, p) && o.newRef != NO_REFERENCE
    requires Lookup(b.invoices, p.invoice, p.actor).Some?
    requires p.pc.Finished? && p.pc != Finished(PspUnavailable) ==>
      p.pc != Finished(NotFound) && !Owing(b, p.invoice)
    ensures var (b', p') := Uninterrupted(b, p, o);
      && (p'.pc != Finished(PspUnavailable) ==>
            p'.pc != Finished(NotFound) && NetDebit(b'.psp, p.invoice) == Earned(b', p.invoice))
      && (forall k | k != p.invoice :: NetDebit(b'.psp, k) == NetDebit(b.psp, k) && Earned(b', k) == Earned(b, k))
    decreases Remaining(p.pc)
  {
    assert KeyInv(b, p.invoice);
    if !p.pc.Finished? {
      var (b', p') := PayStep(b, p, o);
      StepKeepsBooks(b, p, o);
      StepSettles(b, p, o);
      RunSquaresBooks(b', p', o);
    }
  }

  // ---------- What the debtor hears ----------

  /** The provider's reply to this charge tells its outcome; a repeated charge is never refused. */
  predicate ChargeGranted(b: Books, id: Id, o: Oracle) {
    o.charge == Granted || (o.charge == Refused && id in b.psp.charges)
  }

  /** Each answer of an attempt, by the state it found and the provider's replies. */
  ghost predicate AnswersTruly(b: Books, b': Books, id: Id, actor: Id, o: Oracle, answer: PayOutcome) {
    var known := id in b.invoices && b.invoices[id].debtor == actor;
    var pending := known && b.invoices[id].status == Pending;
    var dead := known && b.invoices[id].status in {Expired, Voided};
    && (answer == NotFound <==> !known)
    && (answer == Success <==> (known && b.invoices[id].status == Paid) || (pending && ChargeGranted(b, id, o)))
    && (answer == PaymentDeclined <==> pending && id !in b.psp.charges && o.charge == Refused)
    && (answer == NoLongerPayable <==> dead && o.refund == Granted)
    && (answer == PspUnavailable <==>
          (pending && o.charge in {LostRequest, LostReply}) || (dead && o.refund != Granted))
    && (answer in {NotFound, PaymentDeclined} ==> b' == b)
    && (answer == Success ==> id in b'.invoices && b'.invoices[id].status == Paid)
    && (answer == NoLongerPayable && id in b.psp.charges ==> id in b'.psp.refunded)
  }

  /** A pending invoice: the charge, and then the mark if it was granted. */
  lemma PendingAttempt(b: Books, id: Id, actor: Id, o: Oracle)
    requires o.newRef != NO_REFERENCE && (id in b.psp.charges ==> b.psp.charges[id].ref != NO_REFERENCE)
    requires id in b.invoices && b.invoices[id].debtor == actor && b.invoices[id].status == Pending
    ensures var (b', p) := Uninterrupted(b, Payer(id, actor, Charging(b.invoices[id].total)), o);
      AnswersTruly(b, b', id, actor, o, p.pc.outcome)
  {
    var p := Payer(id, actor, Charging(b.invoices[id].total));
    var (b1, p1) := PayStep(b, p, o);
    if p1.pc.Finished? {
      LastStep(b, p, o);
    } else {
      PaysIffPending(b1.invoices[id], p1.pc.ref, o.now);
      LastStep(b1, p1, o);
    }
  }

  lemma AttemptRun(b: Books, id: Id, actor: Id, o: Oracle)
    requires o.newRef != NO_REFERENCE && (id in b.psp.charges ==> b.psp.charges[id].ref != NO_REFERENCE)
    ensures var (b', p) := Uninterrupted(b, Payer(id, actor, Reading), o);
      AnswersTruly(b, b', id, actor, o, p.pc.outcome)
  {
    var p := Payer(id, actor, Reading);
    var (b1, p1) := PayStep(b, p, o);
    if p1.pc.Finished? {
      LastStep(b, p, o);
    } else if p1.pc.Refunding? {
      LastStep(b1, p1, o);
    } else {
      PendingAttempt(b, id, actor, o);
    }
  }

  /**
    Answers. From any reachable state the debtor hears "declined" exactly for a refused
    first charge, "unavailable" exactly if a reply got lost, "no longer payable" exactly
    for an invoice that ended otherwise, "not found" exactly for one that is not his; and
    never anything else but "paid". Declined and not found leave everything as it was.
   */
  lemma AttemptAnswers(moves: seq<Move>, id: Id, actor: Id, o: Oracle)
    requires o.newRef != NO_REFERENCE
    ensures var b := Reach(moves).books; var (b', p) := Uninterrupted(b, Payer(id, actor, Reading), o);
      && AnswersTruly(b, b', id, actor, o, p.pc.outcome)
      && p.pc.outcome in {NotFound, Success, PaymentDeclined, NoLongerPayable, PspUnavailable}
  {
    ReachKeepsInv(moves);
    assert KeyInv(Reach(moves).books, id);
    AttemptRun(Reach(moves).books, id, actor, o);
  }

  /** Sums a quantity over finitely many keys. */
  ghost function SumOver(keys: set<Id>, f: Id -> int): int
    decreases keys
  {
    if keys == {} then 0
    else
      var k :| k in keys;
      f(k) + SumOver(keys - {k}, f)
  }

  lemma {:induction false} EqualSums(keys: set<Id>, f: Id -> int, g: Id -> int)
    requires forall k | k in keys :: f(k) == g(k)
    ensures SumOver(keys, f) == SumOver(keys, g)
    decreases keys
  {
    if keys != {} {
      var k :| k in keys && SumOver(keys, f) == f(k) + SumOver(keys - {k}, f);
      EqualSums(keys - {k}, f, g);
      SumPeels(keys, k, g);
    }
  }

  lemma {:induction false} SumPeels(keys: set<Id>, k: Id, f: Id -> int)
    requires k in keys
    ensures SumOver(keys, f) == f(k) + SumOver(keys - {k}, f)
    decreases keys
  {
    var j :| j in keys && SumOver(keys, f) == f(j) + SumOver(keys - {j}, f);
    if j != k {
      SumPeels(keys - {j}, k, f);
      SumPeels(keys - {k}, j, f);
      assert keys - {j} - {k} == keys - {k} - {j};
    }
  }

  /**
    The provider's books balance. Once every payer has its answer and every attempt that
    broke off has been repeated to an answer, the debits not refunded add up to the
    totals of the paid invoices, over any set of keys.
   */
  lemma BooksBalanceAtRest(moves: seq<Move>, keys: set<Id>)
    requires var s := Reach(moves); s.abandoned == {} && forall n | n in s.payers :: s.payers[n].pc.Finished?
    ensures var b := Reach(moves).books;
      SumOver(keys, k => NetDebit(b.psp, k)) == SumOver(keys, k => Earned(b, k))
  {
    ReachKeepsInv(moves);
    var s := Reach(moves);
    forall k | k in keys ensures NetDebit(s.books.psp, k) == Earned(s.books, k) {
      assert KeyInv(s.books, k);
      assert !Owing(s.books, k);
    }
    EqualSums(keys, k => NetDebit(s.books.psp, k), k => Earned(s.books, k));
  }

  // ---------- The handler ----------

  /**
    The part of the handler after the charge, from whatever state the races have left
    behind: mark the invoice paid under its lock, or give the money back.
   */
  method Settle(repo: InvoiceInMemoryRepository, psp: FakePSP, id: Id, payer: Id, ref: PaymentReference, now: Time,
                ghost o: Oracle)
    returns (outcome: PayOutcome)
    requires o.now == now && o.refund == Granted
    modifies repo, psp`refunded
    ensures (Books(repo.byId, psp.Books()), Payer(id, payer, Finished(outcome)))
         == Uninterrupted(old(Books(repo.byId, psp.Books())), Payer(id, payer, Marking(ref)), o)
  {
    ghost var b, p := Books(repo.byId, psp.Books()), Payer(id, payer, Marking(ref));
    ghost var (b', p') := PayStep(b, p, o);
    assert Uninterrupted(b, p, o) == Uninterrupted(b', p', o);
    var err := repo.Update(id, Some(payer), i => MarkPaid(i, ref, now));
    if err.None? || err == Some(ErrInvoiceAlreadyPaid) { return Success; }
    if err.value in {ErrInvoiceExpired, ErrInvoiceVoided} {
      LastStep(b', p', o);
      var answered := psp.Refund(id);
      return if answered then NoLongerPayable else PspUnavailable;
    }
    if err.value == ErrInvoiceNotFound { return NotFound; }
    return Failed(err.value);
  }

  /** The handler, on the in-memory repository and the fake provider, is an uninterrupted run. */
  method Handle(repo: InvoiceInMemoryRepository, psp: FakePSP, id: Id, payer: Id, now: Time, newRef: PaymentReference)
    returns (outcome: PayOutcome)
    modifies repo, psp
    ensures var o := Oracle(now, old(psp.NextReply(id)), Granted, newRef);
      (Books(repo.byId, psp.Books()), Payer(id, payer, Finished(outcome)))
      == Uninterrupted(old(Books(repo.byId, psp.Books())), Payer(id, payer, Reading), o)
    ensures outcome == NotFound <==> id !in old(repo.byId) || old(repo.byId)[id].debtor != payer
    ensures outcome == PaymentDeclined <==>
      && id in old(repo.byId) && old(repo.byId)[id].debtor == payer && old(repo.byId)[id].status == Pending
      && psp.mode == AlwaysDecline && id !in old(psp.charges)
  {
    ghost var b0, o := Books(repo.byId, psp.Books()), Oracle(now, psp.NextReply(id), Granted, newRef);
    var inv := repo.Get(id, payer);
    ghost var p0 := PayStep(b0, Payer(id, payer, Reading), o).1;
    assert Uninterrupted(b0, Payer(id, payer, Reading), o) == Uninterrupted(b0, p0, o);
    if inv.None? { return NotFound; }
    match inv.value.status {
      case Paid => return Success;
      case Expired | Voided =>
        LastStep(b0, p0, o);
        var answered := psp.Refund(id);
        return if answered then NoLongerPayable else PspUnavailable;
      case Pending =>
    }
    var answer := psp.Charge(id, inv.value.total, newRef);
    ghost var b1, p1 := Books(repo.byId, psp.Books()), PayStep(b0, p0, o).1;
    assert Uninterrupted(b0, p0, o) == Uninterrupted(b1, p1, o);
    match answer {
      case ChargeDeclined => return PaymentDeclined;
      case ChargeUnavailable => return PspUnavailable;
      case Charged(ref) => outcome := Settle(repo, psp, id, payer, ref, now, o);
    }
  }
}
