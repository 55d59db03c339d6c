# Verification of the settlement system

A Dafny model of how an auction is sold, billed and settled: the settlement saga that drives
the auction aggregate, the invoice aggregate and the payment provider, the stores behind
them, and the catalog read model. `dafny verify dfyconfig.toml` checks all of it.

The system is at-least-once. A published event reaches each handler any number of times and
in any order, handlers run concurrently, and any of them may stop between two calls. The
model takes this literally: every call a handler makes (a read, one transaction of another
context, a commit under the row lock) is one step of a machine, and every step of anyone
else may come in between. Decisions are therefore taken on snapshots that may be stale when
they are committed, and safety rests on facts that are spread over three aggregates, the
outbox and the memories of running handlers.

## How it is laid out

- `Base`, `Events`: money with 64-bit arithmetic, identities, integration events and their mappers.
- `AuctionDomain`, `AuctionAggregate`, `AuctionRuns`: the auction as a value, as the mutable
  object proved to move as that value, and whole runs of commands compared with the bid log
  and the recorded events.
- `AuctionRules`: what each command decides, told on times and amounts alone: verdicts,
  deadlines, offers, refusals and the events they are published as.
- `InvoiceDomain`, `InvoiceAggregate`, `Psp`, `PayInvoice`: invoices, their in-memory store,
  the provider's ledger, and any number of payers racing with expiry and void.
- `SettlementDomain`, `SettlementAggregate`: the saga's decisions and guarded commits.
- `Database`, `Saga`: the shared tables, one function per transaction, and the step machine.
- `SagaView`, `SagaEffects`, `SagaCalls`, `SagaInvariant`, `SagaSteps`, `SagaReach`: the
  inductive invariant. One auction's slice of the database (`View`), what each transaction
  does to it, what each handler may remember, and that every step keeps all of it.
- `SagaTransactions`, `SagaFacts`, `SagaRelist`: every step as one transaction, which gives
  short inductions for what holds of the tables alone.
- `SagaRecords`, `SagaAnnounced`, `SagaReasons`: the outbox as the exact history of the
  tables: every announcement is true in all its fields, everything is announced, and sales
  fail for true reasons.
- `SagaTheorems`, `SagaProgress`, `SagaSeams`, `SagaLost`, `SagaBills`, `SagaCompletion`,
  `SagaAnswers`: the results about every run, and what callers hear.
- `SagaMoney`: the saga machine and the payment machine on one table of invoices.
- `Stores`, `Handlers`: the handlers as the program writes them, on mutable tables, proved to
  do call by call what the machine's uninterrupted run does.
- `InMemoryStores`, `Rows`, `PgRepository`, `PgHistory`, `OptimisticLock`: the simple stores,
  the row mappings, runs of transactions on the auction tables, and why the version check
  loses no update.
- `Catalog`, `Contract`: the read model's agreement with the aggregate, and the closing event
  as the contract between the two contexts.

Modelling assumptions: instants and spans are unbounded integers in nanoseconds; identities
derived by version 5 UUIDs (section 5.5 of RFC 9562) are injective and never chosen by a
client; the money and identity types, of which each context has its own copy, are one type
here. `int64` sums and products wrap around exactly as in the program. The composed machine
stores values where the program stores rows: an auction row keeps anti-snipe spans in whole
seconds, so a listing there stands for what its row keeps (`Rows.AuctionRoundTrip`), and an
invoice whose row cannot be read back fails every transaction that has to read it.

## Where documentation and code differ

- Section 6.1 of `docs/ARCHITECTURE.md` says that redelivery heals every crash between
  phases. Two seams are not healed, because an event whose handler looks at the saga before
  the commit it belongs after is acknowledged unheard: a `WinnerReassignedV1` seen while the
  saga is `started`, and an event of the second invoice seen before `second_chance_payment`
  is committed. `SagaLost` gives both runs.
- The commission is an unchecked `int64` product. A winning bid of 10^16 minor units at 1000
  basis points gives a negative commission; the bill is stored, but its row is refused when
  it is read back, so it can be neither paid nor expired nor voided and its sale is never
  settled. `SagaBills` gives the run, the exact condition on hammer price and rate, and shows
  that the state is permanent. With the two seams these are all the ways to lose a saga:
  `SagaProgress.MoverUnlessEarly`.
- The same section says that a version conflict on commit is acknowledged. The code returns
  it as an error; with the row lock it cannot happen.
- The comment on the minimal next bid calls it the leading bid plus the increment. The sum is
  not checked for overflow: `AuctionRuns.IncrementEnforcedIffNoOverflow` gives the exact limit.
- The comment on the catalog's guarded update promises the minimal next bid. The database
  refuses the update when that sum leaves `int64`, while the aggregate wraps around:
  `CatalogAgreement.CurrentIffNextFits`.

## Model

| member | source | states |
|---|---|---|
| SagaTheorems.AtMostOnePaid | internal/settlement/app/handlers.go:157-273 | in every reachable state, two paid invoices of one auction are the same invoice |
| SagaTheorems.SecondOnlyAfterFirstExpired | internal/settlement/app/handlers.go:221-273 | a second-attempt invoice exists only if the first-attempt invoice of its auction exists and has expired |
| SagaTheorems.VerdictMatchesMoney | internal/auction/domain/auction/auction.go:304-355 | a sale settled as sold has exactly one paid invoice, which bills the auction's final leading bidder for the leading bid; one settled as failed has none, now and in every continuation of the run |
| SagaTheorems.EffectsNeverRefused | internal/settlement/app/handlers.go:275-298 | no award, confirm, fail, relist or issue of the saga is refused, no winner mismatch occurs and no branch panics; a handler fails only through a clock at zero or one that outruns the replacement's window, and a decline also on a second bill that cannot be read back |
| SagaTheorems.CommitImpliesEffect | internal/settlement/app/handlers.go:136-151 | each stored saga state is backed by its effects: the invoice with the right debtor, amount and attempt, which are the leading bid's unless it was just reassigned; the reassigned winner; the settled or failed sale; the replacement or its absence |
| SagaTheorems.DeclineTellsTruth | internal/settlement/app/command/decline_second_chance_offer.go:81-152 | a decline answered with success means the stored saga is relisted or failed unsold and nothing is paid; offer-already-paid means an invoice of that auction is paid; the panic is never reached |
| SagaAnswers.DeclineIsAnswered | internal/settlement/domain/settlement/settlement.go:189-205 | in every reachable state a decline alone is answered exactly by who asks, the saga's state and what became of the offer: not found, not the recipient, already paid, declined, or a bill that cannot be read |
| SagaTheorems.RelistLineage | internal/auction/domain/auction/auction.go:102-144 | generation 1 is exactly having an original, which is stored with a failed sale; an original has one replacement at most and a replacement none; a replacement offers the lot, the prices and the rules of its original |
| SagaReach.ReachKeepsInv | internal/settlement/adapters/settlement_pg_repository.go:108-161 | the invariant over slices, handler memories and acknowledged events holds after any sequence of steps |
| SagaReach.LaterEvolves | internal/settlement/domain/settlement/settlement.go:107-218 | nothing goes back: published events, settled sales, ended invoices and terminal sagas stay as they are in every continuation |
| SagaFacts.NothingPublishedTwice | internal/auction/adapters/auction_pg_repository.go:285-316 | no fact is announced twice, nor two that exclude each other, however often handlers run and crash: a listing, its n-th bid, its closing or cancellation, its award, its replacement, its settlement or failure; an invoice, its payment or expiry |
| SagaAnnounced.EverythingIsAnnounced | internal/auction/adapters/auction_pg_repository.go:230-316 | in every reachable state each listing, bid, end of bidding, award, replacement and end of a sale, and each bill, payment and expiry has been published |
| SagaRecords.OutboxIsTrue | internal/billing/adapters/events_mapper.go:53-100 | in every reachable state each published event agrees in all its fields with the row it is about: sold exactly if the bid reached the reserve, the settled winner is the leader, bills carry total and due date, an expiry is not earlier than the due date |
| SagaAnnounced.NoEarlyExpiry | internal/billing/domain/invoice/invoice.go:304-332 | an expiry is published a whole payment term after its bill was, over every run |
| SagaReasons.ReasonsAreTrue | internal/settlement/app/handlers.go:275-298 | every published failure and every given-up saga has a true reason: a timeout means that the last invoice expired, a decline that the runner-up was billed and has not paid |
| SagaAnswers.CallsAreStamped | internal/auction/app/command/relist_auction.go:36-48 | what a handler's call publishes bears the clock of that call |
| SagaProgress.BoundedSaga | internal/settlement/domain/settlement/settlement.go:219-308 | every step leaves a saga alone or moves it strictly up its order with the next version; versions never exceed 5 |
| SagaProgress.RedeliveryIsSilent | internal/settlement/app/handlers.go:346-355 | delivering an acknowledged event again acknowledges it and changes no store, unless its handler had looked too early |
| SagaProgress.MoverUnlessEarly | internal/settlement/domain/settlement/settlement.go:140-171 | an unfinished saga has a next mover (an unacknowledged driving event, a pending live invoice that can be read back, a voided offer) if and only if its live invoice can be read back and its driving event was not acknowledged by a handler that looked too early |
| SagaProgress.DriverAdvances | internal/settlement/app/handlers.go:98-273 | handling a driving event alone acknowledges it and takes the saga strictly further up |
| SagaProgress.PendingInvoiceResolves | internal/billing/app/command/expire_invoice.go:33-58 | paying or expiring the awaited invoice, if its row can be read back, goes through and publishes a driving event |
| SagaProgress.VoidedOfferCompletes | internal/settlement/app/command/decline_second_chance_offer.go:81-131 | a decline that broke off after its void is completed by declining again: success, and the saga is relisted or failed unsold |
| SagaCompletion.FinishesIffBillsFit | internal/settlement/domain/settlement/settlement.go:140-308 | if no handler looked too early, a saga has a continuation that ends it, without repeating an acknowledged delivery, if and only if the winner's bill and, once that has expired on a qualified runner-up, the runner-up's bill fit into int64 |
| SagaBills.ReadBackIffBillFits | internal/billing/domain/invoice/money.go:57-68 | in every reachable state an invoice survives its row if and only if its wrapped product stays above -10000 and hammer plus commission fits in int64 |
| SagaBills.UnpayableIffOverflowed | internal/billing/adapters/invoice_pg_repository.go:124-184 | an awaited pending invoice can be paid or expired if and only if the bill for the saga's price fits |
| SagaBills.DeclineFailsOnlyOnOverflow | internal/settlement/app/command/decline_second_chance_offer.go:81-131 | with clocks in order a decline fails only where the runner-up's bill overflows |
| SagaBills.OverflowedBillIsForever | internal/billing/adapters/invoice_pg_repository.go:293-341 | an overflowed bill never changes again in any continuation, and its auction is never settled, failed or relisted |
| SagaBills.OverflowedBillIsLost | internal/billing/domain/invoice/invoice.go:160-215 | a concrete run without crash or race: one bid of 10^16 at 1000 basis points leaves the saga in awaiting_payment, every event acknowledged and no mover |
| SagaRelist.StaleReadIsHarmless | internal/auction/app/command/relist_auction.go:36-56 | inserting a replacement built from an earlier read of the original does, at any later time, what one atomic relist would do then |
| SagaRelist.ReplacementsAreFaithful | internal/auction/domain/auction/auction.go:102-144 | in every reachable store a replacement offers the lot, the prices and the rules of its original |
| SagaTransactions.NextTransaction | internal/settlement/app/handlers.go:98-298 | whatever step anyone takes, the tables change by exactly one transaction of one context or not at all |
| SagaMoney.JointIsSagaRun | internal/billing/app/command/pay_invoice.go:59-133 | when payers charge, mark and refund in separate calls between everyone else's steps, the saga machine still sees one of its own runs |
| SagaMoney.JointIsPaymentRun | internal/settlement/app/handlers.go:98-298 | and the payment machine one of its own, up to row versions; whoever is past reading holds a readable invoice |
| SagaMoney.MoneyFollowsVerdict | internal/billing/app/command/pay_invoice.go:73-127 | once a sale has its verdict and no payment of its two invoices is under way, a sold lot's leading bidder is out of pocket by the total of exactly one of them and the other has cost nobody anything; a failed sale has cost nobody anything |
| SagaSeams.CrashSeamHeals | internal/settlement/app/handlers.go:275-298 | breaking off a handler or a decline after any number of calls and running it again gives the stores, the outbox and the answer of one uninterrupted run |
| SagaSeams.RunCatchesUp | internal/settlement/app/handlers.go:98-273 | run again from its start in the state a crash left, a handler gets to where it broke off without changing anything |
| SagaLost.EarlyAwardIsLost | internal/settlement/domain/settlement/settlement.go:159-171 | a concrete run ends with the saga in awarding_runner_up, every event acknowledged and no mover |
| SagaLost.EarlyPaymentIsLost | internal/settlement/domain/settlement/settlement.go:140-152 | a concrete run ends with the second invoice paid, the saga in second_chance_payment, every event acknowledged and no mover |
| SagaCalls.AwardCall | internal/auction/app/command/award_to_runner_up.go:33-58 | awarding a qualifying runner-up after the first expiry succeeds or was done already, and keeps every slice |
| SagaCalls.ConfirmCall | internal/auction/app/command/confirm_settlement.go:32-53 | confirming a sale with a paid invoice succeeds or was done already, and leaves it sold and settled |
| SagaCalls.FailCall | internal/auction/app/command/mark_sale_failed.go:33-56 | failing a sale that can no longer be paid succeeds or was done already |
| SagaCalls.RelistCall | internal/auction/app/command/relist_auction.go:36-68 | the saga's relist fails exactly if the new window is over when it is built, never for the limit or as a second replacement; otherwise the replacement is in the store, and a new one carries the original's offer in the window asked for |
| SagaCalls.IssueFirstCall | internal/billing/app/command/issue_invoice.go:50-64 | issuing the first bill leaves it in the store, whether issued now or before |
| SagaCalls.VoidCall | internal/settlement/adapters/billing_facade_adapter.go:67-80 | voiding the offer makes the sale unpayable for good, or reports offer-already-paid and an invoice is paid, or fails on a second bill that cannot be read back |
| SagaAnswers.ExpiryIsAnswered | internal/billing/app/command/expire_invoice.go:33-58 | the worker's expiry changes exactly a readable, pending, due invoice; not due, absent and unreadable are faults, any other end is silence |
| SagaAnswers.AwardIsAnswered | internal/auction/app/command/award_to_runner_up.go:33-58 | the award succeeds exactly if the sale is open with a runner-up or was reassigned before, and else changes nothing |
| SagaAnswers.ConfirmIsAnswered | internal/auction/app/command/confirm_settlement.go:32-53 | the confirmation succeeds exactly for a sold lot, and changes nothing if it was settled |
| SagaAnswers.FailIsAnswered | internal/auction/app/command/mark_sale_failed.go:33-56 | failing succeeds exactly for an open or a failed sale, and changes nothing for the latter |
| SagaAnswers.AddIsAnswered | internal/auction/adapters/auction_inmem_repository.go:31-54 | a known id adds nothing, a second replacement is refused, anything else is added and published |
| SagaAnswers.IssueIsAnswered | internal/billing/app/command/issue_invoice.go:50-64 | an issue with sound arguments stores a bill unless the auction has one for this attempt; unsound ones are refused |
| SagaAnswers.OrphansAreHandedBack | internal/settlement/app/handlers.go:157-273 | an event without its saga is handed back for a retry, and nothing is done for it |
| SagaAnswers.ClosingIsTaken | internal/settlement/app/handlers.go:101-125 | a closing is settled, ignored or handed back by its outcome; a stored saga is never overwritten |
| EventHandling.EventHandlers.OnAuctionClosed | internal/settlement/app/handlers.go:101-152 | leaves the tables and the result of the uninterrupted run of the machine |
| EventHandling.EventHandlers.OnInvoicePaid | internal/settlement/app/handlers.go:157-181 | the same for payments |
| EventHandling.EventHandlers.OnInvoiceExpired | internal/settlement/app/handlers.go:185-214 | the same for expiries, with the compensation fork |
| EventHandling.EventHandlers.Compensate | internal/settlement/app/handlers.go:278-298 | runs exactly the effects of the decided step, stopping at the first fault |
| EventHandling.EventHandlers.OnWinnerReassigned | internal/settlement/app/handlers.go:221-273 | the same for awards, with both transitions in one commit |
| EventHandling.DeclineSecondChanceOfferHandler.Handle | internal/settlement/app/command/decline_second_chance_offer.go:81-131 | the same for the runner-up's decline, including the answer after a lost race |
| Stores.Tables.AwardToRunnerUp | internal/auction/adapters/auction_pg_repository.go:176-250 | on mutable tables: load a copy, award, write back the next version with its events, or change nothing |
| Stores.Tables.AddAuction | internal/auction/adapters/auction_inmem_repository.go:31-54 | a known id is a silent no-op, a second replacement is refused, otherwise row and events are added |
| Stores.Tables.IssueInvoice | internal/billing/app/command/issue_invoice.go:50-64 | a known id or (auction, attempt) pair is a no-op, otherwise invoice and event are added |
| Stores.Tables.VoidInvoice | internal/billing/app/command/void_invoice.go:35-61 | voided and expired are no-ops, paid is reported as offer-already-paid, a row that cannot be read back is a fault |
| Stores.Tables.ExpireInvoice | internal/billing/app/command/expire_invoice.go:33-58 | any other end of the invoice is a no-op, a premature expiry or a row that cannot be read back is a fault, otherwise invoice and event change together |
| Stores.Tables.CommitOffer | internal/settlement/app/handlers.go:261-272 | both transitions are stored together or neither |
| PayInvoice.ReachKeepsInv | internal/billing/app/command/pay_invoice.go:59-133 | ledger, invoices and payers agree after any interleaving of payers, expiry, void and crashes |
| PayInvoice.PaidMeansCharged | internal/billing/app/command/pay_invoice.go:73-127 | a paid invoice was charged under its key for its total, carries the ledger's reference and was never refunded; a refunded one is expired or voided; success and no-longer-payable are true |
| PayInvoice.AttemptSquaresBooks | internal/billing/adapters/psp_fake.go:62-99 | from any reachable state, one uninterrupted attempt that gets an answer leaves net debit equal to the total if paid and 0 otherwise, and touches no other key |
| PayInvoice.AttemptAnswers | internal/billing/app/command/pay_invoice.go:59-133 | from any reachable state, one uninterrupted attempt is declined exactly for a refused first charge, unavailable exactly if a reply was lost, no longer payable exactly if the invoice ended otherwise, not found exactly if it is absent or foreign, and else paid; declined and not found change nothing |
| PspLedger.ChargeTakesEffect | internal/billing/adapters/psp_fake.go:62-85 | a charge takes effect if it arrives and is not refused, once per key, and the caller learns of it unless the reply is lost |
| PspLedger.RefundTakesEffect | internal/billing/adapters/psp_fake.go:87-99 | a refund takes effect on a charged key if it arrives, and the caller learns of it unless the reply is lost |
| PayInvoice.BooksBalanceAtRest | internal/billing/adapters/psp_fake.go:62-99 | at rest, net debits summed over any keys equal the totals of the paid invoices |
| PayInvoice.Handle | internal/billing/app/command/pay_invoice.go:59-133 | the handler on the in-memory store and the fake provider is an uninterrupted run of the payer; it answers not-found exactly for an absent or foreign invoice, and declined exactly for a refused first charge |
| FakePsp.FakePSP.Charge | internal/billing/adapters/psp_fake.go:62-85 | a repeated charge of a key answers with the first reference; a first one is granted, declined or fails once as the mode says; the ledger moves as specified |
| AuctionRuns.TopTwoRefinesLog | internal/auction/domain/auction/auction.go:151-205 | counter and top two are the bid log's length and last two entries; without overflow, bids rise by the increment and the runner-up is the highest bid of anyone but the leader |
| AuctionRules.VerdictFollowsLog | internal/auction/domain/auction/auction.go:234-271 | after any run, a closing sells exactly if there is a bid and the last one reaches the reserve; winner, runner-up and his qualification are read off the last two bids, and so they are published |
| AuctionRules.ClosesIff | internal/auction/domain/auction/auction.go:234-247 | a listing closes once, not before its deadline, and each refusal says why |
| AuctionRules.DeadlineMoves | internal/auction/domain/auction/auction.go:186-203 | an accepted bid moves the deadline by one extension exactly if it comes within the snipe window of the deadline and extensions are left |
| AuctionRules.DeadlineFollowsLog | internal/auction/domain/auction/auction.go:186-203 | over any run, the deadline and the extensions used are a function of the times in the bid log |
| AuctionRules.DeadlineStandsIffBidsAreEarly | internal/auction/domain/auction/antisnipe.go:27-31 | over any run, the original deadline stands exactly if no bid came within its snipe window or none could extend it |
| AuctionRules.ListingOffersWhatWasAsked | internal/auction/domain/auction/auction.go:41-98 | a listing carries its arguments and the rules of the day, and is published so |
| AuctionRules.ReplacementOffersTheSame | internal/auction/domain/auction/auction.go:102-144 | a replacement carries the original's lot, prices and rules in the window given, and is published so |
| AuctionRules.ListingRefusals | internal/auction/domain/auction/auction.go:52-80 | a refused listing names the first thing wrong with it |
| AuctionRules.RelistRefusals | internal/auction/domain/auction/auction.go:106-117 | a replacement is refused exactly for a missing id, a replaced original or a window that is over |
| AuctionRules.RefusalNamesFirstRule | internal/auction/domain/auction/auction.go:151-181 | a refused bid names the first rule broken, in the documented order, and each answer means what it says |
| AuctionRules.CancelsIff | internal/auction/domain/auction/auction.go:207-230 | only the seller withdraws a listing, and only before its first bid; each refusal says why |
| AuctionRules.SaleMovesIffOpen | internal/auction/domain/auction/auction.go:273-355 | award, confirmation and failure are possible exactly between a sold closing and its verdict, and change and record exactly that |
| AuctionRules.SaleRefusals | internal/auction/domain/auction/auction.go:273-355 | a refused award, confirmation or failure says exactly whether it was done already, is over otherwise or came too soon |
| AuctionRules.CommandTells | internal/auction/adapters/events_mapper.go:21-110 | every accepted command is published once, and each field of the event is what the command or the auction says |
| AuctionRuns.IncrementEnforcedIffNoOverflow | internal/auction/domain/auction/auction.go:402-412 | every accepted bid tops the leader by the increment if and only if their sum fits in int64 |
| AuctionRuns.AcceptedIffAdmissible | internal/auction/domain/auction/auction.go:151-185 | a bid is accepted if and only if the window is open, the bidder is neither seller nor leader, currency and minimum fit, and an unverified bidder stays below the threshold |
| AuctionRuns.DeadlinesHold | internal/auction/domain/auction/auction.go:186-247 | the deadline is the original one plus capped extensions; every bid lies inside the final window and every close at or after it, even if clocks run backwards |
| AuctionRuns.TimeToReply | internal/auction/domain/auction/antisnipe.go:27-31 | a bid accepted with extensions left leaves more than the window or the extension to reply |
| AuctionRuns.ReplayRebuilds | internal/auction/domain/auction/auction.go:189-203 | folding the recorded events over the fresh listing rebuilds the aggregate after any run |
| AuctionRuns.CommandKeepsValid | internal/auction/domain/auction/auction.go:151-355 | no command breaks the aggregate, changes its terms or reaches the currency panic |
| AuctionRuns.FactoriesListFresh | internal/auction/domain/auction/auction.go:41-144 | both factories build fresh listings in the window given, one with the prices asked for, the other with its original's offer, and a replacement is never built from a replacement |
| AuctionAggregate.Auction.PlaceBid | internal/auction/domain/auction/auction.go:151-205 | the object moves to the specified value and appends the specified events, or stays and reports the first failing guard |
| AuctionAggregate.Auction.Close | internal/auction/domain/auction/auction.go:234-271 | the same for closing, with the hammer's verdict |
| AuctionAggregate.Auction.AwardToRunnerUp | internal/auction/domain/auction/auction.go:273-302 | the same for the award |
| AuctionAggregate.Auction.ConfirmSettlement | internal/auction/domain/auction/auction.go:306-327 | the same for the settlement |
| AuctionAggregate.Auction.FailSale | internal/auction/domain/auction/auction.go:331-355 | the same for the failed sale |
| SettlementAggregate.Settlement.ApplyNextStep | internal/settlement/domain/settlement/settlement.go:278-308 | the saga object moves to the specified state and reason, or stays and reports the refusal |
| SettlementAggregate.Settlement.RunnerUpAwarded | internal/settlement/domain/settlement/settlement.go:245-256 | the same for the award's commit |
| SettlementDomain.ClosingParsesIff | internal/settlement/app/handlers.go:300-333 | which closing events the saga understands, and which outcomes it does not know |
| SettlementDomain.InvoiceCommitsIff | internal/settlement/domain/settlement/settlement.go:221-243 | issue and payment move the saga exactly for its live invoice and from a state that waits for it |
| SettlementDomain.NextStepByCase | internal/settlement/domain/settlement/settlement.go:207-218 | a failed payment is followed by one award if the runner-up qualifies, one replacement, then nothing |
| SettlementDomain.StepCommitsIff | internal/settlement/domain/settlement/settlement.go:278-308 | a compensation step is committed exactly from a state that awaits a payment, with a reason exactly if it gives up, and keeps that reason |
| InvoiceAggregate.Invoice.MarkPaid | internal/billing/domain/invoice/invoice.go:275-302 | the invoice object moves to paid with its reference and event, or stays and reports why |
| InvoiceAggregate.InvoiceInMemoryRepository.Add | internal/billing/adapters/invoice_inmem_repository.go:28-45 | refused on a known id or (auction, attempt) pair, otherwise stored |
| InvoiceDomain.TotalIsHammerPlusFlooredCommission | internal/billing/domain/invoice/invoice.go:160-218 | within int64, the commission is the exact share rounded down and the total is hammer plus commission |
| InvoiceDomain.BillSaysWhatIsOwed | internal/billing/domain/invoice/invoice.go:160-218 | a bill is built exactly from complete arguments, for the hammer price plus commission, due one payment term after its issue |
| InvoiceDomain.ExpiresIffDue | internal/billing/domain/invoice/invoice.go:304-332 | an invoice expires exactly if it is pending and due |
| InvoiceDomain.PaysIffPending | internal/billing/domain/invoice/invoice.go:275-302 | an invoice is paid exactly if it is pending, however late, and a refusal says how it ended |
| InvoiceDomain.VoidsIffPending | internal/billing/domain/invoice/invoice.go:335-360 | an invoice is withdrawn exactly if it is pending, and a refusal says how it ended |
| InMemoryStores.AuctionInMemRepository.DueForClosing | internal/auction/adapters/auction_inmem_repository.go:120-134 | distinct due auctions up to the limit, and all of them if the limit is not reached |
| InMemoryStores.DueIffCloses | internal/auction/adapters/auction_inmem_repository.go:120-134 | the worker's scan looks for exactly the auctions that can be closed |
| InMemoryStores.AuctionInMemRepository.Update | internal/auction/adapters/auction_inmem_repository.go:90-116 | the stored value is replaced by the updated one under the next version, or left alone on any error |
| InMemoryStores.SettlementInMemoryRepository.Update | internal/settlement/adapters/settlement_inmem_repository.go:50-85 | the same for sagas |
| Rows.AuctionRoundTrip | internal/auction/adapters/auction_pg_repository.go:325-481 | a valid auction survives its row if and only if its anti-snipe spans are whole seconds |
| Rows.ReadAuctionIsSound | internal/auction/adapters/auction_pg_repository.go:370-481 | whatever auction row is read back is structurally sound, and writing it gives the row again |
| Rows.PartialUpdateIsWhole | internal/auction/adapters/auction_pg_repository.go:201-228 | the partial-column update leaves the row the whole updated aggregate would have |
| Rows.RowStepRefinesMap | internal/auction/adapters/auction_pg_repository.go:176-250 | reading a row, running a command and writing it back gives the row of what the map store would hold |
| Rows.RowsRefineMapOverRuns | internal/auction/adapters/auction_pg_repository.go:176-250 | over runs of any length the row store and the map store agree, and no row becomes unreadable |
| Rows.SettlementRoundTrip | internal/settlement/adapters/settlement_pg_repository.go:242-315 | a saga survives its row if and only if it has one currency and a runner-up with an amount or neither |
| Rows.ReadSettlementIsSound | internal/settlement/adapters/settlement_pg_repository.go:242-315 | whatever saga row is read back is storable, and writing it gives the row again |
| Rows.StartIsStorable | internal/settlement/app/handlers.go:300-333 | every saga started from a parsed closing survives its row |
| Rows.SagaRowRefinesMap | internal/settlement/adapters/settlement_pg_repository.go:111-161 | every commit written back through the partial update is read back as committed, under the next version |
| Rows.InvoiceRoundTrip | internal/billing/adapters/invoice_pg_repository.go:293-341 | a fresh invoice survives its row if and only if the bill fits: a condition on hammer price and rate alone |
| Rows.ReadInvoiceIsSound | internal/billing/adapters/invoice_pg_repository.go:293-341 | whatever invoice row is read back is well built, and writing it gives the row again |
| Rows.InvoiceRowRefinesMap | internal/billing/adapters/invoice_pg_repository.go:124-184 | paying, expiring or voiding a readable invoice writes back exactly that change |
| PgRepository.AuctionPostgresRepository.Update | internal/auction/adapters/auction_pg_repository.go:176-250 | row, bid history and outbox change together as the command says, or not at all; a used bid id rolls everything back |
| PgRepository.AuctionPostgresRepository.Add | internal/auction/adapters/auction_pg_repository.go:104-141 | a known id changes nothing, a second replacement is refused, otherwise row and events are written |
| PgHistory.HistoryMatchesRow | internal/auction/adapters/auction_pg_repository.go:201-247 | over any transactions on any auctions, an auction's row counts its entries in the history table and shows the last two of them |
| PgHistory.HistoryIsBidLog | internal/auction/adapters/auction_pg_repository.go:176-250 | over any transactions on any auctions, an auction's row is the map store's value after the commands that committed, its part of the history grew by exactly their bid log and its part of the outbox by exactly what they announced |
| PgHistory.HistoryIsWhatWasTold | internal/auction/adapters/auction_pg_repository.go:201-250 | over any transactions on any auctions, an auction's history and the bids published about it agree row by row: id, bidder, amount, currency and time |
| PgHistory.KeyHolds | internal/auction/adapters/migrations/00001_auction_schema.sql:55-62 | no two bids of the whole history share an id, whatever ids clients send |
| PgHistory.ReusedIdRollsBack | internal/auction/adapters/auction_pg_repository.go:230-247 | a bid the aggregate accepts is rolled back if and only if its id was used before, for whatever auction |
| OptimisticLock.InterleavingIsSerial | internal/settlement/adapters/settlement_pg_repository.go:126-161 | any interleaving of reads and version-checked writes equals the successful updates applied one after the other |
| OptimisticLock.RefusedMeansOvertaken | internal/auction/adapters/auction_pg_repository.go:224-228 | a write is refused only if another one went through since its read |
| RowRaces.RacesRefineMap | internal/auction/adapters/auction_pg_repository.go:176-228 | any interleaving of reads and version-checked partial writes of an auction row leaves the row of what the map store makes of the successful commands in order |
| RowRaces.RefusedMeansOvertaken | internal/auction/adapters/auction_pg_repository.go:224-228 | a write the aggregate accepts is refused only if another one went through since its read |
| CatalogAgreement.CatalogAgrees | internal/auction/adapters/catalog_pg_projection.go:34-111 | any repeated, permuted or incomplete stream of an auction's events leaves no row or one that shows the auction as listed or after an acknowledged bid; while the auction is listed no acknowledged bid is lost, and once all are acknowledged the row shows current price, minimal next bid and deadline |
| CatalogAgreement.CurrentIffNextFits | internal/auction/adapters/catalog_pg_projection.go:58-82 | delivering the last bid to an existing row brings it up to date if and only if bid plus increment fits in int64 |
| CatalogItems.BidIsProjected | internal/auction/adapters/catalog_pg_projection.go:58-111 | a row moves exactly for a newer bid whose next minimum fits, and then shows it; stale bids and rightly removed rows are acknowledged, everything else is retried |
| CatalogProjection.CatalogPostgresProjection.ApplyBid | internal/auction/adapters/catalog_pg_projection.go:58-111 | the row follows the specified projection; an acknowledged bid is shown, or its auction is over and the row was removed |
| CatalogProjection.CatalogPostgresProjection.UpsertListed | internal/auction/adapters/catalog_pg_projection.go:34-52 | a repeated listing event never regresses a row that bids have advanced |
| Contract.ClosingIsAccepted | internal/settlement/app/handlers.go:300-333 | after any run, a closing is settled exactly if there is a bid and the last one is enough for the reserve; the saga then starts with that bid's bidder and amount, the bid before it, and whether that one is enough, too |
| Contract.QualifiedMeansSoldIffOrdered | internal/auction/domain/auction/auction.go:247-268 | a qualifying runner-up means a sold lot, for every reserve, if and only if the leading bid is not below the runner-up's |
| Contract.QualifiedMeansBothMeetReserve | internal/auction/domain/auction/auction.go:247-268 | over runs clear of the int64 limit, a qualifying runner-up means sold with both top bids meeting the reserve |

## Left out

- HTTP ports, generated API code, authentication, configuration, logging, metrics and tracing.
- The participant and notification contexts and the bidder profiles: they do not touch a sale.
- SQL text, drivers and the message router: a row is a record, a transaction one atomic step, and the bus a set of published events each delivered any number of times in any order.
- Retries, back-off and the dead-letter queue: a handler that returns an error stops, and its event may be delivered again.
- Bits of UUIDs and event ids: identities are an injective datatype and event ids carry no information.
- Text forms of identities and the byte encoding of events.
- Microsecond truncation of instants by the database; the floating-point conversion of anti-snipe spans to seconds is taken as exact division.
- The provider's calls inside the composed saga machine: there a payment is one step by anyone, which only adds runs; `SagaMoney` runs it together with the payment machine of `PayInvoice`.
- Row locks: each transaction is one step, and `OptimisticLock` shows what the version check gives without them.
- Unconditional progress: `SagaLost` and `SagaBills` show that it does not hold, `MoverUnlessEarly` and `FinishesIffBillsFit` exactly when it does; a decline that broke off after its void also needs the client to ask again.
- The dashboard projection: a late closing overwrites the settlement's outcome, so its rows depend on the order of events.
- The absence of the catalog row after closing: a listing event handled late inserts it again, and a bid handled then is acknowledged unseen.
- That the saga's failure reason equals the auction's: a timeout and a decline can each win one of the two writes; `SagaReasons` shows that both are true.
- That offer-already-paid means the second invoice was paid: the first one gives the same answer.
- The version kept by the in-memory invoice store: unlike the database it never counts up.
- The history's primary key in the composed machine: a bid with a used id is accepted there, which only adds runs; `PgHistory` has the refusal.
- Handlers: within one handler method nobody else writes; interference between the calls is the step machine's subject.
