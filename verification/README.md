# A verified model of an event-sourced matching core

The program is a central-limit order book: signed orders are checked, numbered, written to an append-only event
log, matched in price-time order, and the books and ledgers can be rebuilt from the log alone. This project models
that core and proves how far log, live books, ledgers and replayed state agree, on every run, and exactly where an
engine rebuilt from its log can be told from one that never stopped.

Run `dafny verify dfyconfig.toml`.

## How it is built

*Objects.* `OrderBook`, `StateStore`, `Sequencer`, `Engine` and `RiskChecker` are classes with the program's fields,
updated in place by methods with the program's loops and branches. Every method is proved equal to a function on
values: `MatchOrder` to `Match`, `Replay` to `Replayed`, `ProcessOrder` to `Submit`, and so on. `Admin.Perform` says
that any one call on the engine object is one `Step` of the state machine in `EngineSpec.dfy`. What those functions
mean is then said in other terms, by the log and the books: `SubmitAnswer`, `CancelAnswer`, `PauseExactly`,
`ResumeExactly` and `CancelAllExactly` for single calls, `EveryEvent`, `PauseStops` and `ResumeOpens` for runs.

*The state machine.* `EngineView` is the value of an engine; `Run` is a run over any sequence of submissions,
cancels, pauses, resumes, forced cancels, registrations and restarts, with panics and restarts after them. Generated
ids are new (`FreshIds`); nothing else is assumed of a run.

*The invariant.* `Steps.Inv(v)` says that replaying the log of `v` gives the ledgers of `v`, and that its books, its
idempotency table and its index match the replayed orders; every operation keeps it, so it holds on every run. Four
more things are followed separately, as not every operation keeps each of them:

| | kept by | broken by |
|---|---|---|
| `ClosedAgree`: what a book has closed, the log has closed | everything | nothing |
| `BooksSynced`: books and log agree on every status | everything but a forced cancel | `BookAndLogPart` |
| `BooksHold`: every order the log leaves open is in its book | everything but a panic | `FirstCrash` |
| `NoneCrossed`: no book is crossed | everything but a restart from a crossed log | `CrossedAfterCrashes` |

`BooksReplay` is the second and the third together, and a restart restores both.

| file | contents |
|---|---|
| `Books.dfy`, `Matching.dfy`, `MatchTheory.dfy` | the order book and its representation invariant; the matching loops; price-time priority |
| `Canonical.dfy`, `Unicode.dfy`, `Layout.dfy` | the signed byte layout, a reader that inverts it, and when it tells orders apart |
| `Store.dfy`, `Sequencing.dfy`, `Replaying.dfy`, `ReplayLoop.dfy` | ledgers, sequence numbers and idempotency, the event fold, the replay loops |
| `EngineSpec.dfy`, `Engine.dfy`, `Admin.dfy` | the state machine, and the engine object proved against it |
| `LegalLogs.dfy`, `MatchReplay.dfy`, `Live.dfy`, `Steps.dfy`, `Backing.dfy`, `Runs.dfy` | what each step keeps; every run |
| `Provenance.dfy`, `Answers.dfy`, `Trading.dfy`, `Ledgers.dfy` | intake and the author of every logged event; what each answer says about the log; market status over runs; what tables and statuses say about the log |
| `Restart.dfy`, `Twins.dfy`, `Equivalence.dfy`, `Crashes.dfy`, `Recovery.dfy` | the restored engine, its bisimulation with the one that never stopped, what a restart costs, also after a crash, startup on the objects |
| `LogTheory.dfy`, `Grammar.dfy`, `Finality.dfy`, `Alignment.dfy`, `Depth.dfy`, `Guarantees.dfy` | ledgers, log grammar, finality, alignment, depth, main results |
| `Checksum.dfy`, `Fingerprints.dfy`, `Persist.dfy`, `Prefixes.dfy`, `Risk.dfy` | fingerprint and snapshots, what the fingerprint binds, concurrent handlers over the event table, the rate limiter |
| `Samples.dfy`, `Witnesses.dfy` | short runs, and reachable engines on the failing side of each property that holds under a condition |

## Modelling choices

- A hash is represented by the bytes it was computed from, so SHA-256 is collision free by construction. `Checksum`
  instead takes the 32-byte digest as a function that keeps the hashes of a table apart.
- The wall clock, the generated order id and the ed25519 check are inputs (`World`, `nowMs`, `freshId`); a generated
  id is assumed not to be in use.
- An order is its fixed `Terms` and the three fields the engine updates. `Remaining()` is an `int`: it is negative
  exactly where the program's unsigned subtraction would underflow, and `LedgersAgree` shows that it never is.
- Looking up a missing book with `unwrap` is the outcome `Panicked` or `CancelPanicked`, not a precondition.
- `match_buy` and `match_sell` are one method, `MatchOrder`, over the side of the makers.
- `last_update_sequence` differs between a live order (the taker's number) and a replayed one (the fill's number),
  and `accepted_at_ms` of a rebuilt idempotency record is the event's time; both are left out of `Twin` and `Shadows`.
- Hash maps are iterated in an arbitrary order (`:|`), so what is proved of replay and of the checksum holds for
  every order.

## Where the code departs from its comments

Each property that fails has its exact condition and an engine, reached by a short run, on which it fails. The
orders of those runs are any that fit together; `SampleOrders` gives some.

- *Startup crashes on quiet markets.* `src/main.rs:29-57` registers the markets and then restores; restoring replaces
  the books by those of markets with an open order. The next accepted order of any other market dereferences a
  missing book, and so does a cancel of any order ever accepted there (src/engine/mod.rs:279, 337). `RestartPanics`
  is the exact condition; `QuietMarketCrashes` fails it. `RestartEquivalence` holds until the first such request.
  Registering the markets again helps (`ReopenedEquivalence`) until the next restart (`ReopenedCrashesLater`).
- *A panicked submission stays in the log.* Its order was logged before the panic and never matched.
  `CrashThenRestart` says when the book of the next restart is uncrossed: exactly when the order would not have traded
  with any the log leaves open in its market. After two crashes it can be crossed (`CrossedAfterCrashes`).
- *Duplicates are told `Filled` too often.* `DuplicateReports` says when: a taker cancelled for self-trade was never in
  a book (`OwnTradeReportedFilled`), and after a restart a cancelled order no longer is (`CancelledReportedFilled`).
  `ShadowStep` and `RestartEquivalence` say exactly which answers a restart changes; `AnswersDiffer` is one.
- *Cancel-all cancels nothing in the book.* It logs a cancel for every order ever accepted in the market, filled and
  cancelled ones included, and leaves the book alone. `CancelAllDiverges` says when log and book then still agree
  (`BookAndLogPart` when not), and `FinalityStep` which later order puts a fill after a cancel into the log
  (`CancelledOrderTrades`).
- *Long market ids are ambiguous.* The length prefix wraps at 65536 bytes, and nothing checks lengths.
  `RegistryInjective` says for which registered ids acceptable orders can collide; ids of at most 65536 bytes are
  safe (`ShortIdsInjective`), others need not be (`UnsafeRegistry`). Without the intake checks a reader exists exactly
  up to ids of 65535 bytes (`ReaderExists`).
- *A lost batch can be fatal or silent.* If a skipped or failed append is not made good by an overlapping batch, the
  table has a hole. `TableRestarts` says which tables replay: after a hole behind the first row the program cannot
  start, while a table that lost its first rows may replay without an error and without the lost orders
  (`FirstBatchLost`). A table that lost its last rows only restarts to an earlier state of the run
  (`PrefixIsEarlier`).
- *The price band narrows at large references.* The product of reference and basis points saturates at 64 bits.
  `BandExact` says when the gate is the documented one; otherwise it also refuses prices within the band.
- *The limiter trusts the clock.* With a clock that may step back the limit holds exactly if it is at most one
  submission per window (`AnyClock`; `StepBackBreaks` with any higher limit).
- `src/snapshot/mod.rs:147` says the checksum is verified before replay; it is computed from the replayed ledgers.
- `src/db/mod.rs:39-42` says the engine checks the cancelled table on intake; it does not, and a repeated order is
  refused by its idempotency key and nonce instead.

## Model

| member | source | states |
|---|---|---|
| `Books.OrderBook.Insert` | src/engine/orderbook.rs:84-96 | the order is filed under its id, nothing else changes, and a newest open order keeps every level a duplicate-free FIFO queue of exactly its open orders |
| `Books.OrderBook.CancelWithStatus` | src/engine/orderbook.rs:111-125 | succeeds exactly for a known open order, changes its status only and takes it out of its queue; the representation invariant survives if and only if the status given is a closed one; anything else is left alone |
| `Books.OrderBook.RemoveFromQueue` | src/engine/orderbook.rs:242-266 | after it the levels index exactly the orders indexed before, less the one removed, with no empty level |
| `Matching.MatchOrder` | src/engine/matching.rs:48-113 | the nested loops over snapshotted levels and queues compute the greedy walk over one flat list of crossing makers in price-time order; book, taker and fills are those of the walk |
| `Matching.MatchAtPriceLevel` | src/engine/matching.rs:127-223 | one level is one stretch of that walk; the missing-maker and stale-maker skips are dead and the maker lookup cannot fail |
| `Matching.FillMaker` | src/engine/matching.rs:204-221 | the maker grows by the quantity and leaves its queue exactly when it is full |
| `MatchTheory.MatchIsGreedy` | src/engine/matching.rs:69-223 | fill i is with maker i, at the maker's price, never with the taker's trader; all makers but the last are filled completely; the walk stops because the taker is full, met its own order, or used up the makers; no other order changes; the taker's fill is the sum and never exceeds its size |
| `MatchTheory.PriorityRespected` | src/engine/matching.rs:115-223 | if a maker trades, every crossing maker ahead of it in price-time order has been filled |
| `MatchTheory.RestingTookAll` | src/engine/matching.rs:76-89 | a taker left with a remainder has closed every order it crossed |
| `MatchTheory.MatchKeepsUncrossed` | src/engine/matching.rs:76-113 | matching an arriving order never leaves a crossed book |
| `Canonical.CanonicalHash` | src/domain/order.rs:344-389 | the hasher fed field by field has been fed the canonical layout |
| `Layout.ReaderExists` | src/domain/order.rs:342-389 | some function of the layout returns every field but the signature of all orders whose market and trader ids are shorter than a limit if and only if the limit is at most 65536 |
| `Canonical.Injective` | src/domain/order.rs:344-389 | orders with equal layouts and fitting ids agree on every field but the signature |
| `Layout.RegistryInjective` | src/domain/order.rs:350-363 | among orders intake can accept in a set of markets, equal layouts mean equal orders up to the signature if and only if no id of the set is another one followed by a length-prefixed hex key and two bytes that end a character, their lengths differing by a multiple of 65536 |
| `Layout.Collision` | src/domain/order.rs:350-363 | for any two such ids, two acceptable orders with equal layouts, whose client ids are well-formed UTF-8 |
| `Layout.UnsafeRegistry` | src/domain/order.rs:350-363 | there are such ids |
| `Layout.AcceptedNeverCollide` | src/engine/mod.rs:163-201 | two orders that pass intake under a registry without such ids, at most 65536 bytes each for instance, share a hash only if they agree on every field but the signature |
| `Canonical.HashBinds` | src/domain/order.rs:380-388 | the layout always determines nonce and public key, whatever the lengths of the ids |
| `Store.StateStore.ApplyFillPair` | src/db/mod.rs:75-78 | the taker's and then the maker's entry grow by the quantity, also when they are the same entry |
| `Store.StateStore.CheckAndUpdateNonce` | src/db/mod.rs:111-122 | accepts exactly the nonces above the stored one, reports the stored one otherwise, and changes nothing on an error |
| `Store.StateStore.RaiseNonce` | src/replay/mod.rs:132-135 | the stored nonce becomes the larger of the two |
| `Sequencing.Sequencer.Resume` | src/sequencer/mod.rs:104-128 | the loop over the log rebuilds the table of the accepted keys |
| `Sequencing.Sequencer.AppendEvent` | src/sequencer/mod.rs:146-160 | one entry with the next number at the end of the log, and the counter moves by one |
| `Sequencing.Sequencer.RegisterAccepted` | src/sequencer/mod.rs:183-202 | the key maps to the record; no other key changes |
| `ReplayLoop.FoldEvents` | src/replay/mod.rs:97-208 | the event loop computes the fold of the log, or its first gap or unknown order |
| `ReplayLoop.BuildBooks` | src/replay/mod.rs:218-229 | for every enumeration of the hash map: one separate book per market with an open order, holding exactly its open orders, and satisfying the representation invariant if the orders are sound |
| `ReplayLoop.Replay` | src/replay/mod.rs:96-237 | `replay` as a whole against the fold, errors included |
| `Engines.Engine.constructor` | src/engine/mod.rs:118-142 | a new engine is the initial state |
| `Engines.Engine.AddMarketConfig` | src/engine/mod.rs:146-150 | the config is replaced; a new market gets an empty book and a known one keeps its book object |
| `Engines.Engine.CheckGates` | src/engine/mod.rs:163-229 | steps 1 to 7: passes exactly the new, valid, signed orders with a higher nonce; otherwise the answer is final and nothing has changed |
| `Engines.Engine.RecordFills` | src/engine/mod.rs:282-287 | one consecutive event and one ledger update per fill, in order |
| `Engines.Engine.MatchAndRest` | src/engine/mod.rs:278-305 | match, log and book the outcome, and rest the residual, changing one book only |
| `Engines.Engine.ProcessOrder` | src/engine/mod.rs:160-315 | new state and answer are those of `Submit`: rejection, duplicate, acceptance, or panic for want of a book; `SubmitAnswer` says what each means |
| `Engines.Engine.ProcessCancel` | src/engine/mod.rs:325-377 | new state and answer are those of `Cancel`: unknown, foreign, already closed, cancelled, or panic; `CancelAnswer` says what each means |
| `Engines.Engine.RestoreFromEvents` | src/engine/mod.rs:454-484 | new state and answer are those of `Restore`; on an error nothing changes |
| `Engines.InvUsable` | src/engine/mod.rs:278-305 | an engine that agrees with its log can always take the next order: everything in its books is indexed and older |
| `Admin.PauseMarket` | src/ops/admin.rs:47-84 | state and answer of `Pause`, including unknown, already paused and settled markets; `PauseExactly` says what each means |
| `Admin.ResumeMarket` | src/ops/admin.rs:89-123 | state and answer of `Resume`, including unknown, already active and settled markets; `ResumeExactly` says what each means |
| `Admin.CancelAllOrders` | src/ops/admin.rs:131-182 | state and answer of `CancelAll`: every open-as-accepted order of the log is logged and recorded as cancelled, no book changes; `CancelAllExactly` says which and how many |
| `Admin.Perform` | src/api/rest.rs:321-640 | any one call on the engine object is one step of the state machine and keeps the engine in agreement with its log |
| `Provenance.IntakeDecides` | src/engine/mod.rs:163-201 | an order passes intake if and only if it is signed by the key its trader id spells, not expired, in an active market, on its grids and nothing in it is empty or zero; a refusal names the first of the 14 checks that fails |
| `Provenance.LoggedExactly` | src/engine/mod.rs:163-276 | a submission is logged if and only if it passes intake, its key is in no logged acceptance and its nonce is above those of all the trader's; it is logged as it was signed, field by field, unfilled and open; otherwise nothing changes |
| `Provenance.EveryEvent` | src/engine/mod.rs:146-484 | on every run every event has the next number, the wall time of that number, and one operation as its reason: an acceptance records an admissible submission, fills and self-trade cancels belong to the submission just logged and carry its time, a requested cancel was asked for by the trader its acceptance names, a forced one by a cancel-all of the market it was accepted in, pauses and resumes by their requests |
| `Provenance.SelectsExactly` | src/ops/admin.rs:151-167 | the orders cancel-all selects are those of the acceptances of its market in the log, no others, each once |
| `Answers.NewOrderAnswer` | src/engine/mod.rs:231-315 | a new order is told the id and number it is logged under, exactly the fills logged after it in order, and the status it has when the log is replayed; the idempotency table remembers it |
| `Answers.SubmitAnswer` | src/engine/mod.rs:160-315 | every answer to a submission, in terms of the log: a refusal with the check that failed, a duplicate told the first order of its key, a nonce refusal naming the trader's last, a panic for want of a book, or a new order as above; only the last two change anything |
| `Answers.CancelAnswer` | src/engine/mod.rs:325-377 | every answer to a cancel, by the acceptance of the order in the log: unknown, foreign exactly when it is in its book under another trader, closed already, closed now in its book and in the log by one event that changes nothing else, or a panic if its market has no book |
| `Answers.OnlyOwnerCancels` | src/engine/mod.rs:341-346 | a cancel that changes anything was asked for by the trader whose order the log accepted |
| `Answers.CancelAllExactly` | src/ops/admin.rs:131-182 | one cancel for each acceptance of the market, their number returned; the replayed orders of every other market are as before, and exactly the hashes of this one join the cancelled table |
| `Trading.RegisterExactly` | src/engine/mod.rs:146-150 | a registration sets one configuration, opens an empty book if there was none, and changes nothing else |
| `Trading.PauseExactly` | src/ops/admin.rs:47-84 | a pause succeeds exactly on an active market; then it is paused, no other configuration has changed, and one event is logged with the number returned; each error says what the status was |
| `Trading.PauseStops` | src/ops/admin.rs:47-84 | on every run from a pause on, through restarts and forced cancels, the log gains no acceptance of the market until it is resumed or registered again |
| `Trading.ResumeExactly` | src/ops/admin.rs:89-123 | a resume succeeds exactly on a paused market, which is then active, and nothing else changes but the log by one event |
| `Trading.ResumeOpens` | src/ops/admin.rs:89-123 | on every run from a resume on the market stays open until it is paused or registered again: an order that meets the other conditions of intake is logged |
| `Ledgers.LiveCancelled` | src/db/mod.rs:90-97 | the cancelled table holds exactly the hashes of the logged cancels |
| `Ledgers.RebuiltTime` | src/sequencer/mod.rs:104-128 | a resumed sequencer dates every record by the event of its acceptance |
| `Ledgers.LastEventDecides` | src/replay/mod.rs:125-195 | every replayed order has the status and the update number of the last event that names it |
| `Ledgers.TradedMaker` | src/engine/matching.rs:195-221 | a maker that traded has grown by its fill within its size, carries the taker's number, and is closed as filled exactly when it is full |
| `Ledgers.ErrorTells` | src/replay/mod.rs:104-122 | a failed replay names the first event that skips a number, with the number expected, or that concerns an order not accepted before it |
| `LegalLogs.AcceptedHashIsNew` | src/db/mod.rs:26-30 | an accepted order's hash differs from every earlier one: the layout ends in nonce and key, and the nonce is higher than any the trader used |
| `LegalLogs.LegalKeeps` | src/replay/mod.rs:104-208 | every legal event replays, never overfills an order, keeps the fill ledger equal to each order's own count, and keeps sequence numbers, hashes and keys distinct |
| `MatchReplay.WalkReplays` | src/replay/mod.rs:143-175 | replaying the fills of a match is legal and reproduces the live fills and statuses of taker and makers |
| `Runs.NewEngineInv` | src/engine/mod.rs:118-142 | the initial engine agrees with its empty log |
| `Runs.StepKeeps` | src/engine/mod.rs:146-484 | every operation keeps the agreement of log, ledgers, books, table and index, restarts included, and panics only if some registered market has no book; statuses stay in step unless it is a forced cancel, open orders stay in their books unless it panics |
| `Runs.StepAgrees` | src/engine/mod.rs:146-484 | no operation, panics, forced cancels and restarts included, leaves an order closed in a book and open in the log |
| `Runs.StepUncrossed` | src/engine/mod.rs:146-484 | no operation crosses a book, except a restart from a log whose open orders cross |
| `Runs.RunKeeps` | src/engine/mod.rs:146-484 | on every run whatever: live fill, cancel and nonce ledgers equal those of the replayed log; without forced cancels books and log agree on every status; without panics the open orders of the log are in their books |
| `Runs.CleanWithoutCrash` | src/engine/mod.rs:454-484 | in a run that does not restart after a panic, every restart finds a log whose open orders do not cross |
| `Restart.LiveBookIsReplayed` | src/replay/mod.rs:218-229 | the live book of a market holds exactly the orders the log leaves open there, with the same fills and statuses |
| `Restart.RestartKeeps` | src/engine/mod.rs:454-484 | the restored engine agrees with its log whatever went before, and its books are exactly the open orders of the log, even after a forced cancel or a panic |
| `Restart.RestartUncrossed` | src/engine/mod.rs:454-484 | its books are uncrossed if and only if the orders the log leaves open are |
| `Restart.RestartedIsTwin` | src/engine/mod.rs:465-481 | it has the same log, next number, ledgers, index, open orders and idempotency records as the engine that was lost |
| `Twins.ShadowMatch` | src/engine/matching.rs:48-62 | matching depends on the open orders alone: a book and one that lacks some of its closed orders give the same fills and stay so related |
| `Twins.ShadowStep` | src/engine/mod.rs:146-484 | for an engine and one that may lack closed orders and books without open orders: the second alone crashes if and only if the request reaches a book only it lacks; otherwise both stay so related, twins with the same ledgers and open orders (`ShadowIsTwin`), and their answers differ if and only if the request is a cancel, or a duplicate of an order not filled, of an order only the first still holds |
| `Equivalence.RestartEquivalence` | src/main.rs:29-57 | restart equivalence for the program as it restarts, over whole runs before and after: same log, ledgers, fills and open orders, answers predicted exactly from the running engine, until the first request that reaches a market quiet at the restart and not registered, paused or resumed since, which crashes the restored engine alone |
| `Equivalence.ReopenedEquivalence` | src/engine/mod.rs:445-484 | with the markets registered again the equivalence holds for good: the restored engine panics in the same runs as the one that never stopped, and in none without a further restart |
| `Equivalence.RestartedHouses` | src/engine/mod.rs:465-468 | a restored market has a book if and only if an order rests in it |
| `Equivalence.RestartPanics` | src/engine/mod.rs:279-337 | a request crashes the restored engine if and only if it is an order accepted in a market where nothing rests or a cancel of an order ever accepted in such a market; the running engine answers every request |
| `Witnesses.QuietMarketCrashes` | src/engine/mod.rs:279-337 | a reachable instance: register, submit, cancel, restart; a second cancel and a new order then crash |
| `Witnesses.ReopenedCrashesLater` | src/engine/mod.rs:454-484 | the same engine with its market registered again crashes after a second restart |
| `Witnesses.AnswersDiffer` | src/engine/mod.rs:333-358 | register, submit, cancel, submit another order, restart: a second cancel of the first order is already done for the one engine and not found for the other |
| `Crashes.CrashThenRestart` | src/engine/mod.rs:259-280 | after a submission that panicked a restart agrees with the log, and its books are uncrossed if and only if the order would not have traded with any the log leaves open in its market |
| `Witnesses.CrossedAfterCrashes` | src/engine/mod.rs:259-280 | after a restart on a quiet market, a buy and a sell that would trade both panic; the next restart has a crossed book |
| `Recovery.RegisterAll` | src/main.rs:29-49 | a new engine with every configured market registered and an empty book for each |
| `Recovery.Recover` | src/main.rs:29-57 | startup on the log of a running engine gives a well-formed engine in the state `Restarted`, with the running engine's price levels and FIFO queues market by market |
| `LogTheory.LedgersAgree` | src/db/mod.rs:26-30 | for every accepted order the logged fills naming it, the ledger entry of its hash and its own count in the book are equal and at most its size |
| `LogTheory.FillsPair` | src/engine/matching.rs:165-193 | every logged fill names two accepted orders, maker first, of different traders, opposite sides and one market, at the maker's price and within the taker's limit, stamped with the taker's number |
| `LogTheory.AcceptancesOrdered` | src/engine/mod.rs:203-229 | of two accepted orders the ids, keys and hashes differ, and one trader's nonces increase |
| `LogTheory.NonceIsLast` | src/replay/mod.rs:125-138 | the stored nonce is that of the trader's last accepted order, so the strict check and the forgiving fold keep one table |
| `LogTheory.TableIsLog` | src/sequencer/mod.rs:104-128 | the idempotency table holds exactly the accepted keys with their original number, id and hash, and a resumed sequencer rebuilds it |
| `LogTheory.OnlyAcceptanceChanges` | src/engine/mod.rs:160-229 | rejections and duplicates leave the engine as it was; a new order always grows the log |
| `LogTheory.ReplaysExactly` | src/replay/mod.rs:104-208 | any sequence of events replays if and only if its numbers are consecutive and every fill and cancel concerns orders accepted earlier in the sequence |
| `Grammar.RunWrites` | src/engine/mod.rs:259-297 | the log of every run whatever is numbered 1 to n, replays without gap or unknown order, and each acceptance is followed by its own fills and at most one self-trade cancel |
| `Grammar.ClosedIsFinal` | src/engine/orderbook.rs:111-125 | once an order in a book is filled or cancelled, no later run changes or reopens it, whatever panics and restarts there are: it is found unchanged or, after a restart, not at all |
| `Grammar.CancelledIsFinal` | src/engine/mod.rs:348-370 | without forced cancels no fill in the log names an order after its cancel, whatever panics and restarts there were |
| `Alignment.RunOnGrid` | src/domain/market.rs:96-124 | while tick and lot sizes stay, on every run every price in books, logged orders and fills is a multiple of the tick and every original, filled and traded quantity a multiple of the lot |
| `Depth.QueuesRebuilt` | src/replay/mod.rs:220-229 | two valid books with the same open orders have the same levels and the same FIFO queues |
| `Depth.BestIsBest` | src/engine/orderbook.rs:150-158 | the best price is that of an open order and no open order of the side has a better one; there is none exactly when the side is empty |
| `Depth.DepthConserved` | src/engine/matching.rs:176-221 | a match takes exactly the traded quantity off the maker side and adds exactly what rests to the taker side |
| `Depth.FullSnapshot` | src/engine/orderbook.rs:196-234 | the full level-2 snapshot lists strictly ordered prices and no empty level, and its quantities sum to the depth of the side |
| `Depth.SnapshotExact` | src/engine/orderbook.rs:196-234 | a snapshot of any depth is the one list of at most that many rows, best price first, each with the remaining quantity and the number of the open orders at its price, that leaves out no price unless it is full of better ones; and it is the beginning of the full one |
| `Guarantees.NeverCrossed` | src/engine/mod.rs:388-392 | in every state of every run whose restarts find an uncrossed log, the best bid of a market is below its best ask; `CleanWithoutCrash` and `CrashThenRestart` say which restarts do |
| `Recovery.ReplayedOrdersSound` | src/replay/mod.rs:220-229 | what a reachable log leaves open is unfilled and numbered distinctly, so the books built from it are well formed |
| `Guarantees.ReplayRebuildsBook` | src/replay/mod.rs:96-237 | after any run without forced cancels and panics, a well-formed book of the replayed open orders has the live book's levels, FIFO queues, open orders, fills and statuses; `Recovery.Recover` produces such books |
| `Guarantees.SubmitConservesDepth` | src/engine/mod.rs:278-305 | an accepted submission moves depth by exactly the traded and the resting quantity, in its own market only |
| `Guarantees.CancelAllDiverges` | src/ops/admin.rs:125-182 | cancel-all closes every order of the market in the log and none in the book; the two agree afterwards if and only if nothing was resting |
| `Witnesses.BookAndLogPart` | src/ops/admin.rs:169-179 | register, submit, cancel-all: the live book is not the replayed one |
| `Finality.FinalityStep` | src/ops/admin.rs:169-179 | in any state whose log has no fill after a cancel, the next accepted order adds one if and only if, walking the makers it crosses, it is neither filled nor stopped by its own order before one whose cancel is logged |
| `Finality.OthersFinal` | src/engine/mod.rs:348-370 | no other operation adds one |
| `Finality.FinalityAfterCancelAll` | src/ops/admin.rs:169-179 | right after a cancel-all, the order accepted in the market does so if and only if it crosses a resting order and the first such maker is another trader's |
| `Witnesses.CancelledOrderTrades` | src/ops/admin.rs:169-179 | a buy rests, is cancelled by force, and a sell of another trader then trades with it |
| `Guarantees.DuplicateReports` | src/engine/mod.rs:206-223 | a duplicate changes nothing and returns the original id and number; the status it reports is the replayed one if and only if the order is still in a book or was filled |
| `Witnesses.CancelledReportedFilled` | src/engine/mod.rs:206-223 | submit, cancel, restart, submit again: reported as filled |
| `Witnesses.OwnTradeReportedFilled` | src/engine/mod.rs:206-223 | a taker cancelled for self-trade, submitted again: reported as filled |
| `Checksum.SortIsListing` | src/db/mod.rs:178-188 | sorting the entries of a table gives the same list whatever order they were iterated in |
| `Checksum.FeedTable` | src/db/mod.rs:185-190 | collecting, sorting and feeding one table appends the bytes of its unique sorted listing |
| `Checksum.ComputeChecksum` | src/db/mod.rs:182-212 | the fingerprint is a function of the three ledgers, independent of every iteration order |
| `Fingerprints.FingerprintBinds` | src/db/mod.rs:182-212 | ledgers with the same keys and 64-bit amounts and nonces have equal fingerprints if and only if they are equal: every amount, flag and nonce is hashed |
| `Fingerprints.SharedFingerprint` | src/db/mod.rs:182-212 | two different ledgers, without the same keys, whose fingerprints are equal |
| `Checksum.LoadSnapshot` | src/snapshot/mod.rs:148-168 | version check, replay, then comparison of fingerprints, with each error; on success the rebuilt books and ledgers |
| `Checksum.SnapshotLoads` | src/snapshot/mod.rs:110-168 | a snapshot of any reachable engine holds its whole log under the number of the last event, passes its checksum on load and brings back its ledgers |
| `Fingerprints.AlteredSnapshotRefused` | src/snapshot/mod.rs:148-168 | a snapshot with the checksum of a ledger of the same keys loads if and only if its events replay to that ledger; otherwise the mismatch is reported |
| `Persist.AppendEvents` | src/pg/mod.rs:53-75 | row by row, an event is inserted if and only if its number is not yet present |
| `Persist.TableWithinLog` | src/api/mod.rs:270-293 | in every interleaving of handlers, with any lock misses, failed appends and panics, every row is the logged event of its number and everything published is in the log |
| `Persist.QuiescentTableIsLog` | src/api/rest.rs:333-350 | if nothing was missed, then with no request in flight the table read in order is the log, and every event appended since the server opened was published |
| `Persist.TableRestarts` | src/pg/mod.rs:77-98 | any table of logged events replays if and only if its rows are consecutive and every fill and cancel row names orders accepted within the rows; with the first event in it, if and only if it is a prefix of the log |
| `Persist.FirstBatchLost` | src/api/mod.rs:270-293 | for any two requests accepted in turn on a fresh log, a schedule whose table replays without an error and without the first accepted order; `SampleSchedule` gives such requests |
| `Prefixes.PrefixIsEarlier` | src/api/mod.rs:270-293 | in every interleaving, a table whose rows are a prefix of the log holds the log as it stood after some of the actions, between two requests |
| `Risk.RiskChecker.Check` | src/risk/mod.rs:169-204 | the first failing gate in the program's order, or acceptance; an error changes nothing |
| `Risk.GateDecides` | src/risk/mod.rs:178-257 | which gate refuses: the trader has reached the limit within the window that ends now, the size exceeds the market's, or the price deviates from the last trade by more than the band; with the numbers it was decided by, and in that order |
| `Risk.BandExact` | src/risk/mod.rs:235-257 | no price outside the documented band passes; every price inside passes if and only if the band of the unbounded product is no wider than that of the largest 64-bit number |
| `Risk.RiskChecker.RecordSubmission` | src/risk/mod.rs:227-233 | the trader's window is pruned and gains the submission; no other window changes |
| `Risk.PruningRefines` | src/risk/mod.rs:208-233 | with a clock that never steps back, every answer is that of a limiter that never forgets, and no stored window exceeds the limit |
| `Risk.RateLimitHolds` | src/risk/mod.rs:208-225 | over the whole history no closed interval as long as the window holds more than the allowed number of accepted submissions of a trader |
| `Risk.AnyClock` | src/risk/mod.rs:208-233 | whatever the clock does, the limit holds on every history if and only if it is at most one submission per window |

## Left out

- HTTP routing, JSON, header and admin-key checks, error mapping, the command line client and WebSocket sessions: transport; only the order lock, mutate, release, publish, persist is kept, in `Persist`.
- SQL, the file system and the search for the latest snapshot: the table is an insert-if-absent map with atomic transactions, a snapshot an exact copy of the log.
- SHA-256, ed25519, UUID generation and the wall clock: inputs or abstract functions.
- Balances: credit and debit are never called by the engine.
- Fees, base and quote assets of a market: stored, never read by this code.
- 64-bit overflow of sequence numbers, level totals and ledger sums: counters are unbounded; fill totals are proved not to exceed the order size.
- Query limits of `get_fills` and the sorted market listing: single expressions.
- The fan-out of an event into WebSocket envelopes: `Persist` publishes the event itself.
- Fingerprints.AlteredSnapshotRefused: excludes snapshots whose ledger has other keys; the sections of the fingerprint carry no counts, so such a ledger may share it (`SharedFingerprint`).
- Equivalence.RestartEquivalence: starts from a run without forced cancels and panics; after those log and books may differ (`CancelAllDiverges`, `FirstCrash`), and `RestartFrom` says the same of any engine whose books are those of its log, as every restarted one's are. Market statuses are kept, which the log does not restore.
- Grammar.CancelledIsFinal: excludes forced cancels, after which it fails exactly as `FinalityStep` says.
- Guarantees.NeverCrossed: excludes a restart from a log that crosses, which `CrossedAfterCrashes` reaches.
- Risk.RateLimitHolds: needs a clock that does not step back; `AnyClock` says what holds without one.
- Depth.FullSnapshot: sums are unbounded integers; `SnapshotExact` has the snapshots of fewer levels.
- A server restart inside the protocol: a restarted server is a new system that opens on the restored log, not a step of `Persist`.
