# bid-storm, modelled and proved

bid-storm is an auction service that accepts a bid in one of three ways (optimistic, pessimistic, single
writer), on two Postgres tables, behind idempotency keys kept in Redis, with a worker that closes what is
over. This project models that behaviour in Dafny and proves what the tables, the answers and the queues
satisfy over every run: any interleaving of the participants, killed at any point, with statements that
abort, that commit and report a failure, or that commit after the failure was reported.

`dafny verify dfyconfig.toml` checks all of it.

## How it is put together

| module | what it holds |
|---|---|
| `Contract`, `Tables` | the shared decision rule in wrapping int64, the two tables, their constraints, the statements |
| `Ledger` | one history per auction; what one insertion can do to it |
| `World`, `Safety`, `Guarantees` | all participants as one step machine over the tables; its invariant; what follows for every run |
| `Stuck`, `Finality`, `Deadline` | recovery and its exact limit; exactly when an auction can still take a bid and a closed one has its final winner, with shard clocks of any error and with clocks within the skew's bound |
| `Times`, `Locks` | the closing edge; row locks, unique entries and waiting |
| `ShardEngine`, `ShardBooks`, `ShardCauses`, `ShardLoop`, `Slicing` | the single-writer goroutine statement by statement, its account, why each command was answered as it was, and eight of them |
| `Engines`, `Optimism`, `Calls` | one call of each engine, when the three agree, contention; the optimistic and pessimistic engines statement by statement |
| `Refinement` | the shard's loop and the closer move the step machine by its own steps, and withstand all of them |
| `Idempotency`, `Middleware` | the Redis hash, its claim script and its three separate finish commands; the HTTP layer that calls them |
| `Closing`, `Delivery`, `Worker`, `Publishing`, `Sweep` | the guarded closing, the stream and its consumer group, the worker that claims, reads, closes and buries, the account of what the sweep published, the sweep that feeds it |
| `Checker`, `Client`, `EndToEnd` | the consistency queries, the load generator's counters, and both compared across engines, Redis and wire |

The step machine (`World.Enabled`, `World.Apply`) has these steps: create an auction, let time pass; start a
shard, hydrate, decide, commit (acknowledged, misreported, in flight, aborted), a late batch lands or is
dropped, crash; an optimistic statement; begin, lock, update, insert, commit, roll back a pessimistic
transaction; close. Its invariant (`World.Inv`) says that each history is valid and each auctions row is
the state after a prefix of it; that each cached state is a durable prefix plus the open batch; that each
late batch was decided over some durable prefix; and that each open transaction's read is still the row.

Objects that the code updates in place are classes with those fields: the shard (`ShardLoop.Shard`) and its
pool, the other two engines over the same pool, the idempotency store and its middleware, the closer and its
connection, the stream, the consumer, the sweep and the load generator. Each method is proved against a function
of the old state. What a database or Redis may do to a statement comes from a script that every proof leaves open:
the statement runs, fails, or takes effect and goes unheard, and before it the rest of the system may have changed
the tables in any way the step machine can (`Refinement.ARunMayBeFound`), a failed batch landing late included.
An empty script means that nothing fails and nobody else acts.

## Where the code and its own text disagree

The model follows the code. Where a promise is false of it, a concrete run shows it and the exact condition
under which it holds is proved.

- `internal/bid/shard/shard.go:204-207` says that a batch never holds two bids of one auction. `decide` accepts
  a second, higher bid before the commit, because a TooLow answer has already told its price. The `UPDATE ...
  FROM` then has two matching rows and Postgres takes an unspecified one (PostgreSQL manual, UPDATE, Notes).
  If it takes the older one, both bidders have their 201, the bids are right and the row is behind; and once
  that memory is gone, by a restart or an eviction, the auction takes no bid ever again
  (`Stuck.TwoBidsInOneBatchCanWedgeAnAuction`, `Stuck.BehindForever`). Recovery works if and only if the row
  agrees with its history (`Stuck.RecoversIffRowAgrees`). A commit is sure to leave the row on the whole
  history if and only if the batch holds one bid of the auction (`Ledger.RowIsItsHistoryIffOneBid`).
- `internal/bid/engine.go:61-63` adds in int64, and the handler checks `> 0` only. Past 2^63-1 the minimum is
  negative and any positive amount passes; in SQL the same sum is an error. The increment rule holds if and
  only if the sum fits (`Guarantees.IncrementRuleHoldsIffItFits`), and where it does not, the engines part for
  every bid that the constraints would take on an open auction (`Engines.OptimisticIsPessimistic`).
- `internal/bid/shard/shard.go:157` and `:186` read the clock twice. A bid can be guarded before the end and
  dated after it. I4 holds after a run exactly when no bid of such a decision has landed
  (`Checker.TheChecksAfterAnyRun`, `Times.OnlyStraddlersAreAfterTheEnd`); one whose batch aborts does no harm.
- A batch decided before the end may commit after the closing: status `closed` does not yet mean that the
  winner is final (`Times.AClosedAuctionCanStillGetAWinner`). The shard's corrected clock is off by at most half a
  hydration's round trip, 2.5 s by its timeout (`ShardEngine.ClosingAgreesAwayFromTheEnd`,
  `Refinement.ADecisionIsAtMostTwoSteps`). Once an auction has been over for longer than that, no shard decides
  for it again (`Deadline.NoDecisionLongAfterTheEnd`), and a closed one has its final winner if and only if no
  batch decided before, open or in flight, still fits the tables (`Deadline.TheWinnerIsFinalIffNothingLands`).
  On an open row past that point only a statement or a transaction begun before the end can add as well
  (`Deadline.TakesAnotherBidWithinIff`). For clocks of any error an open memory at the end of the history counts
  too (`Finality.TheWinnerIsFinalIff`), and the two differ on the commonest closed auction
  (`Deadline.AnOpenMemoryDoesNotMatter`). What holds for either: that every shard which remembers the auction has
  it closed and without open bids, and nothing of it is in flight, is enough and stays so
  (`Finality.QuiescentIsFinal`).
- `internal/closing/materializer.go:143-146` blames another transaction holding the row. An UPDATE waits for a
  row lock; the causes are a row that appeared or a clock that crossed `ends_at` between the statements, and
  nothing else (`Closing.AMissedDueRowAppearedOrCrossedItsEnd`). For an id that was due when it was published
  neither can happen.
- `internal/stream/consumer.go:43-48` promises at most one unacknowledged entry. A read delivers up to 64, all
  pending from that instant (`Delivery.TwoUnacknowledgedIffTwoWaiting`), and failed handlings stay pending.
- The in-flight expiry of 30 seconds (`internal/idem/store.go:25-28`) is the exact limit of mutual exclusion in
  Redis: below it requests of one key are alone (`Idempotency.PromptRequestsAreAlone`), from it on a second
  one enters, and a late rejection can clear its mark. The unique index still keeps one row per key
  (`Guarantees.OneRowPerKey`).
- `internal/bid/pessimistic/sql.go:5-13` takes `clock_timestamp()` to be read after the wait for the row. It is
  computed when the row is fetched and again only if the row changed while the statement waited, so behind a
  transaction that changed nothing it may be from before the wait. What a reading at or past the end refuses it
  refuses for good (`Times.ALateReadingIsRefused`); one from before the end still writes, however long ago that
  was (`Times.AnEarlyReadingStillWrites`), as an optimistic statement does that began before it
  (`Times.AnOptimisticBidCanLandPastTheEnd`). I4 compares with the date of the beginning and sees neither.
- `internal/closing/expirer.go:29-33` says that an id is not republished for 30 seconds. An XADD whose answer was
  lost stays out of the map, and the next pass publishes the id again a second later
  (`Sweep.ALostAnswerIsPublishedAgain`). A pass keeps the spacing if and only if it sends nothing that was
  published within the window unheard of (`Publishing.SpacedIffNothingUnheardIsRepeated`); where no answer of
  Redis is lost a process keeps it whatever else fails (`Sweep.Expirer.Run`).
- `internal/idem/idem.go:129-148` stores whatever was captured when the status is 201, also after a panic. A handler
  that sets 201 and panics before its first byte answers 500, and the retry under the same key is told 201 with an
  empty body (`Middleware.APanicAfterTheHeaderIsReplayedAsCreated`). A retry repeats the first answer if and only
  if that is not what happened (`Middleware.Middleware.ServeTwice`).

## How the model reads the system

- Amounts are int64 with Go's wrap-around written out; versions and seqs are unbounded naturals. Auction, bid
  and user ids are naturals. A key is a natural, 0 standing for the empty header.
- A statement is one atomic step. A pessimistic transaction takes its steps one by one and holds its row lock
  and, once inserted, its unique entry; other writers wait for both. Its uncommitted writes are its own until
  the commit. `now()` of the optimistic UPDATE is the statement's start and may be earlier than its effect;
  `now()` of a transaction is its begin; `clock_timestamp()` of the locked read is any instant from that begin to
  the grant of the lock, which covers a reading from before the wait.
- SQL's overflow of `highest_bid_cents + min_increment_cents` is taken as a guard that no amount meets, after
  the other conditions.
- A lost connection at a commit is three steps: aborted, committed but reported as an error, or still in flight
  and landing at any later time or never. A crash leaves its open batch in flight.
- A shard's readings of its corrected clock are free in the step machine; runs in which they lag the database's
  clock by at most d are those of `Finality.Prompt`. The offset of the two clocks is taken as constant, and a
  hydration's round trip as at most 2d, which its timeout of 5 s makes 2.5 s (`ShardEngine.WORST_LAG`).
- Row ids drawn by a process are inputs; a repeated one is refused by the primary key. Routing by hash is any
  function from auctions to the eight shards.
- Redis is atomic commands and one atomic script; a finish is three separate commands. Entries may expire at
  any time and be flushed. What XAUTOCLAIM returns is any at most 64 pending entries, in any order. Trimming
  drops the oldest entries from backlog and pending list.
- A request has a number of its own, and its engine call answers 201 only with the row that the acknowledging
  step told it of; requests without a key do not meet Redis and are steps of the engines.
- A context is how many more times it will be found alive, and a client's deadline how many of its checks find it in
  time; the linger is a free choice.
- What the server sends a client is any sequence of responses; after that, silence.

## Model

| member | source | states |
|---|---|---|
| `Contract.WrapAdd` | internal/bid/engine.go:61-63 | the sum Go computes differs from the exact sum by a multiple of 2^64 |
| `Contract.MinNextBidIsTheRuleIffItFits` | internal/bid/engine.go:61-63 | a positive amount that passes the Go guard obeys the increment rule if and only if top + increment fits in an int64; past that bound every positive amount passes; and what obeys the rule always passes |
| `Contract.OneCentBeatsTheLargestBid` | internal/httpapi/bids.go:39-42 | the failing family is inhabited: over a top of 2^63-1 one cent passes the only check the handler makes |
| `Tables.ClashAborts` | migrations/000001_init.up.sql:16-29 | a statement whose rows repeat an id, an (auction, seq) or a non-null key of a committed row cannot commit |
| `Tables.Write` | internal/bid/pessimistic/sql.go:42-55 | the single-row write is one possible outcome of the batch statement whenever the constraints allow it |
| `Tables.WriteIsTheOnlyOutcome` | internal/bid/pessimistic/sql.go:42-55 | and it is the only one: a single-row write commits if and only if the constraints take the row and that state is left |
| `Ledger.StrictPrefixAborts` | internal/bid/shard/sql.go:22-30 | whoever decided from a strict prefix of a history computed a seq that is taken: the whole statement aborts |
| `Ledger.CommitExtends` | internal/bid/shard/sql.go:31-45 | a commit appends exactly the batch's bids to each history, they start right after its last bid, the history stays valid, and a touched auctions row lands on one of the batch's own bids |
| `Ledger.CommitKeepsSound` | internal/bid/shard/sql.go:31-45 | so a committed batch keeps every auction of the database replayable |
| `Ledger.AnyOfItsBidsMayBeTaken` | internal/bid/shard/sql.go:39-45 | the versions a commit may leave in an auction it touches are exactly the seqs of the batch's own bids of it |
| `Ledger.RowIsItsHistoryIffOneBid` | internal/bid/shard/shard.go:204-217 | a commit is sure to leave an auction's row on its whole history if and only if the batch holds one bid of it |
| `Ledger.PendingSurvives` | internal/bid/shard/shard.go:228-254 | what was decided over a durable prefix is still so after anybody else's commit |
| `Ledger.DecidedOverRow` | internal/bid/pessimistic/pessimistic.go:95-101 | a bid decided over an auctions row follows a durable prefix, though the row may lag behind its history |
| `World.InsertionKeepsInv` | internal/bid/shard/shard.go:228-254 | the commit of any pending rows keeps the invariant of every shard, late batch and transaction at once |
| `World.TrackedIsPending` | internal/bid/shard/shard.go:168-189 | an open batch decided in memory was decided over some durable prefix of each auction it touches |
| `Safety.DecideKeeps` | internal/bid/shard/shard.go:156-189 | an in-memory accept, also a second one of the same auction in one batch, keeps memory at durable prefix plus open batch |
| `Safety.FailedCommitKeeps` | internal/bid/shard/shard.go:232-241 | eviction after a commit reported as failed keeps the invariant whether the batch aborted or is still in flight |
| `Safety.CommitMisreportedKeeps` | internal/bid/shard/shard.go:232-241 | and also when the batch had committed and only its answer was lost |
| `Safety.CommitAckedKeeps` | internal/bid/shard/shard.go:243-253 | an acknowledged batch is durable and leaves memory equal to a durable prefix |
| `Safety.LandKeeps` | internal/bid/shard/shard.go:225-241 | a batch reported as failed that commits later, under any state reached meanwhile, keeps the invariant |
| `Safety.OptimisticKeeps` | internal/bid/optimistic/sql.go:28-46 | the guarded statement keeps the invariant from any reachable state, also over a row that lags its history |
| `Safety.CommitTxKeeps` | internal/bid/pessimistic/pessimistic.go:95-106 | the commit of a pessimistic transaction keeps it, although its UPDATE has no guard |
| `Safety.CloseKeeps` | internal/closing/materializer.go:67-70 | a closing changes status and closed_at of one row and nothing else that anybody relies on |
| `Safety.StepKeeps` | internal/bid/shard/shard.go:97-254 | every step of every participant keeps the invariant, loses no bid, revokes no 201 and moves no version back |
| `Guarantees.RunIsLater` | internal/bid/shard/shard.go:97-254 | so does every run, with steps of all engines, closers, crashes and late commits in any order |
| `Guarantees.EveryRunIsReplayable` | internal/bid/enginetest/conformance.go:210-263 | after every run the bids of each auction are numbered 1..n in insertion order, each passed the minimum the one before left (the starting bid for the first), and the auctions row is the state after a prefix of them |
| `Guarantees.IncrementRuleHoldsIffItFits` | cmd/checker/invariants.go:67-79 | between two bids of a reachable history the increment rule holds if and only if the sum it asks for fits in an int64 |
| `Guarantees.AcceptedMeansDurable` | internal/bid/engine.go:35-38 | every 201 of a run names a row that is in bids and stays there in every continuation |
| `Guarantees.OneRowPerKey` | migrations/000001_init.up.sql:28-29 | under all engines together bids holds at most one row per non-empty key, whatever happened in Redis |
| `Guarantees.OneRowPerIdAndPerSeq` | migrations/000001_init.up.sql:16-26 | so do a bid id and an auction's seq: what a 201 carries names one row |
| `Guarantees.OneAnswerPerKey` | internal/idem/store.go:61-68 | any two acceptances of one key are the same row |
| `Guarantees.StepOnAuction` | internal/bid/shard/sql.go:31-45 | a step either lands nothing of an auction or lands all its rows of it on the end of the whole history, and moves the row into the new part |
| `Guarantees.SingleBidAgrees` | internal/bid/optimistic/sql.go:28-46 | after every step that inserts one bid of an auction, so after every optimistic and pessimistic accept, the row is its whole history |
| `Guarantees.AgreesIffTheLastBidWasTaken` | internal/bid/shard/sql.go:31-45 | after any step the row agrees with its history if and only if it did before and nothing of it was inserted, or the UPDATE took the last of what was |
| `Guarantees.ACommitIsSureToAgreeIffOneBid` | internal/bid/shard/shard.go:204-217 | in every reachable state: every outcome of a batch that can commit leaves the row agreeing if and only if it holds one bid of that auction |
| `Guarantees.PublishedStateIsTheHistory` | cmd/checker/invariants.go:87-107 | in every run where no batch holds two bids of one auction, version is the count and top and winner are those of the last bid |
| `Guarantees.PublishedStateIsTheHistoryIff` | cmd/checker/invariants.go:87-107 | after any run whatsoever the row is the recorded history, count, top and winner, if and only if the last statement that inserted bids of the auction took the last of them |
| `Stuck.TwoBidsInOneBatchCanWedgeAnAuction` | internal/bid/shard/shard.go:204-217 | a concrete run: two accepts of one auction in one batch, both answered 201, the row left on the first; after a restart the auction is open, before its end, and no continuation ever adds a bid |
| `Stuck.BehindForever` | internal/bid/shard/sql.go:22-30 | an auction whose row is behind its history, with no memory ahead of the row, gets no further bid in any continuation from any engine |
| `Stuck.NothingLands` | internal/bid/shard/sql.go:22-30 | in such a state every statement touching the auction aborts whole |
| `Stuck.NextBidLandsIffRowAgrees` | internal/bid/shard/shard_test.go:206-262 | a sufficient bid with a fresh id and a free key, or no key at all, decided over the row commits if and only if the row equals its history |
| `Stuck.MemoryNeverAhead` | internal/bid/shard/shard.go:232-241 | a cached auction without open bids is never ahead of the durable history, in every run |
| `Stuck.RecoversIffRowAgrees` | internal/bid/shard/shard_test.go:206-262 | after an eviction the next sufficient bid is hydrated, decided and committed if and only if the row agrees with its history, and then as bid n + 1 |
| `Times.DecisionIsTimelyIffNoStraddle` | internal/bid/shard/shard.go:157-186 | a shard decision leaves every bid dated no later than its auction's end if and only if its two clock readings do not fall on both sides of that end |
| `Times.ALateReadingIsRefused` | internal/bid/pessimistic/sql.go:3-13 | a locked read that tells an instant at or past the end never leads to a write, in any continuation and however early the transaction began |
| `Times.AnEarlyReadingStillWrites` | internal/bid/pessimistic/sql.go:3-13 | a lock granted at any later instant with a reading from before leads to a write if and only if the row is open, that reading is before its end and the amount suffices; the bid is dated at the begin |
| `Times.AnOptimisticBidCanLandPastTheEnd` | internal/bid/optimistic/sql.go:28-46 | an optimistic statement that waits for the row does not lose its right with time: it lands at any later instant, past the end too, dated at its start before it |
| `Times.RunIsTimely` | internal/bid/shard/shard.go:157-186 | over whole runs, with every engine, all bids written, decided or in flight are dated no later than their auction's end but those of straddling decisions |
| `Times.OnlyStraddlersAreAfterTheEnd` | cmd/checker/invariants.go:110-126 | a bid of any run is dated no later than its auction's end, and so than its closing, if and only if it is not the bid of a straddling decision |
| `Times.ClosedOnceAndNeverEarly` | internal/closing/materializer.go:53-70 | status and closed_at agree, closed_at is not before ends_at, and once written neither changes in any continuation |
| `Times.OnlyShardsMoveAClosedRow` | internal/bid/shard/sql.go:39-45 | a closed row can only still be changed by a shard's batch |
| `Times.AClosedAuctionCanStillGetAWinner` | internal/bid/shard/shard.go:157-186 | a concrete run where the batch decided before the end commits after the closing: the closed row gets its winner late, and with a straddling stamp the bid is dated after the end |
| `Finality.TakesAnotherBidIff` | internal/bid/shard/shard.go:195-254 | for shard clocks of any error: some continuation adds a bid to an auction if and only if its open row is its history, or a shard's memory is at the end of the history and still open or with a batch that fits, or a batch in flight fits |
| `Finality.UnableForever` | internal/bid/shard/sql.go:22-30 | where none of these holds, none ever will: no continuation moves the bids or the version |
| `Finality.BehindCannotAdd` | internal/bid/shard/sql.go:22-30 | an auction that is behind is such a one |
| `Finality.TheWinnerIsFinalIff` | internal/closing/materializer.go:67-70 | for shard clocks of any error: a closed auction keeps its row and its bids in every continuation if and only if nothing can add to it |
| `Finality.QuiescentIsFinal` | internal/closing/materializer.go:67-70 | row closed, every shard that remembers it has it closed with no open bids of it, none in flight: this persists over every run, late batches and re-hydrations included, and the winner is final |
| `Deadline.TakesAnotherBidWithinIff` | internal/bid/shard/state.go:24-30 | for shard clocks that lag by at most d: some continuation adds a bid if and only if a batch decided already still fits, or the auction is not over for longer than d and something can add, or its open row is its history and an optimistic statement begun before the end fits, or an open transaction begun before the end fits |
| `Deadline.NoDecisionLongAfterTheEnd` | internal/bid/shard/state.go:24-30 | once an auction has been over for longer than d no continuation with such clocks contains a shard's decision for it, whatever the shards remember |
| `Deadline.TheWinnerIsFinalIffNothingLands` | internal/closing/materializer.go:67-70 | closed and over for d: row and bids stay the same in every continuation with such clocks if and only if no open batch and no batch in flight with bids of it still fits the tables; shard memory does not matter |
| `Deadline.AnOpenMemoryDoesNotMatter` | internal/bid/shard/shard.go:156-161 | a reachable run, no decision in it, after which the winner is final for clocks within the skew's bound and not for arbitrary ones |
| `Locks.TheLockIsTheGuard` | internal/bid/pessimistic/pessimistic.go:65-106 | at most one transaction holds an auction's row, its locked read equals the row until its own write, and its unguarded write follows that read |
| `Locks.SeqNeverCollidesWithoutShards` | internal/bid/pessimistic/sql.go:42-55 | without shards UNIQUE (auction_id, seq) never fires: the INSERT can only be refused for its amount, its id or its key |
| `Locks.WaitingGoesDown` | internal/bid/pessimistic/pessimistic.go:65-106 | every wait, for a row lock or for a pending unique entry, goes from a higher to a lower rank |
| `Locks.NoCycleOfWaiting` | internal/bid/pessimistic/pessimistic.go:65-106 | the wait-for graph of pessimistic transactions and closings is acyclic and its chains have at most four parties |
| `Locks.SomebodyCanStep` | internal/bid/pessimistic/pessimistic.go:65-106 | if any transaction exists, one that nobody blocks exists |
| `Locks.UnblockedCanGoOn` | internal/bid/pessimistic/pessimistic.go:75-106 | what an unblocked transaction can do, state by state, with the exact condition for its write and its INSERT |
| `ShardEngine.SkewErrorIsHalfTheRoundTrip` | internal/bid/shard/state.go:45-59 | the measured skew differs from the true offset by at most half the round trip rounded up, with Go's truncating division |
| `ShardEngine.ClosingAgreesAwayFromTheEnd` | internal/bid/shard/state.go:24-59 | a decision on any map whose skews are within d keeps them so, accepts or refuses for the amount only before the end plus d, answers Closed only for a closed status or from the end minus d, and but for d around the end finds the auction over exactly when the database's clock does |
| `ShardEngine.OneByOneIsSteady` | internal/bid/shard/state.go:45-59 | through any number of decisions, however long after a hydration, the skews stay within that bound |
| `ShardEngine.TheDecision` | internal/bid/shard/shard.go:133-190 | what a decision is, written out over the remembered or hydrated row: an error exactly when the hydration failed, NotFound exactly when it ran and found nothing, neither remembered; else Closed, TooLow or accepted on the corrected clock of the guard, and the accepted bid is the next seq, stamped with the corrected clock of the stamp |
| `ShardEngine.Pool.CommitBatch` | internal/bid/shard/sql.go:31-45 | on whatever tables it finds the statement commits whole or leaves them alone: it takes effect exactly when it does not fail and the constraints take it, and reports success exactly when it is also heard of |
| `ShardEngine.Pool.UpdateFrom` | internal/bid/shard/sql.go:39-45 | of several rows matching one auction an unspecified one is taken |
| `ShardBooks.EnteredBooks` | internal/bid/shard/shard.go:133-190 | taking one command keeps the account: commands taken = answers sent + open batch, nothing answered twice, acceptances on record, memory coherent, equal to one at a time when calm |
| `ShardBooks.AckedBooks` | internal/bid/shard/shard.go:243-253 | an acknowledged batch keeps the account |
| `ShardBooks.FailedBooks` | internal/bid/shard/shard.go:232-241 | a batch reported as failed keeps it, whether or not it had committed |
| `ShardBooks.FoundBooks` | internal/bid/shard/shard_test.go:206-262 | so does anything the rest of the system does between two statements, a second writer and a late landing of an earlier batch included |
| `ShardBooks.ConsistentBefore` | internal/bid/shard/shard.go:97-127 | if the whole inbox can be committed one at a time, so can every prefix of it |
| `ShardCauses.EnteredCauses` | internal/bid/shard/shard.go:137-166 | an error at a decision names the command's own failed hydration, a NotFound its own hydration that ran and found no such auction, which then was not in the first tables either; every other answer is about an auction that is there, and a TooLow carries an open state whose minimum the amount misses |
| `ShardCauses.AnsweredCauses` | internal/bid/shard/shard.go:228-254 | every 201 names the write of a batch that carried its command, ran and was within the constraints; every error one that did not run or was refused over the tables it found |
| `ShardLoop.Shard.Decide` | internal/bid/shard/shard.go:133-190 | the statement-by-statement decision: an error if and only if the auction is not in the map and its hydration did not run; NotFound if and only if it ran and the tables it found have no such auction; otherwise the function's map, answer and pending bid, and a remembered auction costs no statement |
| `ShardLoop.Shard.Commit` | internal/bid/shard/shard.go:195-254 | all commands of the batch get 201 exactly when the write ran and the constraints took it over the tables it found; otherwise all get an error and every touched auction is forgotten; the batch is in the tables exactly when the statement did not fail and was taken |
| `ShardLoop.Shard.Accumulate` | internal/bid/shard/shard.go:107-123 | the batch has 1 to 256 bids at every commit and the loop ends on a finite inbox, wherever it is cut |
| `ShardLoop.Shard.Run` | internal/bid/shard/shard.go:97-127 | whatever the database does and whoever else writes between its statements: every command is answered exactly once and with a cause among the statements of the run, whose fates are those of the script; every 201 names its row and carries the state that row left; memory stays coherent; against the database's clock no 201 or TooLow was decided later than the end plus d, no Closed was answered before the end minus d, and every row is stamped within d; without faults it does what one at a time does |
| `Slicing.DriveKeeps` | internal/bid/shard/engine.go:62-80 | any interleaving of takes and commits of the eight shards keeps each shard in step with its inbox alone |
| `Slicing.SlicingIsInvisible` | internal/bid/shard/engine.go:89-125 | with no failed commit, any slicing of the inboxes and any interleaving of the shards gives each command the answer, and each auction the bids, of its shard's commands taken one at a time |
| `Refinement.ADecisionIsAtMostTwoSteps` | internal/bid/shard/shard.go:133-190 | the loop's decision moves the step machine by a hydration, a decision, both or neither, to the same state; and with skews within d its reading lags the machine's clock by at most d |
| `Refinement.ACommitIsAStep` | internal/bid/shard/shard.go:195-254 | each outcome of the loop's commit is one of the step machine's commit steps, with the same tables, memory and acknowledgements |
| `Refinement.AClosingIsAStep` | internal/closing/materializer.go:67-70 | the closer's UPDATE matches exactly when the step machine can close, and leaves the same rows |
| `Refinement.ARunMayBeFound` | internal/bid/shard/shard_test.go:206-262 | what all the participants may do in any run is among what the loops are proved to withstand between two of their statements |
| `Refinement.AFailedBatchMayLandLater` | internal/bid/shard/shard.go:225-241 | and so is the landing of a batch whose failure was reported, over whatever the tables have become |
| `Calls.Optimistic.Place` | internal/bid/optimistic/sql.go:28-46 | the guarded statement on the tables it finds: it writes exactly where it matches the row, the constraints take the bid and it does not fail; it returns the row exactly where it is also heard of; no row comes back exactly where it ran, matched none and its sum did not overflow |
| `Calls.Optimistic.PlaceBid` | internal/bid/optimistic/optimistic.go:46-121 | with others writing between its statements and answers lost: accepted exactly where the statement ran, matched and was taken; an error exactly where a statement did not run, the sum overflowed or a constraint refused; otherwise it has written nothing, the answer is the one that the row of the second read demands, and TooLow and Conflict are why the UPDATE matched nothing; alone it does what the one call says |
| `Engines.ClassifyNamesTheReason` | internal/bid/optimistic/optimistic.go:94-121 | over the row read: NotFound if and only if it is absent; Closed if and only if its status is closed or the reading is at or past its end; Conflict if and only if it is not over and its version differs or the amount reaches the minimum; TooLow if and only if it is not over, the version is the client's and the amount is short; each carries the state read |
| `Calls.Pessimistic.PlaceBid` | internal/bid/pessimistic/pessimistic.go:65-120 | begin, locked read, write, commit, others writing before the lock: over the row the lock found, which is still there at the commit, NotFound, Closed and TooLow are answered exactly as it demands; accepted exactly where the four statements ran, the row is open, the amount is enough and the constraints take the bid; an error exactly where a statement it came to did not run or a constraint refused; alone it does what the one call says |
| `Engines.OptimisticIsPessimistic` | internal/bid/optimistic/optimistic.go:46-77 | with the current version both engines leave the same tables and give the same answer, unless the auction is open, its minimum overflows and the constraints would take the bid, and then never |
| `Engines.ShardIsPessimistic` | internal/bid/shard/shard.go:156-189 | a shard whose cache mirrors the rows does what the pessimistic engine does, and its cache mirrors them afterwards |
| `Engines.ThreeEnginesAgree` | internal/bid/enginetest/conformance.go:117-132 | on every sequential trace with current versions, equal clock readings and amounts within the int64 bound the three engines give the same answers and leave the same tables |
| `Optimism.ExactlyOneWins` | internal/bid/optimistic/sql.go:28-46 | of any number of attempts on one snapshot, each good enough alone and with its own instants, their statements interleaved in any order: the first UPDATE wins with the next seq, every other matches no row, and every reason read is a conflict with the new state |
| `Optimism.OneOptimisticWinnerPerVersion` | internal/bid/optimistic/sql.go:28-46 | in any run of the whole system a version of an auction is taken by one optimistic statement at most |
| `Optimism.TheReasonIsReal` | internal/bid/optimistic/optimistic.go:94-121 | for a version that was published, TooLow is answered only when the amount was the reason the UPDATE failed, Conflict only when the version differs, so the default arm is never taken |
| `Optimism.TheDefaultArmNeedsAnUnpublishedVersion` | internal/bid/optimistic/optimistic.go:109-121 | whenever the default arm is reached the version was not published yet when the UPDATE ran, and the conflict carries that very version |
| `Optimism.RunsGrow` | internal/bid/optimistic/sql.go:48-62 | versions, ends and increments between the two statements move only as TheReasonIsReal assumes, in every run |
| `Optimism.ReAimingIsAcceptedIffRowAgrees` | internal/bid/enginetest/conformance.go:117-132 | re-aiming at the state a rejection of any engine carries, before the end, nothing in between, with a fresh id and a free key, gets one answer from all three engines: an acceptance with the next seq if and only if the row is its history |
| `Optimism.OptimisticCallIsOneStep` | internal/bid/optimistic/optimistic.go:46-77 | an accepted optimistic call is one step of the machine, which leaves the same tables and puts the answered row on record |
| `Optimism.PessimisticCallIsFiveSteps` | internal/bid/pessimistic/pessimistic.go:65-106 | beside any open transactions that hold neither its row nor an entry it repeats, an accepted pessimistic call is begin, lock, update, insert, commit of the machine, to the same tables, with the same acknowledgement and the others untouched |
| `Idempotency.Store.Claim` | internal/idem/store.go:61-111 | the Lua script on one hash: replay, busy or a numbered pass that marks the key |
| `Idempotency.Store.Finish` | internal/idem/store.go:123-139 | after an accepted finish the key replays the stored body; after a rejected one the next claim passes with the next number |
| `Idempotency.StepKeepsInv` | internal/idem/store.go:61-139 | every command of every request, the three finish commands apart, keeps one owner per marked key while no entry expires in flight |
| `Idempotency.OneRequestPerKeyInsideTheEngine` | internal/idem/idem.go:82-151 | in every such run at most one request per key is past its claim, its attempt number counts the passages granted, no claim passes once a 201 is stored, and a replay is the first 201's body |
| `Idempotency.PromptRequestsAreAlone` | internal/idem/store.go:18-28 | the hypothesis follows from time: if every request is in flight for less than the in-flight expiry, two requests of one key never are at once |
| `Idempotency.ADeadRequestBlocksItsKeyFor30Seconds` | internal/idem/store.go:18-28 | after any run in which no entry expired under a live request: the mark of a request that dies before its finish keeps every claim of the key busy until exactly thirty seconds after it was let through; from then on, and not before, Redis may drop the entry, and the next claim is attempt 1 |
| `Idempotency.TheFirst201ReplaysUntilItsExpiry` | internal/idem/store.go:123-139 | from the last finish command every claim of the key, in any interleaving, replays the first 201 while the entry is there; Redis may drop it from five minutes later on and not before |
| `Idempotency.ExpiryInFlightLetsASecondIn` | internal/idem/store.go:25-28 | the hypothesis is needed: wherever an entry expires under a live request the next claim of the key goes in beside it |
| `Idempotency.ALateRejectionClearsAnothersMark` | internal/idem/store.go:132-134 | a concrete run where the first request's rejection clears the mark of the second and a third enters beside it under the same entry |
| `Middleware.Capture.Next` | internal/idem/idem.go:157-174 | what is captured of a response is exactly what was sent if its status is 201, and nothing otherwise, also when a handler panics midway |
| `Middleware.Middleware.Serve` | internal/idem/idem.go:64-153 | which requests reach the engine; what each kind of request is answered; that the finish runs for every passage, panics included, and leaves the key replaying the sent bytes after a 201 and open for the next attempt after anything else |
| `Middleware.Middleware.ServeTwice` | internal/idem/idem.go:96-148 | a retry of a request whose handlers set 201 gets the bytes they wrote and does not reach the engine, whatever other requests and expiries come between, until the entry's own expiry, which is the in-flight one if the finish was cut; it repeats the first answer if and only if the handlers did not panic before their first byte |
| `Middleware.APanicAfterTheHeaderIsReplayedAsCreated` | internal/idem/idem.go:129-148 | a concrete input: 201 set, then a panic: the client is told 500 and its retry 201 |
| `Checker.I1IsDensity` | cmd/checker/invariants.go:43-59 | given distinct seqs, count = max and min = 1 hold if and only if the seqs are exactly 1..n |
| `Checker.ConfirmedSeqIsPresent` | cmd/checker/client.go:149-156 | so with I1 every seq within the watermark is present |
| `Checker.ChecksAreTheReplay` | cmd/checker/invariants.go:41-108 | I1, I2 and I3 together hold if and only if the ordered rows are 1..n, climb by the increment, and the auctions row is what replaying them leaves; the first bid's floor is not checked |
| `Checker.Replay` | internal/bid/enginetest/conformance.go:210-263 | the conformance suite's loop accepts exactly the dense, climbing histories above the starting bid that match the row and the count |
| `Checker.TheChecksAfterAnyRun` | cmd/checker/invariants.go:41-170 | after every run I1 and I8 pass; I2 passes if and only if every minimum asked for fits an int64; then I3 if and only if the row is not behind; and I4 if and only if no bid of a straddling decision landed |
| `Checker.I7IsOneKeyPerRow` | cmd/checker/invariants.go:127-140 | on any table the three counts agree if and only if every row has a key and no two share one |
| `Checker.KeyedRunsPassI7` | cmd/checker/invariants.go:127-140 | after every run I7 passes if and only if every bid came with a key |
| `Checker.I3SeesTheWedgedAuction` | cmd/checker/invariants.go:81-108 | the run that leaves a row behind its history fails I3 |
| `Checker.I4SeesTheStraggler` | cmd/checker/invariants.go:109-126 | the run whose decision straddles the end fails I4 |
| `EndToEnd.StepKeeps` | internal/idem/idem.go:96-148 | engines, Redis and wire together, with nothing assumed of Redis: every open bid and transaction is that of the request behind it, what a request is told is its own acknowledged row, and every body stored, about to be stored or replayed has left as an engine's answer for that key |
| `EndToEnd.EveryAnswerIsItsRequests` | internal/idem/idem.go:96-148 | an engine's 201 names a row in bids with its own request's auction, user, amount and key; a replayed one carries what an engine had answered to a request of the same key, whose bid it is |
| `EndToEnd.OneRowPerAnsweredKey` | internal/idem/store.go:61-68 | all the 201s of one key, an engine's or replayed, name the same row |
| `EndToEnd.AcknowledgedCanBeAnswered` | internal/bid/shard/shard.go:243-253 | whichever engine acknowledges, the request behind the row is told of a row of that very step, and if its handler still waits the 201 with it goes out |
| `EndToEnd.ARetryIsReplayed` | internal/idem/idem.go:82-151 | a concrete run the whole way: claim, decision, acknowledged batch, 201, store, and a retry replayed the same body |
| `EndToEnd.AReplayRepeatsAnAnswer` | internal/idem/idem.go:96-106 | in every run a claim that replays sends one body that an engine had already answered for that key, and reaches no engine |
| `EndToEnd.KeysFitInRows` | cmd/checker/client.go:131-134 | keys that each have a row are no more than the rows |
| `EndToEnd.TheVerdictIsByDirection` | cmd/checker/client.go:127-182 | a database behind the client fails I5 whatever the excuse; one ahead fails it without a cut and warns under one |
| `EndToEnd.TheDatabaseIsNeverBehind` | cmd/checker/client.go:127-158 | whatever is killed, flushed or lost, accepted <= rows and the watermark is not behind: I5 never fails under a cut, and without one it fails exactly when the database is ahead |
| `Client.EveryResponseIsCountedOnce` | bench/bid-storm.js:208-251 | 201s, 409s, 422s, 425s, 410s, 400s and the rest, silences among them, add up to the responses |
| `Client.ReducedBySemantics` | bench/bid-storm.js:204-207 | the first 201 wins; without one the bid may be tried again exactly when every status is 409, 422, 425 or 0, and otherwise ends |
| `Client.LatestIsTheNewest` | bench/bid-storm.js:141-146 | what is known of an auction is as new as before and as every state that a 409, a 422 or a 410 carried, and is what was known or the last received of its version |
| `Client.Bidder.ReduceResponses` | bench/bid-storm.js:208-251 | the loop returns that decision and that view, and moves each counter by the number of responses with its status; silences count as retried unless something won |
| `Client.Bidder.Attempt` | bench/bid-storm.js:281-311 | what is learnt from the responses is known from then on, also after a terminal status; the counters move by them and, after an acceptance in replay mode, by the duplicate, which is an error unless it replays the very same body |
| `Client.Bidder.LogicalBid` | bench/bid-storm.js:265-315 | over whatever the server sends: it goes on exactly while every response is a 409, 422, 425 or silence and the deadline allows, ten times at most; exhausted moves exactly when that is how it ends, accepted exactly when its last attempt brought a 201; every request carries the one key and the amount and version of the newest state heard before it; and how many duplicates each mode injects |
| `Client.OneMoreAccepted` | bench/bid-storm.js:300-308 | bids_accepted stays the number of distinct keys with a received 201, and the watermark the largest seq among those |
| `Client.CountedIsWhatTheCheckAssumes` | cmd/checker/client.go:127-158 | the counters the client publishes are the ones the durability comparison is proved for |
| `Closing.AMissedDueRowAppearedOrCrossedItsEnd` | internal/closing/materializer.go:143-147 | the UPDATE matches no row and the read finds it open and expired if and only if the row appeared, or the clock crossed its end, between the two statements |
| `Closing.AMissedDueRowInAnyRun` | internal/closing/materializer.go:143-147 | the same causes over any steps of all participants between the two statements |
| `Closing.Connection.CloseDue` | internal/closing/materializer.go:67-70 | the guarded UPDATE under faults: which row it closes, when, and that what was closed does not move |
| `Closing.DueStaysRipe` | internal/closing/materializer.go:33-37 | an id that was due once is at any later moment closed, gone or still past its end |
| `Closing.AnAttemptComesToAResultIff` | internal/closing/materializer.go:107-148 | an attempt comes to a result exactly when its UPDATE runs and closes the row, or runs and misses it, the read runs, and the row has not come due in between; then nothing is left to close; and for an id that was due when published it never comes due in between |
| `Closing.Materializer.Close` | internal/closing/materializer.go:107-148 | a result is the truth about the row when it is returned and leaves nothing to do; an error is a failed statement or a row that came due in between, exactly; for an id published while due neither that error nor Early can happen; counters and lag move with the result |
| `Delivery.AcknowledgeKeeps` | internal/stream/consumer.go:158-195 | an acknowledgement moves an entry from pending to one fate, with nothing left to do or with the entry in the dead letter stream |
| `Delivery.DeliverKeeps` | internal/stream/consumer.go:99-119 | a read puts each new entry in exactly one place |
| `Delivery.LoseKeeps` | internal/stream/stream.go:32-39 | trimming and flushing put pending entries, and only those, among the lost |
| `Delivery.TwoUnacknowledgedIffTwoWaiting` | internal/stream/consumer.go:34-48 | from an empty pending list one read leaves two entries unacknowledged if and only if two were waiting |
| `Delivery.Stream.XAck` | internal/stream/consumer.go:158-164 | only the entry named changes fate, only with evidence for it, and it is off the pending list exactly when the command took effect, heard or not |
| `Delivery.Stream.XAutoClaim` | internal/stream/consumer.go:76-91 | it returns the pending ones among the entries that have been idle, in their order and at most 64, and fails exactly when the command does or there is no group; they stay pending |
| `Delivery.Stream.XReadGroup` | internal/stream/consumer.go:99-119 | the first 64 of what the backlog then holds become pending at once, unless the command fails or there is no group; they come back exactly when it is also heard of |
| `Worker.Consumer.Bury` | internal/stream/consumer.go:174-198 | a malformed entry is acknowledged only after it is in the dead letter stream, and counted exactly when both commands ran |
| `Worker.Consumer.Handle` | internal/stream/consumer.go:142-165 | an entry is acknowledged by its own handling or not at all, and only when the closing attempt returned a result |
| `Worker.Consumer.Process` | internal/stream/consumer.go:130-140 | in order, stopping between entries once told to end, and at nothing else: after it both servers are where handling that many of the entries one by one leaves them |
| `Worker.EachIsTried` | internal/stream/consumer.go:130-165 | of entries in hand, whatever became of those before it: each whose own commands and statements do their work is off the pending list from then on, and its auction is not due if it was when published |
| `Worker.OnlyOwnRunServes` | internal/stream/consumer.go:142-165 | an entry that the weather spares leaves the pending list exactly by its own handling and exactly when that did its work: the burial heard of or the closing with a result, and the XACK in effect |
| `Worker.Consumer.Turn` | internal/stream/consumer.go:76-120 | recovery first: a claim that runs and finds something idle takes exactly that in hand and handles it; otherwise what the read heard of is; a command that fails or goes unheard takes nothing in hand |
| `Worker.EveryIdleEntryIsInHand` | internal/stream/consumer.go:70-96 | at any turn of any run, an entry that has been idle when the claim runs, among the first 64, is taken in hand by that turn |
| `Worker.EveryNewEntryIsInHand` | internal/stream/consumer.go:99-119 | and where nothing has been idle and the read runs, each of the first 64 that it finds in the backlog |
| `Worker.Consumer.Run` | internal/stream/consumer.go:73-122 | after every command of every run each delivered entry is in exactly one of pending, handled, buried, lost, fates are final, closed rows do not move; over any script the turns take in hand what they should, try all of it unless the context ends, and each entry tried whose own commands and statements did their work is off the pending list for good, its auction never due again if it was when published; without faults the backlog is tried in order and, given time, all of it |
| `Worker.WhereAServedEntryIs` | internal/stream/consumer.go:142-198 | a delivered entry off the pending list was handled with nothing due behind it, or buried and in the dead letter stream, unless it was trimmed or flushed |
| `Sweep.Expirer.Query` | internal/closing/expirer.go:43-46 | the 500 oldest due auctions, or all of them |
| `Sweep.Expirer.Scan` | internal/closing/expirer.go:110-160 | a pass fails exactly when the group or the query does, and then changes nothing; otherwise what it sent is each listed id not suppressed, under its own fault, the map keeps those heard of and nothing older than the window, and what took effect is in the stream; when nothing fails every listed id has been published within the window |
| `Sweep.Expirer.Run` | internal/closing/expirer.go:87-102 | one pass at each tick, whatever the others met, each failing exactly with its group or its query; as long as no answer of Redis is lost no id is published twice within the window whatever else fails; and where one is, a publication of it took effect unheard of and was made again; when nothing fails the listed ids have been published within the window |
| `Sweep.EveryListedAuctionIsSentIff` | internal/closing/expirer.go:125-160 | in a pass that did not fail each listed auction is published, heard of or not, exactly when it was not heard of within the window and its own XADD took effect, whatever became of the others |
| `Sweep.ALostAnswerIsPublishedAgain` | internal/closing/expirer.go:149-158 | a concrete input: one lost answer, and a second later the stream holds the id twice |
| `Publishing.SuppressedIffHeardOf` | internal/closing/expirer.go:139-152 | the map suppresses exactly the ids whose publication was heard of within the window |
| `Publishing.SpacedIffNothingUnheardIsRepeated` | internal/closing/expirer.go:149-158 | a pass keeps the spacing if and only if it sends no id that was published within the window unheard of |
| `Publishing.PruneKeepsTheWindow` | internal/closing/expirer.go:139-145 | pruning by age forgets no publication heard of within the window |
| `Sweep.ARoundClosesTheOldest` | internal/closing/expirer.go:43-46 | trying a full listing closes min(500, n) of the n due, and of those already over at any earlier instant as many as there are up to 500 |
| `Sweep.FaultFreeRound` | internal/closing/expirer.go:110-160 | one pass and one drain of the real loops, nothing failing, closes min(500, n) of n, of those already over at any earlier instant as many as there are up to 500, and leaves nothing due suppressed |
| `Sweep.NoAuctionStarves` | internal/closing/expirer.go:43-46 | of n auctions over at an instant none is open after ceil(n / 500) fault-free rounds of the real loops, however many more expire, are created or are closed by others between the rounds |

## Left out

- HTTP routing, header checks, JSON rendering and reading, health probes, configuration, pools, boot and shutdown wiring; of the handlers only `amount > 0` is used.
- Metrics, buckets and logs have no effect on state; of them only the closer's lag and its four counters and the load generator's counters are modelled.
- Postgres below the statement: snapshots, row versions, isolation, plan choice. A committed statement is atomic.
- Deadlocks between multi-row shard batches and transactions: a batch waits for all its rows and unique entries at once.
- TRUNCATE between benchmark cells exists for the closer only, where it gives the Gone outcome.
- The inbox capacity of 1024 and the race of the enqueue against a cancelled caller: an inbox is the finite sequence of commands that got in.
- Two live consumers on one group, and entries claimed from one by the other.
- Versions past 2^63, floating-point rates, latencies, fairness and throughput.
- The validity rules of a benchmark cell (I6), the matrix, plots, scripts and scenarios.
- FNV hashing and UUID generation are abstract.
- Locks.NoCycleOfWaiting: covers pessimistic transactions and closings; shard batches are atomic steps there.
- Slicing.SlicingIsInvisible: assumes no failed commit and no other writer, as failures are answered with errors that one-at-a-time processing need not give.
- Optimism.PessimisticCallIsFiveSteps: states the accepting call; rejecting calls change nothing.
- Engines.ThreeEnginesAgree: for attempts with equal clock readings and amounts within the int64 bound; the first hypothesis is needed because each engine asks a different clock, the second is exact by Engines.OptimisticIsPessimistic.
- Sweep.FaultFreeRound: the context must outlast the drain, four looks per listed entry.
- Worker.Consumer.Run: which entries have been idle is given at each claim; the cursor and the idle time are not computed.
