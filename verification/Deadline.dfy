/** The same questions for shards whose corrected clocks are off by a bounded lag, as the
    measured skew makes them: once an auction is over for longer than that no shard decides
    for it again, whatever its memory holds, and what can still add to it is what was
    begun before its end. */
module Deadline {
  import opened Contract
  import opened Tables
  import opened Ledger
  import opened World
  import opened Safety
  import opened Guarantees
  import opened Stuck
  import opened Finality
  import E = Engines
  import S = ShardEngine

  /** A batch decided already, open or in flight, that the constraints would take. */
  ghost predicate LandingCanAdd(w: World, a: Uuid) {
    || (exists s :: s in w.shards && RowsCanAdd(w.db, w.shards[s].batch, a))
    || (exists i :: 0 <= i < |w.late| && RowsCanAdd(w.db, w.late[i], a))
  }

  /** An optimistic statement can add, now() being its start, as long as nobody has closed
      the auction and the sum of SQL fits. */
  predicate StatementCanAdd(db: Db, a: Uuid) {
    RowCanAdd(db, a) && !E.Overflows(db.auctions[a])
  }

  /** So can an open transaction, by where it stands: one that still waits must have begun
      before the end, one that holds the row has its reading, and then the constraints
      decide. */
  predicate TxCanAdd(db: Db, tx: Tx, a: Uuid) {
    && a in db.auctions
    && match tx
       case Waiting(req, id, begunAt) =>
         && req.auction == a
         && WouldWrite(db.auctions[a].State(), req, begunAt)
         && Consistent(db.auctions, db.bids + [DecidedRow(db.auctions[a].State(), req, id, begunAt)])
       case Holding(req, id, begunAt, st, readAt) =>
         && req.auction == a
         && WouldWrite(st, req, readAt)
         && Consistent(db.auctions, db.bids + [DecidedRow(db.auctions[a].State(), req, id, begunAt)])
       case Inserting(row) => row.auction == a && Consistent(db.auctions, db.bids + [row])
       case Written(row) => row.auction == a && Consistent(db.auctions, db.bids + [row])
  }

  predicate WouldWrite(st: AuctionState, req: Request, readAt: Time) {
    !st.IsClosed(readAt) && req.amount >= st.MinNextBid()
  }

  /** With shard clocks that lag by d at most. */
  ghost predicate CanAddWithin(w: World, a: Uuid, d: nat) {
    || LandingCanAdd(w, a)
    || (NotLongOver(w, a, d) && CanAdd(w, a))
    || StatementCanAdd(w.db, a)
    || (exists t :: t in w.txs && TxCanAdd(w.db, w.txs[t], a))
  }

  /* ---- where nothing can add, no prompt run adds ---- */

  lemma WhatInsertsCanAddWithin(w: World, step: Step, a: Uuid, d: nat)
    requires Inv(w) && Enabled(w, step) && History(Inserted(w, step), a) != []
    ensures CanAddWithin(w, a, d)
  {
    hide ShardInv, Sound, Pending, Consistent, CanAdd, RowCanAdd, Free, UpdatedFrom, OptimisticGuard;
    match step
    case CommitAcked(s, _) => assert RowsCanAdd(w.db, w.shards[s].batch, a);
    case CommitMisreported(s, _) => assert RowsCanAdd(w.db, w.shards[s].batch, a);
    case Land(i, _) => assert RowsCanAdd(w.db, w.late[i], a);
    case Optimistic(req, _, _, _, _) =>
      HistoryOfOne(Inserted(w, step)[0], a);
      StatementCouldAdd(w, step);
    case CommitTx(t, _) =>
      assert TxInv(w.db, w.txs[t]);
      HistoryOfOne(w.txs[t].row, a);
      assert TxCanAdd(w.db, w.txs[t], a);
  }

  lemma StatementCouldAdd(w: World, step: Step)
    requires Inv(w) && Enabled(w, step) && step.Optimistic?
    ensures StatementCanAdd(w.db, step.req.auction)
  {
    hide ShardInv, Sound, Pending, Consistent, Free, TxsInv;
    OptimisticFollows(w, step);
    FollowerCanAdd(w.open, w.db, Inserted(w, step)[0]);
  }

  /** A step's batches that fit and touch a came from one before it, or from a decision
      taken while the auction was not long over. */
  lemma BatchCouldAdd(w: World, step: Step, a: Uuid, d: nat, s: nat)
    requires Inv(w) && Enabled(w, step) && PromptStep(w, step, d) && w.db.bids <= Apply(w, step).db.bids
    requires s in Apply(w, step).shards && RowsCanAdd(Apply(w, step).db, Apply(w, step).shards[s].batch, a)
    ensures CanAddWithin(w, a, d)
  {
    hide Apply, Enabled, Sound, ShardInv, Pending, TxsInv, CanAdd, Free, Commits, OptimisticGuard, Consistent, TxCanAdd,
         RowCanAdd, History, WithDecided;
    var w' := Apply(w, step);
    ShardMoves(w, step, s);
    if s in w.shards && w'.shards[s] == w.shards[s] {
      BatchEarlier(w, s, w'.db, a);
    } else if step.Decide? {
      DecisionCouldAdd(w, step, a, d);
    } else if step.Hydrate? {
      BatchEarlier(w, s, w'.db, a);
    } else {
      NoRowsCanAdd(w'.db, a);
    }
  }

  lemma NoRowsCanAdd(db: Db, a: Uuid)
    ensures !RowsCanAdd(db, [], a)
  {
  }

  lemma BatchEarlier(w: World, s: nat, db': Db, a: Uuid)
    requires Inv(w) && s in w.shards && w.db.bids <= db'.bids && RowsCanAdd(db', w.shards[s].batch, a)
    ensures LandingCanAdd(w, a)
  {
    hide Consistent, History, TxsInv;
    assert ShardInv(w.open, w.db, w.shards[s]);
    TrackedIsPending(w.open, w.db, w.shards[s]);
    ConsistentEarlier(w.open, w.db, db', w.shards[s].batch);
    assert RowsCanAdd(w.db, w.shards[s].batch, a);
  }

  lemma DecidedBatchCouldAdd(open: map<Uuid, Auction>, db: Db, sh: Shard, b: Bid, a: Uuid)
    requires Sound(open, db) && ShardInv(open, db, sh) && |sh.batch| < BATCH_MAX
    requires b.auction in sh.cache && sh.cache[b.auction].status == StatusOpen
    requires b.seqNo == sh.cache[b.auction].version + 1 && b.amount >= sh.cache[b.auction].MinNextBid()
    requires RowsCanAdd(db, sh.batch + [b], a)
    ensures RowsCanAdd(db, sh.batch, a) || (b.auction == a && ShardCanAdd(db, sh, a))
  {
    hide Consistent, Sound, ShardInv, ShardCanAdd;
    HistoryConcat(sh.batch, [b], a);
    HistoryOfOne(b, a);
    if History(sh.batch, a) != [] {
      assert db.bids + (sh.batch + [b]) == (db.bids + sh.batch) + [b];
      ConsistentPrefix(db.auctions, db.bids + sh.batch, [b]);
    } else {
      DecidedShard(open, db, sh, b);
      ConsistentBatchCanAdd(open, db, WithDecided(sh, b), a);
      DecidedCouldAdd(db, sh, b, a);
    }
  }

  /** The shard's memory knows the end, so a prompt decision is not long after it. */
  lemma DecisionCouldAdd(w: World, step: Step, a: Uuid, d: nat)
    requires Inv(w) && Enabled(w, step) && step.Decide? && PromptStep(w, step, d)
    requires RowsCanAdd(w.db, Apply(w, step).shards[step.s].batch, a)
    ensures CanAddWithin(w, a, d)
  {
    hide Sound, ShardInv, RowsCanAdd, ShardCanAdd, TxsInv, Pending, StatementCanAdd, TxCanAdd;
    var sh := w.shards[step.s];
    var b := DecidedRow(sh.cache[step.req.auction], step.req, step.id, step.stampAt);
    DecidedBatchCouldAdd(w.open, w.db, sh, b, a);
    CachedEnd(w, step.s, step.req.auction);
  }

  lemma LateCouldAdd(w: World, step: Step, a: Uuid, i: nat)
    requires Inv(w) && Enabled(w, step) && w.db.bids <= Apply(w, step).db.bids
    requires i < |Apply(w, step).late| && RowsCanAdd(Apply(w, step).db, Apply(w, step).late[i], a)
    ensures LandingCanAdd(w, a)
  {
    hide Sound, ShardInv, Pending, TxsInv, Free, Commits, OptimisticGuard, Consistent, History;
    var w' := Apply(w, step);
    if i < |w.late| && w'.late[i] == w.late[i] {
      ConsistentEarlier(w.open, w.db, w'.db, w.late[i]);
      assert RowsCanAdd(w.db, w.late[i], a);
    } else if step.CommitInFlight? || step.Crash? {
      assert RowsCanAdd(w.db, w.shards[step.s].batch, a);
    } else {
      assert w'.late[i] == w.late[i + 1];
      ConsistentEarlier(w.open, w.db, w'.db, w.late[i + 1]);
      assert RowsCanAdd(w.db, w.late[i + 1], a);
    }
  }

  /** Rows that moved neither version nor status back are read alike. */
  predicate SameReading(db: Db, db': Db, a: Uuid) {
    && a in db.auctions && a in db'.auctions
    && db'.auctions[a].version == db.auctions[a].version
    && db'.auctions[a].highestBid == db.auctions[a].highestBid
    && db'.auctions[a].increment == db.auctions[a].increment
    && db'.auctions[a].endsAt == db.auctions[a].endsAt
    && (db.auctions[a].status == StatusClosed ==> db'.auctions[a].status == StatusClosed)
    && db.bids <= db'.bids && History(db'.bids, a) == History(db.bids, a)
  }

  lemma UnmovedReadsAlike(w: World, w': World, a: Uuid)
    requires Inv(w) && Kept(w, w') && a in w.db.auctions && a in w'.db.auctions
    requires History(w'.db.bids, a) == History(w.db.bids, a)
    requires w'.db.auctions[a].version == w.db.auctions[a].version
    ensures SameReading(w.db, w'.db, a)
  {
    hide ShardInv, SoundAt, Pending, Consistent, TxsInv;
    assert a in w.open;
    assert GrowsAt(w.open, w.db, w'.db, a);
  }

  lemma FitsEarlier(auctions: map<Uuid, Auction>, db: Db, db': Db, b: Bid)
    requires Consistent(auctions, db'.bids + [b]) && db.bids <= db'.bids
    requires Consistent(db.auctions, db.bids) && b.auction in db.auctions
    ensures Consistent(db.auctions, db.bids + [b])
  {
    var more := db'.bids[|db.bids|..];
    assert db'.bids == db.bids + more;
    ConsistentWithout(auctions, db.bids, more, [b]);
    var all := db.bids + [b];
    forall i | 0 <= i < |all| ensures Admissible(db.auctions, all[i]) {
      assert i < |db.bids| ==> Admissible(db.auctions, db.bids[i]);
      assert i == |db.bids| ==> Admissible(auctions, all[i]);
    }
  }

  /** A transaction that did not move could add before if it can after. */
  lemma TxCouldAdd(db: Db, db': Db, tx: Tx, a: Uuid)
    requires Consistent(db.auctions, db.bids) && SameReading(db, db', a) && TxCanAdd(db', tx, a)
    ensures TxCanAdd(db, tx, a)
  {
    hide Consistent, History;
    match tx
    case Waiting(req, id, begunAt) =>
      FitsEarlier(db'.auctions, db, db', DecidedRow(db'.auctions[a].State(), req, id, begunAt));
    case Holding(req, id, begunAt, st, readAt) =>
      FitsEarlier(db'.auctions, db, db', DecidedRow(db'.auctions[a].State(), req, id, begunAt));
    case Inserting(row) => FitsEarlier(db'.auctions, db, db', row);
    case Written(row) => FitsEarlier(db'.auctions, db, db', row);
  }

  /** What locking, updating and inserting make of a transaction. */
  predicate NextPhase(db: Db, tx: Tx, tx': Tx) {
    match tx
    case Waiting(req, id, begunAt) =>
      && req.auction in db.auctions && tx'.Holding? && begunAt <= tx'.readAt
      && tx' == Holding(req, id, begunAt, db.auctions[req.auction].State(), tx'.readAt)
    case Holding(req, id, begunAt, st, readAt) =>
      && req.auction in db.auctions && WouldWrite(st, req, readAt)
      && tx' == Inserting(DecidedRow(db.auctions[req.auction].State(), req, id, begunAt))
    case Inserting(row) => tx' == Written(row)
    case Written(_) => false
  }

  lemma NextPhaseCouldAdd(db: Db, tx: Tx, tx': Tx, a: Uuid)
    requires NextPhase(db, tx, tx') && TxCanAdd(db, tx', a)
    ensures TxCanAdd(db, tx, a)
  {
    hide Consistent;
  }

  lemma TxMovesByPhase(w: World, step: Step, t: nat)
    requires Enabled(w, step) && t in Apply(w, step).txs
    ensures var w' := Apply(w, step);
            || (t in w.txs && w'.txs[t] == w.txs[t])
            || (step.Begin? && step.t == t && w'.db == w.db && w'.txs[t] == Waiting(step.req, step.id, w.clock))
            || (t in w.txs && !step.Begin? && w'.db == w.db && NextPhase(w.db, w.txs[t], w'.txs[t]))
  {
    hide Consistent, Commits, Free, OptimisticGuard, Clash, Unlocked, Opening, Evicted, Write;
  }

  /** One that has just begun reads the clock no earlier than now. */
  lemma BegunCouldAdd(w: World, req: Request, id: Uuid, a: Uuid, d: nat)
    requires Inv(w) && TxCanAdd(w.db, Waiting(req, id, w.clock), a)
    ensures NotLongOver(w, a, d) && CanAdd(w, a)
  {
    hide Consistent, ShardInv, Sound, Pending, History, TxsInv, RowCanAdd;
    FollowerCanAdd(w.open, w.db, DecidedRow(w.db.auctions[a].State(), req, id, w.clock));
  }

  lemma TxStaysUnable(w: World, step: Step, a: Uuid, d: nat, t: nat)
    requires Inv(w) && Enabled(w, step) && SameReading(w.db, Apply(w, step).db, a)
    requires t in Apply(w, step).txs && TxCanAdd(Apply(w, step).db, Apply(w, step).txs[t], a)
    ensures CanAddWithin(w, a, d)
  {
    hide Enabled, Apply, ShardInv, SoundAt, Pending, TxsInv, Consistent, TxCanAdd, LandingCanAdd, CanAdd,
         StatementCanAdd, NotLongOver, History, SameReading, NextPhase;
    var w' := Apply(w, step);
    TxMovesByPhase(w, step, t);
    if t in w.txs && w'.txs[t] == w.txs[t] {
      TxCouldAdd(w.db, w'.db, w.txs[t], a);
    } else if step.Begin? && step.t == t {
      KnownBySame(w.db, w'.db, a);
      BegunCouldAdd(w, step.req, step.id, a, d);
    } else {
      NextPhaseCouldAdd(w.db, w.txs[t], w'.txs[t], a);
    }
  }

  lemma KnownBySame(db: Db, db': Db, a: Uuid)
    requires SameReading(db, db', a)
    ensures a in db.auctions
  {
  }

  lemma UnableStaysWithin(w: World, step: Step, a: Uuid, d: nat)
    requires Inv(w) && Enabled(w, step) && PromptStep(w, step, d) && a in w.db.auctions && !CanAddWithin(w, a, d)
    ensures a in Apply(w, step).db.auctions && !CanAddWithin(Apply(w, step), a, d)
    ensures SameReading(w.db, Apply(w, step).db, a)
  {
    hide Inv, Inserted, Enabled, Apply, CanAddWithin, PromptStep, SameReading;
    var w' := Apply(w, step);
    if History(Inserted(w, step), a) != [] {
      WhatInsertsCanAddWithin(w, step, a, d);
    }
    StepOnAuction(w, step, a);
    assert History(w.db.bids, a) + [] == History(w.db.bids, a);
    StepKeeps(w, step);
    Extends(w, w');
    UnmovedReadsAlike(w, w', a);
    if CanAddWithin(w', a, d) {
      CouldAddWithin(w, step, a, d);
    }
  }

  lemma CouldAddWithin(w: World, step: Step, a: Uuid, d: nat)
    requires Inv(w) && Enabled(w, step) && PromptStep(w, step, d) && a in w.db.auctions
    requires Kept(w, Apply(w, step)) && SameReading(w.db, Apply(w, step).db, a)
    requires CanAddWithin(Apply(w, step), a, d)
    ensures CanAddWithin(w, a, d)
  {
    hide Inv, Enabled, Apply, RowsCanAdd, TxCanAdd, CanAdd, PromptStep, Consistent, History;
    var w' := Apply(w, step);
    if s :| s in w'.shards && RowsCanAdd(w'.db, w'.shards[s].batch, a) {
      BatchCouldAdd(w, step, a, d, s);
    } else if i :| 0 <= i < |w'.late| && RowsCanAdd(w'.db, w'.late[i], a) {
      LateCouldAdd(w, step, a, i);
    } else if t :| t in w'.txs && TxCanAdd(w'.db, w'.txs[t], a) {
      TxStaysUnable(w, step, a, d, t);
    } else if NotLongOver(w', a, d) && CanAdd(w', a) {
      ClockAndEnd(w, step, a, d);
      if !CanAdd(w, a) {
        UnableStays(w, step, a);
      }
    }
  }

  lemma ClockAndEnd(w: World, step: Step, a: Uuid, d: nat)
    requires Enabled(w, step) && SameReading(w.db, Apply(w, step).db, a) && NotLongOver(Apply(w, step), a, d)
    ensures NotLongOver(w, a, d)
  {
    hide Free, Commits, Consistent, OptimisticGuard, History;
    assert w.clock <= Apply(w, step).clock;
  }

  lemma {:induction false} UnableForeverWithin(w: World, run: seq<Step>, a: Uuid, d: nat)
    requires Inv(w) && Possible(w, run) && Prompt(w, run, d) && a in w.db.auctions && !CanAddWithin(w, a, d)
    ensures a in Exec(w, run).db.auctions && !CanAddWithin(Exec(w, run), a, d)
    ensures Exec(w, run).db.auctions[a].version == w.db.auctions[a].version
    ensures History(Exec(w, run).db.bids, a) == History(w.db.bids, a)
    decreases |run|
  {
    hide Inv, CanAddWithin, PromptStep;
    if run != [] {
      StepKeeps(w, run[0]);
      KeptInv(w, Apply(w, run[0]));
      UnableStaysWithin(w, run[0], a, d);
      UnableForeverWithin(Apply(w, run[0]), run[1..], a, d);
    }
  }

  /** Once an auction has been over for longer than that, no shard decides for it again,
      though its memory may have it open for ever. */
  lemma {:induction false} NoDecisionLongAfterTheEnd(w: World, run: seq<Step>, a: Uuid, d: nat)
    requires Inv(w) && Possible(w, run) && Prompt(w, run, d)
    requires a in w.db.auctions && !NotLongOver(w, a, d)
    ensures forall i :: 0 <= i < |run| && run[i].Decide? ==> run[i].req.auction != a
    decreases |run|
  {
    hide Inv, Enabled, Apply, PromptStep, NotLongOver;
    if run != [] {
      LongOverStays(w, run[0], a, d);
      StepKeeps(w, run[0]);
      KeptInv(w, Apply(w, run[0]));
      NoDecisionLongAfterTheEnd(Apply(w, run[0]), run[1..], a, d);
    }
  }

  lemma LongOverStays(w: World, step: Step, a: Uuid, d: nat)
    requires Inv(w) && Enabled(w, step) && PromptStep(w, step, d) && a in w.db.auctions && !NotLongOver(w, a, d)
    ensures step.Decide? ==> step.req.auction != a
    ensures a in Apply(w, step).db.auctions && !NotLongOver(Apply(w, step), a, d)
  {
    hide Inv, Free, Commits, Consistent, OptimisticGuard, Kept;
    if step.Decide? {
      CachedEnd(w, step.s, step.req.auction);
    }
    StepKeeps(w, step);
    SameEnd(w, Apply(w, step), a);
    assert w.clock <= Apply(w, step).clock;
  }

  lemma SameEnd(w: World, w': World, a: Uuid)
    requires Inv(w) && Kept(w, w') && a in w.db.auctions
    ensures a in w'.db.auctions && w'.db.auctions[a].endsAt == w.db.auctions[a].endsAt
  {
    hide ShardInv, SoundAt, Pending, Consistent, TxsInv;
    assert a in w.open;
    assert GrowsAt(w.open, w.db, w'.db, a);
  }

  /* ---- where something can add, a prompt run adds it ---- */

  lemma {:induction false} RollBackOthers(w: World, t: nat, d: nat) returns (run: seq<Step>)
    requires t in w.txs
    ensures Possible(w, run) && Exec(w, run) == w.(txs := map[t := w.txs[t]]) && Prompt(w, run, d)
    decreases |w.txs|
  {
    if u :| u in w.txs && u != t {
      var w' := Apply(w, Rollback(u));
      assert w'.txs.Keys == w.txs.Keys - {u};
      assert |w'.txs| == |w'.txs.Keys| && |w.txs| == |w.txs.Keys|;
      var rest := RollBackOthers(w', t, d);
      OneMore(w, Rollback(u), rest);
      run := [Rollback(u)] + rest;
      assert run[1..] == rest;
    } else {
      run := [];
      assert w.txs == map[t := w.txs[t]];
    }
  }

  lemma WrittenAdds(w: World, t: nat, row: Bid, d: nat)
    requires w.txs == map[t := Written(row)] && row.auction in w.db.auctions
    ensures AddsWithin(w, [CommitTx(t, true)], row.auction, d)
  {
    hide Consistent;
    HistoryOfOne(row, row.auction);
    OneStepAdds(w, CommitTx(t, true), [row], row.auction, d);
  }

  lemma InsertingAdds(w: World, t: nat, row: Bid, d: nat) returns (run: seq<Step>)
    requires w.txs == map[t := Inserting(row)] && TxCanAdd(w.db, Inserting(row), row.auction)
    ensures AddsWithin(w, run, row.auction, d)
  {
    hide Consistent, AddsWithin, Clash;
    var w' := Apply(w, Insert(t));
    WrittenAdds(w', t, row, d);
    AddsNext(w, Insert(t), [CommitTx(t, true)], row.auction, d);
    run := [Insert(t)] + [CommitTx(t, true)];
  }

  lemma HoldingAdds(w: World, t: nat, a: Uuid, d: nat) returns (run: seq<Step>)
    requires t in w.txs && w.txs.Keys == {t} && w.txs[t].Holding? && TxCanAdd(w.db, w.txs[t], a)
    ensures AddsWithin(w, run, a, d)
  {
    hide Consistent, AddsWithin;
    var tx := w.txs[t];
    var row := DecidedRow(w.db.auctions[a].State(), tx.req, tx.id, tx.begunAt);
    var w' := Apply(w, Update(t));
    assert w'.txs == map[t := Inserting(row)];
    var rest := InsertingAdds(w', t, row, d);
    AddsNext(w, Update(t), rest, a, d);
    run := [Update(t)] + rest;
  }

  lemma WaitingAdds(w: World, t: nat, a: Uuid, d: nat) returns (run: seq<Step>)
    requires t in w.txs && w.txs.Keys == {t} && w.txs[t].Waiting? && TxCanAdd(w.db, w.txs[t], a)
    ensures AddsWithin(w, run, a, d)
  {
    hide Consistent, AddsWithin;
    var tx := w.txs[t];
    var tick := Tick(if w.clock < tx.begunAt then tx.begunAt - w.clock else 0);
    var w1 := Apply(w, tick);
    assert Unlocked(w1, a);
    var lock := Lock(t, tx.begunAt);
    var w2 := Apply(w1, lock);
    var rest := HoldingAdds(w2, t, a, d);
    AddsNext(w1, lock, rest, a, d);
    AddsNext(w, tick, [lock] + rest, a, d);
    run := [tick] + ([lock] + rest);
  }

  lemma TxAdds(w: World, t: nat, a: Uuid, d: nat) returns (run: seq<Step>)
    requires t in w.txs && TxCanAdd(w.db, w.txs[t], a)
    ensures AddsWithin(w, run, a, d)
  {
    hide Consistent, AddsWithin, TxCanAdd;
    var prefix := RollBackOthers(w, t, d);
    var w0 := w.(txs := map[t := w.txs[t]]);
    var rest;
    match w.txs[t] {
      case Waiting(_, _, _) => rest := WaitingAdds(w0, t, a, d);
      case Holding(_, _, _, _, _) => rest := HoldingAdds(w0, t, a, d);
      case Inserting(row) =>
        AboutItsAuction(w.db, w.txs[t], a);
        rest := InsertingAdds(w0, t, row, d);
      case Written(row) =>
        AboutItsAuction(w.db, w.txs[t], a);
        WrittenAdds(w0, t, row, d);
        rest := [CommitTx(t, true)];
    }
    AddsAfter(w, prefix, rest, a, d);
    run := prefix + rest;
  }

  lemma AboutItsAuction(db: Db, tx: Tx, a: Uuid)
    requires TxCanAdd(db, tx, a) && (tx.Inserting? || tx.Written?)
    ensures tx.row.auction == a && a in db.auctions
  {
  }

  /** An optimistic statement that began before the end, with a sum that fits. */
  lemma StatementAdds(w: World, a: Uuid, d: nat) returns (run: seq<Step>)
    requires Inv(w) && w.txs == map[] && StatementCanAdd(w.db, a)
    ensures AddsWithin(w, run, a, d)
  {
    hide ShardInv, SoundAt, Pending, Consistent, TxsInv, KeyAndIdFree, AddsWithin;
    var row := w.db.auctions[a];
    RowMinimum(w.open, w.db, a);
    var req, id := Request(a, 0, row.highestBid + row.increment, NO_KEY), Above(w.db.bids);
    var at := LastReading(w.clock, row.endsAt);
    var b := DecidedRow(row.State(), req, id, at);
    FreshOffer(w.db.bids, b);
    SeqIsFree(w.open, w.db, b);
    HistoryOfOne(b, a);
    var step := Optimistic(req, row.version, id, at, true);
    assert Enabled(w, step);
    OneStepAdds(w, step, [b], a, d);
    run := [step];
  }

  lemma RowMinimum(open: map<Uuid, Auction>, db: Db, a: Uuid)
    requires Sound(open, db) && a in db.auctions
    ensures 0 <= db.auctions[a].highestBid && 0 < db.auctions[a].increment
  {
    assert SoundAt(open, db, a);
    var h, row := History(db.bids, a), db.auctions[a];
    if row.version > 0 {
      var j := HistoryPosition(db.bids, a, row.version - 1);
      assert Admissible(db.auctions, db.bids[j]);
    }
  }

  lemma LandingCanAddDoes(w: World, a: Uuid, d: nat) returns (run: seq<Step>)
    requires w.txs == map[] && LandingCanAdd(w, a)
    ensures AddsWithin(w, run, a, d)
  {
    hide Consistent, Picking, AddsWithin, RowsCanAdd;
    if s :| s in w.shards && RowsCanAdd(w.db, w.shards[s].batch, a) {
      CommitAdds(w, s, a, d);
      run := [CommitAcked(s, Picking(w.db, w.shards[s].batch, a, 0))];
    } else {
      var i :| 0 <= i < |w.late| && RowsCanAdd(w.db, w.late[i], a);
      LandingAdds(w, i, a, d);
      run := [Land(i, Picking(w.db, w.late[i], a, 0))];
    }
  }

  lemma WhatCanAddDoesWithin(w: World, a: Uuid, d: nat) returns (run: seq<Step>)
    requires Inv(w) && CanAddWithin(w, a, d)
    ensures AddsWithin(w, run, a, d)
  {
    hide Inv, AddsWithin, RowsCanAdd, TxCanAdd, CanAdd, StatementCanAdd, NotLongOver;
    if t :| t in w.txs && TxCanAdd(w.db, w.txs[t], a) {
      run := TxAdds(w, t, a, d);
    } else if NotLongOver(w, a, d) && CanAdd(w, a) {
      run := WhatCanAddDoes(w, a, d);
    } else {
      var prefix := RollBackAll(w, d);
      QuietInv(w);
      var rest;
      if LandingCanAdd(w, a) {
        rest := LandingCanAddDoes(w.(txs := map[]), a, d);
      } else {
        rest := StatementAdds(w.(txs := map[]), a, d);
      }
      AddsAfter(w, prefix, rest, a, d);
      run := prefix + rest;
    }
  }

  /** With shard clocks that lag by d at most, an auction can take another bid exactly when
      a batch decided already still fits, or it is not over for longer than d and
      something can add, or an optimistic statement begun before its end can, or an open
      transaction begun before its end can. */
  lemma TakesAnotherBidWithinIff(w: World, a: Uuid, d: nat)
    requires Inv(w) && a in w.db.auctions
    ensures (exists run :: AddsWithin(w, run, a, d)) <==> CanAddWithin(w, a, d)
  {
    hide Inv, CanAddWithin, AddsWithin;
    if CanAddWithin(w, a, d) {
      var run := WhatCanAddDoesWithin(w, a, d);
    } else {
      forall run ensures !AddsWithin(w, run, a, d) {
        if AddsWithin(w, run, a, d) {
          AddsWithinMeans(w, run, a, d);
          UnableForeverWithin(w, run, a, d);
        }
      }
    }
  }

  lemma AddsWithinMeans(w: World, run: seq<Step>, a: Uuid, d: nat)
    requires AddsWithin(w, run, a, d)
    ensures Possible(w, run) && Prompt(w, run, d) && |History(Exec(w, run).db.bids, a)| > |History(w.db.bids, a)|
  {
  }

  /* ---- the winner ---- */

  ghost predicate FinalWithin(w: World, a: Uuid, d: nat)
    requires a in w.db.auctions
  {
    forall run :: Possible(w, run) && Prompt(w, run, d) ==>
      && a in Exec(w, run).db.auctions && Exec(w, run).db.auctions[a] == w.db.auctions[a]
      && History(Exec(w, run).db.bids, a) == History(w.db.bids, a)
  }

  lemma NoTxOfAClosedRow(db: Db, tx: Tx, a: Uuid)
    requires TxInv(db, tx) && a in db.auctions && db.auctions[a].status == StatusClosed
    ensures !TxCanAdd(db, tx, a)
  {
    hide Consistent;
  }

  lemma ClosedCanAddWithin(w: World, a: Uuid, d: nat)
    requires Inv(w) && a in w.db.auctions && w.db.auctions[a].status == StatusClosed && !NotLongOver(w, a, d)
    ensures CanAddWithin(w, a, d) <==> LandingCanAdd(w, a)
  {
    hide ShardInv, Sound, Pending, Consistent, RowsCanAdd, CanAdd, TxInv, TxCanAdd, Apart;
    forall t | t in w.txs ensures !TxCanAdd(w.db, w.txs[t], a) {
      NoTxOfAClosedRow(w.db, w.txs[t], a);
    }
  }

  /** Closed, and over for longer than the clocks lag: the winner is final exactly when no
      batch that was decided before, open or in flight, still fits the tables. What the
      shards remember of the auction does not matter. */
  lemma TheWinnerIsFinalIffNothingLands(w: World, a: Uuid, d: nat)
    requires Inv(w) && a in w.db.auctions && w.db.auctions[a].status == StatusClosed
    requires w.db.auctions[a].endsAt + d <= w.clock
    ensures FinalWithin(w, a, d) <==> !LandingCanAdd(w, a)
  {
    hide Inv, CanAddWithin, AddsWithin, LandingCanAdd, Prompt;
    ClosedCanAddWithin(w, a, d);
    if LandingCanAdd(w, a) {
      var run := WhatCanAddDoesWithin(w, a, d);
      AddsWithinMeans(w, run, a, d);
    } else {
      forall run | Possible(w, run) && Prompt(w, run, d)
        ensures a in Exec(w, run).db.auctions && Exec(w, run).db.auctions[a] == w.db.auctions[a]
        ensures History(Exec(w, run).db.bids, a) == History(w.db.bids, a)
      {
        UnableForeverWithin(w, run, a, d);
        SameVersionSameRow(w, run, a);
      }
    }
  }

  /** The two readings part on the commonest auction: one that a shard remembers as open
      and that was closed in time. Clocks without bound could still add to it; clocks that
      are off by no more than a hydration can make them cannot. */
  lemma AnOpenMemoryDoesNotMatter() returns (run: seq<Step>)
    ensures Possible(EMPTY, run)
    ensures var w := Exec(EMPTY, run);
            && 0 in w.db.auctions && w.db.auctions[0].status == StatusClosed
            && CanAdd(w, 0) && !Final(w, 0) && FinalWithin(w, 0, S.WORST_LAG)
  {
    hide Possible, Exec, Inv, CanAdd, LandingCanAdd, FinalWithin, Final;
    var w3, prefix := OneHydrated();
    var w := ClosedLongAfter(w3);
    Append(EMPTY, prefix, [Tick(5000), Close(0, 0)]);
    run := prefix + [Tick(5000), Close(0, 0)];
    EmptyInv();
    RunIsLater(EMPTY, run);
    LaterInv(EMPTY, w);
    TheWinnerIsFinalIff(w, 0);
    TheWinnerIsFinalIffNothingLands(w, 0, S.WORST_LAG);
  }

  lemma ClosedLongAfter(w: World) returns (w': World)
    requires w.db == Db(map[0 := OPENED], []) && w.clock == 0 && w.late == [] && w.txs == map[]
    requires w.shards == map[0 := Shard(map[0 := OPENED.State()], [])]
    ensures var run := [Tick(5000), Close(0, 0)]; Possible(w, run) && Exec(w, run) == w'
    ensures w'.clock == 5000 && 0 in w'.db.auctions && w'.db.auctions[0].status == StatusClosed
    ensures w'.db.auctions[0].endsAt == 1000
    ensures CanAdd(w', 0) && !LandingCanAdd(w', 0)
  {
    var w1 := Apply(w, Tick(5000));
    w' := Apply(w1, Close(0, 0));
    OneMore(w1, Close(0, 0), []);
    OneMore(w, Tick(5000), [Close(0, 0)]);
    assert [Tick(5000)] + [Close(0, 0)] == [Tick(5000), Close(0, 0)];
    assert History([], 0) == [];
    assert ShardCanAdd(w'.db, w'.shards[0], 0);
  }
}
