/** Exactly when an auction can still take a bid, and so when a closed one has the
    winner it will keep. */
module Finality {
  import opened Contract
  import opened Tables
  import opened Ledger
  import opened World
  import opened Safety
  import opened Guarantees
  import opened Stuck

  /** A shard can add to a: its memory is at the end of the durable history, and it
      either may still decide or holds a batch that the constraints would take. */
  predicate ShardCanAdd(db: Db, sh: Shard, a: Uuid) {
    && a in sh.cache
    && sh.cache[a].version == |History(db.bids, a)| + |History(sh.batch, a)|
    && if History(sh.batch, a) == [] then sh.cache[a].status == StatusOpen
       else Consistent(db.auctions, db.bids + sh.batch)
  }

  /** So can a batch whose failure was reported and that is still in flight. */
  predicate RowsCanAdd(db: Db, rows: seq<Bid>, a: Uuid) {
    History(rows, a) != [] && Consistent(db.auctions, db.bids + rows)
  }

  /** And anybody who reads an open row that is its own history: also past its end, as
      long as nobody has closed it, by a clock reading taken before it. */
  predicate RowCanAdd(db: Db, a: Uuid) {
    a in db.auctions && db.auctions[a].status == StatusOpen && db.auctions[a].version == |History(db.bids, a)|
  }

  ghost predicate CanAdd(w: World, a: Uuid) {
    || RowCanAdd(w.db, a)
    || (exists s :: s in w.shards && ShardCanAdd(w.db, w.shards[s], a))
    || (exists i :: 0 <= i < |w.late| && RowsCanAdd(w.db, w.late[i], a))
  }

  /* ---- where nothing can add, nothing ever will ---- */

  lemma ConsistentWithout(auctions: map<Uuid, Auction>, bids: seq<Bid>, more: seq<Bid>, rows: seq<Bid>)
    requires Consistent(auctions, (bids + more) + rows)
    ensures Consistent(auctions, bids + rows)
  {
    var all, some := (bids + more) + rows, bids + rows;
    forall i, j | 0 <= i < j < |some| ensures !Clash(some[i], some[j]) {
      var x, y := if i < |bids| then i else i + |more|, if j < |bids| then j else j + |more|;
      assert some[i] == all[x] && some[j] == all[y];
    }
    forall i | 0 <= i < |some| ensures Admissible(auctions, some[i]) {
      assert some[i] == all[if i < |bids| then i else i + |more|];
    }
  }

  /** Rows of known auctions that the tables would take later, they would take now. */
  lemma ConsistentEarlier(open: map<Uuid, Auction>, db: Db, db': Db, rows: seq<Bid>)
    requires Sound(open, db) && Pending(open, db, rows)
    requires db.bids <= db'.bids && Consistent(db'.auctions, db'.bids + rows)
    ensures Consistent(db.auctions, db.bids + rows)
  {
    hide SoundAt, OnPrefix, Clash, NoClash;
    var more := db'.bids[|db.bids|..];
    assert db'.bids == db.bids + more;
    ConsistentWithout(db'.auctions, db.bids, more, rows);
    KnownAuctions(open, db, db', rows);
  }

  lemma KnownAuctions(open: map<Uuid, Auction>, db: Db, db': Db, rows: seq<Bid>)
    requires Sound(open, db) && Pending(open, db, rows) && Consistent(db'.auctions, db.bids + rows)
    ensures Consistent(db.auctions, db.bids + rows)
  {
    hide SoundAt, OnPrefix;
    var all := db.bids + rows;
    forall i | 0 <= i < |all| ensures Admissible(db.auctions, all[i]) {
      assert Admissible(db'.auctions, all[i]);
      if i < |db.bids| {
        assert Admissible(db.auctions, db.bids[i]);
      } else {
        assert rows[i - |db.bids|].auction in open;
      }
    }
  }

  /** A consistent batch that touches a was decided over the whole of its history. */
  lemma ConsistentBatchCanAdd(open: map<Uuid, Auction>, db: Db, sh: Shard, a: Uuid)
    requires Sound(open, db) && ShardInv(open, db, sh)
    requires History(sh.batch, a) != [] && Consistent(db.auctions, db.bids + sh.batch)
    ensures ShardCanAdd(db, sh, a)
  {
    hide Consistent, Linked, Dense, RowAt;
    var i := HistoryPosition(sh.batch, a, 0);
    assert sh.batch[i].auction in sh.cache;
    TrackedIsPending(open, db, sh);
    CommitBase(open, db, sh.batch, a);
    TracksOnPrefix(open[a], History(db.bids, a), History(sh.batch, a), sh.cache[a]);
  }

  /** A bid decided over the row is one only where the row itself can add. */
  lemma FollowerCanAdd(open: map<Uuid, Auction>, db: Db, b: Bid)
    requires Sound(open, db) && Follows(db, b) && Consistent(db.auctions, db.bids + [b])
    ensures RowCanAdd(db, b.auction)
  {
    hide Consistent, Linked, Dense;
    DecidedOverRow(open, db, b);
    HistoryOfOne(b, b.auction);
    CommitBase(open, db, [b], b.auction);
  }

  lemma WhatInsertsCanAdd(w: World, step: Step, a: Uuid)
    requires Inv(w) && Enabled(w, step) && History(Inserted(w, step), a) != []
    ensures CanAdd(w, a)
  {
    hide ShardInv, Sound, Pending, Consistent, ShardCanAdd, RowCanAdd, Free, UpdatedFrom, OptimisticGuard;
    match step
    case CommitAcked(s, _) => ConsistentBatchCanAdd(w.open, w.db, w.shards[s], a);
    case CommitMisreported(s, _) => ConsistentBatchCanAdd(w.open, w.db, w.shards[s], a);
    case Land(i, _) => assert RowsCanAdd(w.db, w.late[i], a);
    case Optimistic(_, _, _, _, _) =>
      OptimisticFollows(w, step);
      HistoryOfOne(Inserted(w, step)[0], a);
      FollowerCanAdd(w.open, w.db, Inserted(w, step)[0]);
    case CommitTx(t, _) =>
      assert TxInv(w.db, w.txs[t]);
      HistoryOfOne(w.txs[t].row, a);
      FollowerCanAdd(w.open, w.db, w.txs[t].row);
  }

  lemma RowStaysUnable(w: World, w': World, a: Uuid)
    requires Kept(w, w') && a in w.db.auctions && a in w.open && a in w'.db.auctions
    requires History(w'.db.bids, a) == History(w.db.bids, a)
    requires w'.db.auctions[a].version == w.db.auctions[a].version
    requires RowCanAdd(w'.db, a)
    ensures RowCanAdd(w.db, a)
  {
    hide Inv;
    assert GrowsAt(w.open, w.db, w'.db, a);
  }

  lemma ShardCouldAdd(open: map<Uuid, Auction>, db: Db, db': Db, sh: Shard, a: Uuid)
    requires Sound(open, db) && ShardInv(open, db, sh) && db.bids <= db'.bids
    requires History(db'.bids, a) == History(db.bids, a) && ShardCanAdd(db', sh, a)
    ensures ShardCanAdd(db, sh, a)
  {
    hide Consistent, Tracks, SoundAt;
    if History(sh.batch, a) != [] {
      TrackedIsPending(open, db, sh);
      ConsistentEarlier(open, db, db', sh.batch);
    }
  }

  /** A shard has no open bids of an auction it does not remember. */
  lemma NotCachedNotOpen(w: World, s: nat, a: Uuid)
    requires Inv(w) && s in w.shards && a !in w.shards[s].cache
    ensures History(w.shards[s].batch, a) == []
  {
    hide Sound, Pending, TxsInv, Tracks;
    assert ShardInv(w.open, w.db, w.shards[s]);
    NoRowsElsewhere(w.shards[s].batch, a);
  }

  lemma HydratedCouldAdd(w: World, s: nat, x: Uuid, a: Uuid)
    requires Inv(w) && Enabled(w, Hydrate(s, x)) && ShardCanAdd(w.db, Apply(w, Hydrate(s, x)).shards[s], a)
    ensures RowCanAdd(w.db, a) || ShardCanAdd(w.db, w.shards[s], a)
  {
    hide Consistent, Inv;
    if x == a {
      NotCachedNotOpen(w, s, a);
    }
  }

  lemma DecidedCouldAdd(db: Db, sh: Shard, b: Bid, a: Uuid)
    requires b.auction in sh.cache && b.seqNo == sh.cache[b.auction].version + 1
    requires sh.cache[b.auction].status == StatusOpen
    requires ShardCanAdd(db, WithDecided(sh, b), a)
    ensures ShardCanAdd(db, sh, a)
  {
    hide Consistent;
    HistoryConcat(sh.batch, [b], a);
    HistoryOfOne(b, a);
    if History(sh.batch, a) != [] {
      assert db.bids + (sh.batch + [b]) == (db.bids + sh.batch) + [b];
      ConsistentPrefix(db.auctions, db.bids + sh.batch, [b]);
    }
  }

  lemma EmptiedCouldAdd(open: map<Uuid, Auction>, db: Db, db': Db, sh: Shard, sh': Shard, a: Uuid)
    requires History(db'.bids, a) == History(db.bids, a) && ShardCanAdd(db', sh', a)
    requires sh'.batch == [] && a in sh.cache && sh.cache[a] == sh'.cache[a] && History(sh.batch, a) == []
    ensures ShardCanAdd(db, sh, a)
  {
  }

  /** What a step leaves of a shard that a commit has emptied: nothing new. */
  predicate Emptied(sh: Shard, sh': Shard) {
    && sh'.batch == []
    && forall a :: a in sh'.cache ==> a in sh.cache && sh'.cache[a] == sh.cache[a]
  }

  /** What a step can do to one shard. */
  lemma ShardMoves(w: World, step: Step, s: nat)
    requires Enabled(w, step) && s in Apply(w, step).shards
    ensures var sh' := Apply(w, step).shards[s];
            || (s in w.shards && sh' == w.shards[s])
            || (step.Boot? && sh' == Shard(map[], []))
            || (step.Hydrate? && step.s == s && s in w.shards && Apply(w, step).db == w.db
                && sh'.batch == w.shards[s].batch)
            || (step.Decide? && step.s == s && Apply(w, step).db == w.db
                && s in w.shards && step.req.auction in w.shards[s].cache
                && w.shards[s].cache[step.req.auction].status == StatusOpen
                && sh' == WithDecided(w.shards[s], DecidedRow(w.shards[s].cache[step.req.auction], step.req, step.id,
                                                              step.stampAt)))
            || (s in w.shards && Emptied(w.shards[s], sh')
                && (step.CommitAcked? || step.CommitMisreported? || step.CommitInFlight? || step.CommitAborted?)
                && (step.CommitAcked? ==> Inserted(w, step) == w.shards[s].batch)
                && (!step.CommitAcked? ==> sh' == Evicted(w.shards[s])))
  {
    hide Free, Commits, OptimisticGuard, Consistent, WithDecided, Write, Opening, History;
  }

  /** What a shard can add after a step that landed nothing of a, somebody could add
      before it. */
  lemma ShardStaysUnable(w: World, step: Step, a: Uuid, s: nat)
    requires Inv(w) && Enabled(w, step) && a in w.db.auctions && History(Inserted(w, step), a) == []
    requires History(Apply(w, step).db.bids, a) == History(w.db.bids, a) && w.db.bids <= Apply(w, step).db.bids
    requires s in Apply(w, step).shards && ShardCanAdd(Apply(w, step).db, Apply(w, step).shards[s], a)
    ensures CanAdd(w, a)
  {
    hide Apply, Enabled, Sound, ShardInv, Pending, TxsInv, ShardCanAdd, RowCanAdd, RowsCanAdd, Free, Commits,
         OptimisticGuard, Consistent, WithDecided;
    var w' := Apply(w, step);
    ShardMoves(w, step, s);
    if s in w.shards && w'.shards[s] == w.shards[s] {
      ShardCouldAdd(w.open, w.db, w'.db, w.shards[s], a);
    } else if step.Hydrate? {
      HydratedCouldAdd(w, s, step.a, a);
    } else if step.Decide? {
      var b := DecidedRow(w.shards[s].cache[step.req.auction], step.req, step.id, step.stampAt);
      DecidedCouldAdd(w.db, w.shards[s], b, a);
    } else if step.Boot? {
      NothingCached(w'.db, w'.shards[s], a);
    } else {
      InCache(w'.db, w'.shards[s], a);
      EmptiedCouldAdd(w.open, w.db, w'.db, w.shards[s], w'.shards[s], a);
    }
  }

  lemma InCache(db: Db, sh: Shard, a: Uuid)
    requires ShardCanAdd(db, sh, a)
    ensures a in sh.cache
  {
  }

  lemma NothingCached(db: Db, sh: Shard, a: Uuid)
    requires sh.cache == map[]
    ensures !ShardCanAdd(db, sh, a)
  {
  }

  lemma LateStaysUnable(w: World, step: Step, a: Uuid, i: nat)
    requires Inv(w) && Enabled(w, step)
    requires w.db.bids <= Apply(w, step).db.bids
    requires i < |Apply(w, step).late| && RowsCanAdd(Apply(w, step).db, Apply(w, step).late[i], a)
    ensures CanAdd(w, a)
  {
    hide Sound, ShardInv, Pending, TxsInv, ShardCanAdd, RowCanAdd, Free, Commits, OptimisticGuard, Consistent, History;
    var w' := Apply(w, step);
    if i < |w.late| && w'.late[i] == w.late[i] {
      ConsistentEarlier(w.open, w.db, w'.db, w.late[i]);
      assert RowsCanAdd(w.db, w.late[i], a);
    } else if step.CommitInFlight? || step.Crash? {
      ConsistentBatchCanAdd(w.open, w.db, w.shards[step.s], a);
    } else {
      assert w'.late[i] == w.late[i + 1];
      ConsistentEarlier(w.open, w.db, w'.db, w.late[i + 1]);
      assert RowsCanAdd(w.db, w.late[i + 1], a);
    }
  }

  lemma UnableStays(w: World, step: Step, a: Uuid)
    requires Inv(w) && Enabled(w, step) && a in w.db.auctions && !CanAdd(w, a)
    ensures a in Apply(w, step).db.auctions && !CanAdd(Apply(w, step), a)
    ensures History(Apply(w, step).db.bids, a) == History(w.db.bids, a)
    ensures Apply(w, step).db.auctions[a].version == w.db.auctions[a].version
  {
    hide Inv, Inserted, Enabled, Apply, ShardCanAdd, RowsCanAdd, RowCanAdd;
    var w' := Apply(w, step);
    if History(Inserted(w, step), a) != [] {
      WhatInsertsCanAdd(w, step, a);
    }
    StepOnAuction(w, step, a);
    assert History(w.db.bids, a) + [] == History(w.db.bids, a);
    StepKeeps(w, step);
    Extends(w, w');
    if RowCanAdd(w'.db, a) {
      assert a in w.open by { Opened(w, a); }
      RowStaysUnable(w, w', a);
    }
    forall s | s in w'.shards ensures !ShardCanAdd(w'.db, w'.shards[s], a) {
      if ShardCanAdd(w'.db, w'.shards[s], a) {
        ShardStaysUnable(w, step, a, s);
      }
    }
    forall i | 0 <= i < |w'.late| ensures !RowsCanAdd(w'.db, w'.late[i], a) {
      if RowsCanAdd(w'.db, w'.late[i], a) {
        LateStaysUnable(w, step, a, i);
      }
    }
  }

  lemma Extends(w: World, w': World)
    requires Kept(w, w')
    ensures w.db.bids <= w'.db.bids && Inv(w')
  {
  }

  lemma Opened(w: World, a: Uuid)
    requires Inv(w) && a in w.db.auctions
    ensures a in w.open
  {
  }

  lemma {:induction false} UnableForever(w: World, run: seq<Step>, a: Uuid)
    requires Inv(w) && Possible(w, run) && a in w.db.auctions && !CanAdd(w, a)
    ensures a in Exec(w, run).db.auctions && !CanAdd(Exec(w, run), a)
    ensures History(Exec(w, run).db.bids, a) == History(w.db.bids, a)
    ensures Exec(w, run).db.auctions[a].version == w.db.auctions[a].version
    decreases |run|
  {
    hide Inv, CanAdd;
    if run != [] {
      StepKeeps(w, run[0]);
      KeptInv(w, Apply(w, run[0]));
      UnableStays(w, run[0], a);
      UnableForever(Apply(w, run[0]), run[1..], a);
    }
  }

  /* ---- where something can add, a run adds it ---- */

  ghost predicate Adds(w: World, run: seq<Step>, a: Uuid) {
    Possible(w, run) && |History(Exec(w, run).db.bids, a)| > |History(w.db.bids, a)|
  }

  /** A shard's corrected clock lags the database's by at most d when it decides. */
  predicate PromptStep(w: World, step: Step, d: nat) {
    step.Decide? ==> w.clock - d <= step.guardAt
  }

  ghost predicate Prompt(w: World, run: seq<Step>, d: nat)
    requires Possible(w, run)
    decreases |run|
  {
    run == [] || (PromptStep(w, run[0], d) && Prompt(Apply(w, run[0]), run[1..], d))
  }

  ghost predicate AddsWithin(w: World, run: seq<Step>, a: Uuid, d: nat) {
    Adds(w, run, a) && Prompt(w, run, d)
  }

  lemma {:induction false} PromptAppend(w: World, run: seq<Step>, more: seq<Step>, d: nat)
    requires Possible(w, run) && Prompt(w, run, d)
    requires Possible(Exec(w, run), more) && Prompt(Exec(w, run), more, d)
    ensures Possible(w, run + more) && Prompt(w, run + more, d)
    decreases |run|
  {
    hide Enabled, Apply;
    if run == [] {
      assert run + more == more;
    } else {
      var w' := Apply(w, run[0]);
      PromptAppend(w', run[1..], more, d);
      Append(w', run[1..], more);
      assert (run + more)[1..] == run[1..] + more;
    }
  }

  lemma AddsAfter(w: World, prefix: seq<Step>, run: seq<Step>, a: Uuid, d: nat)
    requires Possible(w, prefix) && Exec(w, prefix).db.bids == w.db.bids && Prompt(w, prefix, d)
    requires AddsWithin(Exec(w, prefix), run, a, d)
    ensures AddsWithin(w, prefix + run, a, d)
  {
    Append(w, prefix, run);
    PromptAppend(w, prefix, run, d);
  }

  lemma AddsNext(w: World, step: Step, run: seq<Step>, a: Uuid, d: nat)
    requires Enabled(w, step) && Apply(w, step).db.bids == w.db.bids && PromptStep(w, step, d)
    requires AddsWithin(Apply(w, step), run, a, d)
    ensures AddsWithin(w, [step] + run, a, d)
  {
    hide Enabled, Apply, PromptStep;
    OneMore(w, step, run);
    assert ([step] + run)[1..] == run;
  }

  lemma OneStepAdds(w: World, step: Step, rows: seq<Bid>, a: Uuid, d: nat)
    requires Enabled(w, step) && Apply(w, step).db.bids == w.db.bids + rows && History(rows, a) != []
    requires !step.Decide?
    ensures AddsWithin(w, [step], a, d)
  {
    hide Enabled, Apply;
    OneMore(w, step, []);
    assert [step] + [] == [step] && [step][1..] == [];
    assert Prompt(Apply(w, step), [step][1..], d);
    HistoryConcat(w.db.bids, rows, a);
  }

  /** Every open transaction can give up. */
  lemma {:induction false} RollBackAll(w: World, d: nat) returns (run: seq<Step>)
    ensures Possible(w, run) && Exec(w, run) == w.(txs := map[]) && Prompt(w, run, d)
    decreases |w.txs|
  {
    if w.txs == map[] {
      run := [];
    } else {
      var t :| t in w.txs;
      var w' := Apply(w, Rollback(t));
      assert w'.txs.Keys == w.txs.Keys - {t};
      assert |w'.txs| == |w'.txs.Keys| && |w.txs| == |w.txs.Keys|;
      var rest := RollBackAll(w', d);
      OneMore(w, Rollback(t), rest);
      run := [Rollback(t)] + rest;
      assert run[1..] == rest;
    }
  }

  lemma QuietInv(w: World)
    requires Inv(w)
    ensures Inv(w.(txs := map[]))
  {
  }

  function Above(bids: seq<Bid>): (id: Uuid)
    ensures forall i :: 0 <= i < |bids| ==> bids[i].id < id
  {
    if bids == [] then 1
    else
      var id, last := Above(bids[..|bids| - 1]), bids[|bids| - 1];
      if last.id < id then id else last.id + 1
  }

  /** An offer that an open auction at this state takes, before its end. */
  function Offer(st: AuctionState, a: Uuid): Request {
    Request(a, 0, if st.MinNextBid() > 0 then st.MinNextBid() else 1, NO_KEY)
  }

  lemma CommitAdds(w: World, s: nat, a: Uuid, d: nat)
    requires w.txs == map[] && s in w.shards && RowsCanAdd(w.db, w.shards[s].batch, a)
    ensures AddsWithin(w, [CommitAcked(s, Picking(w.db, w.shards[s].batch, a, 0))], a, d)
  {
    hide Consistent, UpdatedFrom, Picking;
    var rows := w.shards[s].batch;
    PickingCommits(w.db, rows, a, 0);
    OneStepAdds(w, CommitAcked(s, Picking(w.db, rows, a, 0)), rows, a, d);
  }

  lemma LandingAdds(w: World, i: nat, a: Uuid, d: nat)
    requires w.txs == map[] && i < |w.late| && RowsCanAdd(w.db, w.late[i], a)
    ensures AddsWithin(w, [Land(i, Picking(w.db, w.late[i], a, 0))], a, d)
  {
    hide Consistent, UpdatedFrom, Picking;
    PickingCommits(w.db, w.late[i], a, 0);
    OneStepAdds(w, Land(i, Picking(w.db, w.late[i], a, 0)), w.late[i], a, d);
  }

  /** The reading of a clock that is right, or, past the end, just late enough. */
  function LastReading(clock: Time, endsAt: Time): Time {
    if clock < endsAt then clock else endsAt - 1
  }

  predicate NotLongOver(w: World, a: Uuid, d: nat) {
    a in w.db.auctions && w.clock < w.db.auctions[a].endsAt + d
  }

  lemma CachedEnd(w: World, s: nat, a: Uuid)
    requires Inv(w) && s in w.shards && a in w.shards[s].cache
    ensures a in w.db.auctions && w.shards[s].cache[a].endsAt == w.db.auctions[a].endsAt
  {
    hide Pending, Consistent, TxsInv, Valid;
    assert ShardInv(w.open, w.db, w.shards[s]);
    assert SoundAt(w.open, w.db, a);
  }

  /** The offer's bid has a fresh id, no key, and the next seq of the whole history. */
  lemma OfferFits(w: World, s: nat, a: Uuid, at: Time)
    requires Inv(w) && s in w.shards && w.shards[s].batch == [] && ShardCanAdd(w.db, w.shards[s], a)
    ensures var st := w.shards[s].cache[a];
            Consistent(w.db.auctions, w.db.bids + [DecidedRow(st, Offer(st, a), Above(w.db.bids), at)])
  {
    hide SoundAt, Pending, Consistent, TxsInv, KeyAndIdFree, Tracks;
    var st := w.shards[s].cache[a];
    var b := DecidedRow(st, Offer(st, a), Above(w.db.bids), at);
    CachedEnd(w, s, a);
    assert History([], a) == [];
    FreshOffer(w.db.bids, b);
    SeqIsFree(w.open, w.db, b);
  }

  lemma OfferIsDecided(w: World, s: nat, a: Uuid, at: Time) returns (step: Step, w': World)
    requires s in w.shards && w.shards[s].batch == [] && ShardCanAdd(w.db, w.shards[s], a)
    requires at < w.shards[s].cache[a].endsAt
    ensures step == Decide(s, Offer(w.shards[s].cache[a], a), Above(w.db.bids), at, at)
    ensures Enabled(w, step) && w' == Apply(w, step)
    ensures w'.db == w.db && w'.txs == w.txs && s in w'.shards
    ensures w'.shards[s].batch
            == [DecidedRow(w.shards[s].cache[a], Offer(w.shards[s].cache[a], a), Above(w.db.bids), at)]
  {
    hide Consistent;
    assert History([], a) == [];
    step := Decide(s, Offer(w.shards[s].cache[a], a), Above(w.db.bids), at, at);
    w' := Apply(w, step);
  }

  lemma OpenMemoryAdds(w: World, s: nat, a: Uuid, d: nat) returns (run: seq<Step>)
    requires Inv(w) && w.txs == map[] && s in w.shards && w.shards[s].batch == []
    requires ShardCanAdd(w.db, w.shards[s], a) && NotLongOver(w, a, d)
    ensures AddsWithin(w, run, a, d)
  {
    hide Inv, Consistent, Picking, AddsWithin, Enabled, Apply, ShardCanAdd, Above, Offer;
    InCache(w.db, w.shards[s], a);
    CachedEnd(w, s, a);
    var at := LastReading(w.clock, w.db.auctions[a].endsAt);
    OfferFits(w, s, a, at);
    var step, w' := OfferIsDecided(w, s, a, at);
    HistoryOfOne(w'.shards[s].batch[0], a);
    OfferIsOf(w.shards[s].cache[a], a);
    CommitAdds(w', s, a, d);
    var commit := CommitAcked(s, Picking(w'.db, w'.shards[s].batch, a, 0));
    AddsNext(w, step, [commit], a, d);
    run := [step] + [commit];
  }

  lemma OfferIsOf(st: AuctionState, a: Uuid)
    ensures Offer(st, a).auction == a
  {
  }

  lemma FreshOffer(bids: seq<Bid>, b: Bid)
    requires b.id == Above(bids) && b.key.None?
    ensures KeyAndIdFree(bids, b)
  {
  }

  lemma ShardAdds(w: World, s: nat, a: Uuid, d: nat) returns (run: seq<Step>)
    requires Inv(w) && w.txs == map[] && s in w.shards && ShardCanAdd(w.db, w.shards[s], a) && NotLongOver(w, a, d)
    ensures AddsWithin(w, run, a, d)
  {
    hide Inv, Consistent, Picking, AddsWithin;
    if History(w.shards[s].batch, a) != [] {
      CommitAdds(w, s, a, d);
      run := [CommitAcked(s, Picking(w.db, w.shards[s].batch, a, 0))];
    } else if w.shards[s].batch == [] {
      run := OpenMemoryAdds(w, s, a, d);
    } else {
      var step := CommitAborted(s);
      StepKeeps(w, step);
      KeptInv(w, Apply(w, step));
      var rest := OpenMemoryAdds(Apply(w, step), s, a, d);
      AddsNext(w, step, rest, a, d);
      run := [step] + rest;
    }
  }

  lemma {:induction false} AboveAll(ns: set<nat>) returns (n: nat)
    ensures forall k :: k in ns ==> k < n
  {
    if ns == {} {
      n := 0;
    } else {
      var x :| x in ns;
      var m := AboveAll(ns - {x});
      n := if m > x then m else x + 1;
      forall k | k in ns ensures k < n {
        assert k != x ==> k in ns - {x};
      }
    }
  }

  lemma FreshShardAdds(w: World, a: Uuid, d: nat) returns (run: seq<Step>)
    requires Inv(w) && w.txs == map[] && RowCanAdd(w.db, a) && NotLongOver(w, a, d)
    ensures AddsWithin(w, run, a, d)
  {
    hide Inv, Consistent, Picking, AddsWithin;
    var s := AboveAll(w.shards.Keys);
    assert s !in w.shards;
    var w1 := Apply(w, Boot(s));
    StepKeeps(w, Boot(s));
    KeptInv(w, w1);
    var w2 := Apply(w1, Hydrate(s, a));
    StepKeeps(w1, Hydrate(s, a));
    KeptInv(w1, w2);
    assert w2.shards[s].batch == [] && History([], a) == [];
    var rest := OpenMemoryAdds(w2, s, a, d);
    AddsNext(w1, Hydrate(s, a), rest, a, d);
    AddsNext(w, Boot(s), [Hydrate(s, a)] + rest, a, d);
    run := [Boot(s)] + ([Hydrate(s, a)] + rest);
  }

  lemma WhatCanAddDoes(w: World, a: Uuid, d: nat) returns (run: seq<Step>)
    requires Inv(w) && CanAdd(w, a) && NotLongOver(w, a, d)
    ensures AddsWithin(w, run, a, d)
  {
    hide Inv, Consistent, Picking, AddsWithin, RowCanAdd, ShardCanAdd, RowsCanAdd;
    var prefix := RollBackAll(w, d);
    var w0 := w.(txs := map[]);
    QuietInv(w);
    var rest;
    if RowCanAdd(w.db, a) {
      rest := FreshShardAdds(w0, a, d);
    } else if s :| s in w.shards && ShardCanAdd(w.db, w.shards[s], a) {
      rest := ShardAdds(w0, s, a, d);
    } else {
      var i :| 0 <= i < |w.late| && RowsCanAdd(w.db, w.late[i], a);
      LandingAdds(w0, i, a, d);
      rest := [Land(i, Picking(w0.db, w0.late[i], a, 0))];
    }
    AddsAfter(w, prefix, rest, a, d);
    run := prefix + rest;
  }

  /** A lag at which the reading may still be from before the end. */
  function EnoughLag(w: World, a: Uuid): (d: nat)
    requires a in w.db.auctions
    ensures NotLongOver(w, a, d)
  {
    if w.clock < w.db.auctions[a].endsAt then 0 else w.clock - w.db.auctions[a].endsAt + 1
  }

  /** For shard clocks that may lag without bound: an auction can take another bid, in
      some continuation and from some engine, exactly when its open row is its history, or
      some shard's memory is at the end of the history and may still decide or commit, or a
      batch in flight still fits. */
  lemma TakesAnotherBidIff(w: World, a: Uuid)
    requires Inv(w) && a in w.db.auctions
    ensures (exists run :: Adds(w, run, a)) <==> CanAdd(w, a)
  {
    hide Inv, CanAdd, Adds;
    if CanAdd(w, a) {
      var run := WhatCanAddDoes(w, a, EnoughLag(w, a));
    } else {
      forall run ensures !Adds(w, run, a) {
        if Adds(w, run, a) {
          AddsMeans(w, run, a);
          UnableForever(w, run, a);
        }
      }
    }
  }

  /** What Stuck.Behind describes is one way of being unable. */
  lemma BehindCannotAdd(w: World, a: Uuid)
    requires Inv(w) && Behind(w, a)
    ensures !CanAdd(w, a)
  {
    hide SoundAt, TxsInv, ShardInv, Consistent, OnPrefix;
    forall s | s in w.shards ensures !ShardCanAdd(w.db, w.shards[s], a) {
      assert a in w.shards[s].cache ==> StaleShard(w, w.shards[s], a);
    }
    forall i | 0 <= i < |w.late| ensures !RowsCanAdd(w.db, w.late[i], a) {
      assert StaleRows(w, w.late[i], a);
      if History(w.late[i], a) != [] {
        StrictPrefixAborts(w.open, w.db, w.late[i], a);
      }
    }
  }

  /* ---- the winner ---- */

  ghost predicate Final(w: World, a: Uuid)
    requires a in w.db.auctions
  {
    forall run :: Possible(w, run) ==>
      && a in Exec(w, run).db.auctions && Exec(w, run).db.auctions[a] == w.db.auctions[a]
      && History(Exec(w, run).db.bids, a) == History(w.db.bids, a)
  }

  lemma AddsMeans(w: World, run: seq<Step>, a: Uuid)
    requires Adds(w, run, a)
    ensures Possible(w, run) && |History(Exec(w, run).db.bids, a)| > |History(w.db.bids, a)|
  {
  }

  /** For shard clocks that may lag without bound: a closed auction keeps its row and its
      bids in every continuation exactly when nothing can add to it. */
  lemma TheWinnerIsFinalIff(w: World, a: Uuid)
    requires Inv(w) && a in w.db.auctions && w.db.auctions[a].status == StatusClosed
    ensures Final(w, a) <==> !CanAdd(w, a)
  {
    hide Inv, CanAdd, Adds;
    if CanAdd(w, a) {
      var run := WhatCanAddDoes(w, a, EnoughLag(w, a));
      AddsMeans(w, run, a);
    } else {
      forall run | Possible(w, run)
        ensures a in Exec(w, run).db.auctions && Exec(w, run).db.auctions[a] == w.db.auctions[a]
        ensures History(Exec(w, run).db.bids, a) == History(w.db.bids, a)
      {
        UnableForever(w, run, a);
        SameVersionSameRow(w, run, a);
      }
    }
  }

  lemma SameVersionSameRow(w: World, run: seq<Step>, a: Uuid)
    requires Inv(w) && Possible(w, run) && a in w.db.auctions && a in Exec(w, run).db.auctions
    requires w.db.auctions[a].status == StatusClosed
    requires Exec(w, run).db.auctions[a].version == w.db.auctions[a].version
    ensures Exec(w, run).db.auctions[a] == w.db.auctions[a]
  {
    hide ShardInv, SoundAt, Pending, TxsInv, Consistent;
    RunIsLater(w, run);
    assert a in w.open;
    assert GrowsAt(w.open, w.db, Exec(w, run).db, a);
  }

  /** What an operator can check: the row is closed, every shard that has the auction in
      memory has it as closed and without open bids of it, and no batch in flight has
      bids of it. */
  predicate Quiescent(w: World, a: Uuid) {
    && a in w.db.auctions && w.db.auctions[a].status == StatusClosed
    && (forall s :: s in w.shards && a in w.shards[s].cache ==>
          w.shards[s].cache[a].status == StatusClosed && History(w.shards[s].batch, a) == [])
    && (forall i :: 0 <= i < |w.late| ==> History(w.late[i], a) == [])
  }

  /** Then it stays so, and the winner is final. */
  lemma QuiescentIsFinal(w: World, a: Uuid)
    requires Inv(w) && Quiescent(w, a)
    ensures Final(w, a)
    ensures forall run :: Possible(w, run) ==> Quiescent(Exec(w, run), a)
  {
    hide Inv;
    QuiescentCannotAdd(w, a);
    TheWinnerIsFinalIff(w, a);
    forall run | Possible(w, run) ensures Quiescent(Exec(w, run), a) {
      QuiescentForever(w, run, a);
    }
  }

  lemma {:induction false} QuiescentForever(w: World, run: seq<Step>, a: Uuid)
    requires Inv(w) && Quiescent(w, a) && Possible(w, run)
    ensures Quiescent(Exec(w, run), a)
    decreases |run|
  {
    hide Inv, Quiescent;
    if run != [] {
      StepKeeps(w, run[0]);
      KeptInv(w, Apply(w, run[0]));
      QuiescentStays(w, run[0], a);
      QuiescentForever(Apply(w, run[0]), run[1..], a);
    }
  }

  lemma QuiescentCannotAdd(w: World, a: Uuid)
    requires Quiescent(w, a)
    ensures a in w.db.auctions && !CanAdd(w, a)
  {
    hide Consistent;
  }

  /** What a quiescent auction's shard looks like. */
  predicate Idle(sh: Shard, a: Uuid) {
    a in sh.cache ==> sh.cache[a].status == StatusClosed && History(sh.batch, a) == []
  }

  lemma IdleStays(w: World, step: Step, a: Uuid, s: nat)
    requires Inv(w) && Quiescent(w, a) && Enabled(w, step) && s in Apply(w, step).shards
    ensures Idle(Apply(w, step).shards[s], a)
  {
    hide Inv, Commits, Free, Consistent, OptimisticGuard, Evicted, Inserted;
    ShardMoves(w, step, s);
    if step.Decide? && step.s == s {
      var b := DecidedRow(w.shards[s].cache[step.req.auction], step.req, step.id, step.stampAt);
      HistoryConcat(w.shards[s].batch, [b], a);
      HistoryOfOne(b, a);
    } else if step.Hydrate? && step.s == s && step.a == a {
      NotCachedNotOpen(w, s, a);
    }
  }

  lemma NoLateRowsStays(w: World, step: Step, a: Uuid, i: nat)
    requires Inv(w) && Quiescent(w, a) && Enabled(w, step) && i < |Apply(w, step).late|
    ensures History(Apply(w, step).late[i], a) == []
  {
    hide Inv, Pending, Consistent, Free, Commits, OptimisticGuard, History;
    if step.CommitInFlight? || step.Crash? {
      if a !in w.shards[step.s].cache {
        NotCachedNotOpen(w, step.s, a);
      }
    }
  }

  lemma ClosedStays(w: World, w': World, a: Uuid)
    requires Inv(w) && Kept(w, w') && a in w.db.auctions && w.db.auctions[a].status == StatusClosed
    ensures a in w'.db.auctions && w'.db.auctions[a].status == StatusClosed
  {
    hide ShardInv, SoundAt, Pending, Consistent, TxsInv;
    assert a in w.open;
    assert GrowsAt(w.open, w.db, w'.db, a);
  }

  lemma QuiescentStays(w: World, step: Step, a: Uuid)
    requires Inv(w) && Quiescent(w, a) && Enabled(w, step)
    ensures Quiescent(Apply(w, step), a)
  {
    hide Inv, Enabled, Apply;
    var w' := Apply(w, step);
    StepKeeps(w, step);
    ClosedStays(w, w', a);
    forall s | s in w'.shards ensures Idle(w'.shards[s], a) {
      IdleStays(w, step, a, s);
    }
    forall i | 0 <= i < |w'.late| ensures History(w'.late[i], a) == [] {
      NoLateRowsStays(w, step, a, i);
    }
  }
}
