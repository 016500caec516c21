/** What every reachable state of the step machine satisfies: replayable
    histories, rows that lag by a prefix at most, 201s that name durable rows,
    keys used once, and versions that never go back. */
module Safety {
  import opened Contract
  import opened Tables
  import opened Ledger
  import opened World

  lemma GrowsReflexive(open: map<Uuid, Auction>, db: Db)
    ensures Grows(open, db, db)
  {
  }

  lemma NoRowsElsewhere(bids: seq<Bid>, a: Uuid)
    requires forall i :: 0 <= i < |bids| ==> bids[i].auction != a
    ensures History(bids, a) == []
  {
    if History(bids, a) != [] {
      var j := HistoryPosition(bids, a, 0);
    }
  }

  /** One step on: the invariant again, and nothing durable or promised undone. */
  ghost predicate Kept(w: World, w': World) {
    && Inv(w')
    && Grows(w.open, w.db, w'.db)
    && w.db.bids <= w'.db.bids
    && w.acks <= w'.acks
  }

  lemma KeptInv(w: World, w': World)
    requires Kept(w, w')
    ensures Inv(w')
  {
  }

  lemma CreateKeeps(w: World, a: Uuid, o: Auction)
    requires Inv(w) && Enabled(w, Create(a, o))
    ensures Kept(w, Apply(w, Create(a, o)))
  {
    hide Sound, Pending, ShardInv, TxsInv, Grows;
    var w' := Apply(w, Create(a, o));
    CreateKeepsSound(w, a, o);
    SoundKeys(w.open, w.db);
    CreateGrows(w.open, w.db, a, o);
    forall i | 0 <= i < |w'.late| ensures Pending(w'.open, w'.db, w'.late[i]) {
      CreateKeepsPending(w.open, w.db, w.late[i], a, o);
    }
    forall s | s in w'.shards ensures ShardInv(w'.open, w'.db, w'.shards[s]) {
      CreateKeepsShard(w.open, w.db, w.shards[s], a, o);
    }
    CreateKeepsTxs(w, a, o);
  }

  lemma SoundKeys(open: map<Uuid, Auction>, db: Db)
    requires Sound(open, db)
    ensures open.Keys == db.auctions.Keys
  {
  }

  lemma CreateGrows(open: map<Uuid, Auction>, db: Db, a: Uuid, o: Auction)
    requires open.Keys == db.auctions.Keys && a !in db.auctions
    ensures Grows(open, db, Db(db.auctions[a := o], db.bids))
  {
  }

  lemma CreateKeepsPending(open: map<Uuid, Auction>, db: Db, rows: seq<Bid>, a: Uuid, o: Auction)
    requires Pending(open, db, rows) && a !in open
    ensures Pending(open[a := o], Db(db.auctions[a := o], db.bids), rows)
  {
    NoRowsElsewhere(rows, a);
  }

  lemma CreateKeepsShard(open: map<Uuid, Auction>, db: Db, sh: Shard, a: Uuid, o: Auction)
    requires ShardInv(open, db, sh) && a !in open
    ensures ShardInv(open[a := o], Db(db.auctions[a := o], db.bids), sh)
  {
  }

  lemma CreateKeepsSound(w: World, a: Uuid, o: Auction)
    requires Sound(w.open, w.db) && a !in w.db.auctions && Opening(o)
    ensures Sound(w.open[a := o], Db(w.db.auctions[a := o], w.db.bids))
  {
    hide SoundAt, Consistent;
    var open', db' := w.open[a := o], Db(w.db.auctions[a := o], w.db.bids);
    SameKeysSameConsistency(w.db.auctions, db'.auctions, w.db.bids);
    NoBidsYet(w.db, a);
    forall x | x in open' ensures SoundAt(open', db', x) {
      if x != a {
        assert SoundAt(w.open, w.db, x);
        SameSoundness(w.open, w.db, open', db', x);
      } else {
        NewIsSound(open', db', a);
      }
    }
  }

  lemma NewIsSound(open: map<Uuid, Auction>, db: Db, a: Uuid)
    requires a in open && a in db.auctions && open[a] == db.auctions[a]
    requires Opening(open[a]) && History(db.bids, a) == []
    ensures SoundAt(open, db, a)
  {
  }

  lemma SameSoundness(open: map<Uuid, Auction>, db: Db, open': map<Uuid, Auction>, db': Db, a: Uuid)
    requires a in open && a in db.auctions && SoundAt(open, db, a) && a in open' && a in db'.auctions
    requires open'[a] == open[a] && db'.auctions[a] == db.auctions[a] && db'.bids == db.bids
    ensures SoundAt(open', db', a)
  {
  }

  lemma NoBidsYet(db: Db, a: Uuid)
    requires Consistent(db.auctions, db.bids) && a !in db.auctions
    ensures History(db.bids, a) == []
  {
    forall i | 0 <= i < |db.bids| ensures db.bids[i].auction != a {
      assert Admissible(db.auctions, db.bids[i]);
    }
    NoRowsElsewhere(db.bids, a);
  }

  lemma CreateKeepsTxs(w: World, a: Uuid, o: Auction)
    requires TxsInv(w.db, w.txs) && a !in w.db.auctions
    ensures TxsInv(Db(w.db.auctions[a := o], w.db.bids), w.txs)
  {
    forall t | t in w.txs ensures TxInv(Db(w.db.auctions[a := o], w.db.bids), w.txs[t]) {
      assert TxInv(w.db, w.txs[t]);
      if w.txs[t].Written? {
        SameKeysSameConsistency(w.db.auctions, w.db.auctions[a := o], w.db.bids + [w.txs[t].row]);
      }
    }
  }

  lemma HydratedShard(open: map<Uuid, Auction>, db: Db, sh: Shard, a: Uuid)
    requires Sound(open, db) && ShardInv(open, db, sh)
    requires a in db.auctions && a !in sh.cache
    ensures ShardInv(open, db, sh.(cache := sh.cache[a := db.auctions[a].State()]))
  {
    assert SoundAt(open, db, a);
    NoRowsElsewhere(sh.batch, a);
    RowTracks(open[a], History(db.bids, a), db.auctions[a]);
  }

  lemma HydrateKeeps(w: World, s: nat, a: Uuid)
    requires Inv(w) && Enabled(w, Hydrate(s, a))
    ensures Kept(w, Apply(w, Hydrate(s, a)))
  {
    hide ShardInv, Pending, SoundAt, Consistent, TxInv, Apart;
    HydratedShard(w.open, w.db, w.shards[s], a);
    WithShard(w, s, Apply(w, Hydrate(s, a)).shards[s]);
  }

  lemma RowTracks(o: Auction, h: seq<Bid>, row: Auction)
    requires Valid(o, h) && RowAt(o, h, row)
    ensures Tracks(o, h, [], row.State())
  {
    ValidPrefix(o, h, row.version);
    assert h[..row.version] + [] == h[..row.version];
  }

  lemma DecidedShard(open: map<Uuid, Auction>, db: Db, sh: Shard, b: Bid)
    requires ShardInv(open, db, sh) && |sh.batch| < BATCH_MAX
    requires b.auction in sh.cache
    requires b.seqNo == sh.cache[b.auction].version + 1 && b.amount >= sh.cache[b.auction].MinNextBid()
    ensures ShardInv(open, db, WithDecided(sh, b))
  {
    forall a | a in sh.cache
      ensures Tracks(open[a], History(db.bids, a), History(sh.batch + [b], a), WithDecided(sh, b).cache[a])
    {
      DecidedAt(open[a], History(db.bids, a), sh, b, a);
    }
  }

  lemma DecidedAt(o: Auction, h: seq<Bid>, sh: Shard, b: Bid, a: Uuid)
    requires a in sh.cache && Tracks(o, h, History(sh.batch, a), sh.cache[a])
    requires b.auction in sh.cache
    requires b.seqNo == sh.cache[b.auction].version + 1 && b.amount >= sh.cache[b.auction].MinNextBid()
    ensures Tracks(o, h, History(sh.batch + [b], a), WithDecided(sh, b).cache[a])
  {
    HistoryConcat(sh.batch, [b], a);
    HistoryOfOne(b, a);
    if a == b.auction {
      TracksNext(o, h, History(sh.batch, a), sh.cache[a], b);
    } else {
      assert History(sh.batch, a) + [] == History(sh.batch, a);
    }
  }

  lemma DecideKeeps(w: World, step: Step)
    requires Inv(w) && step.Decide? && Enabled(w, step)
    ensures Kept(w, Apply(w, step))
  {
    var sh := w.shards[step.s];
    var b := DecidedRow(sh.cache[step.req.auction], step.req, step.id, step.stampAt);
    DecidedShard(w.open, w.db, sh, b);
    WithShard(w, step.s, WithDecided(sh, b));
    GrowsReflexive(w.open, w.db);
  }

  lemma TracksNext(o: Auction, h: seq<Bid>, p: seq<Bid>, st: AuctionState, b: Bid)
    requires Tracks(o, h, p, st)
    requires b.seqNo == st.version + 1 && b.amount >= st.MinNextBid()
    ensures Tracks(o, h, p + [b], st.(version := st.version + 1, highestBid := b.amount))
  {
    var q := h[..st.version - |p|] + p;
    var q' := h[..st.version - |p|] + (p + [b]);
    assert q' == q + [b];
    ValidSnoc(o, q, b);
  }

  /** After its own commit the memory is exactly the durable state. */
  lemma CommittedTracks(o: Auction, h: seq<Bid>, p: seq<Bid>, st: AuctionState)
    requires Tracks(o, h, p, st) && st.version - |p| == |h|
    ensures Tracks(o, h + p, [], st)
  {
    assert h[..|h|] == h;
    assert (h + p)[..st.version] + [] == h + p;
  }

  lemma EvictedKeeps(open: map<Uuid, Auction>, db: Db, sh: Shard)
    requires ShardInv(open, db, sh)
    ensures ShardInv(open, db, Evicted(sh))
  {
  }

  lemma WithoutShard(w: World, s: nat)
    requires Inv(w) && s in w.shards
    ensures Inv(w.(shards := w.shards - {s})) && Pending(w.open, w.db, w.shards[s].batch)
  {
    assert ShardInv(w.open, w.db, w.shards[s]);
    TrackedIsPending(w.open, w.db, w.shards[s]);
  }

  lemma WithShard(w: World, s: nat, sh: Shard)
    requires Inv(w) && ShardInv(w.open, w.db, sh)
    ensures Inv(w.(shards := w.shards[s := sh]))
  {
  }

  /** A commit lands whatever its shard remembers of it afterwards. */
  lemma LandedKeeps(w: World, s: nat, after: map<Uuid, Auction>, sh': Shard)
    requires Inv(w) && CanCommit(w, s, after)
    requires ShardInv(w.open, Db(after, w.db.bids + w.shards[s].batch), sh')
    ensures Inv(Landed(w, w.shards[s].batch, after).(shards := w.shards[s := sh']))
    ensures Grows(w.open, w.db, Db(after, w.db.bids + w.shards[s].batch))
  {
    hide ShardInv, Pending, SoundAt, Consistent, TxInv, Apart;
    var w0 := w.(shards := w.shards - {s});
    WithoutShard(w, s);
    InsertionKeepsInv(w0, w.shards[s].batch, Db(after, w.db.bids + w.shards[s].batch));
    var w1 := w0.(db := Db(after, w.db.bids + w.shards[s].batch));
    WithShard(w1, s, sh');
    assert w1.(shards := w1.shards[s := sh']) == Landed(w, w.shards[s].batch, after).(shards := w.shards[s := sh']);
  }

  lemma CommitMisreportedKeeps(w: World, s: nat, after: map<Uuid, Auction>)
    requires Inv(w) && CanCommit(w, s, after)
    ensures Kept(w, Apply(w, CommitMisreported(s, after)))
  {
    var sh, db' := w.shards[s], Db(after, w.db.bids + w.shards[s].batch);
    WithoutShard(w, s);
    CommitKeepsSound(w.open, w.db, sh.batch, db');
    ShardSurvives(w.open, w.db, db', sh);
    EvictedKeeps(w.open, db', sh);
    LandedKeeps(w, s, after, Evicted(sh));
  }

  lemma CommitAckedKeeps(w: World, s: nat, after: map<Uuid, Auction>)
    requires Inv(w) && CanCommit(w, s, after)
    ensures Kept(w, Apply(w, CommitAcked(s, after)))
  {
    var sh := w.shards[s];
    CommittedShard(w.open, w.db, sh, Db(after, w.db.bids + sh.batch));
    LandedKeeps(w, s, after, sh.(batch := []));
    AckedRowsAreDurable(w, s, after);
    WithAcks(Landed(w, sh.batch, after).(shards := w.shards[s := sh.(batch := [])]),
             Apply(w, CommitAcked(s, after)).acks);
  }

  lemma WithAcks(w: World, acks: set<Bid>)
    requires Inv(w) && forall b :: b in acks ==> b in w.db.bids
    ensures Inv(w.(acks := acks))
  {
  }

  lemma AckedRowsAreDurable(w: World, s: nat, after: map<Uuid, Auction>)
    requires CanCommit(w, s, after) && forall b :: b in w.acks ==> b in w.db.bids
    ensures forall b :: b in Apply(w, CommitAcked(s, after)).acks ==> b in w.db.bids + w.shards[s].batch
  {
  }

  lemma CommittedShard(open: map<Uuid, Auction>, db: Db, sh: Shard, db': Db)
    requires Sound(open, db) && ShardInv(open, db, sh) && Commits(db, sh.batch, db')
    ensures ShardInv(open, db', sh.(batch := []))
  {
    TrackedIsPending(open, db, sh);
    forall a | a in sh.cache
      ensures a in open && Tracks(open[a], History(db'.bids, a), [], sh.cache[a])
    {
      var h, p := History(db.bids, a), History(sh.batch, a);
      CommitExtends(open, db, sh.batch, db', a);
      if p == [] {
        assert h + p == h;
      } else {
        TracksOnPrefix(open[a], h, p, sh.cache[a]);
        CommittedTracks(open[a], h, p, sh.cache[a]);
      }
    }
  }

  lemma EvictedShardKeeps(w: World, s: nat)
    requires Inv(w) && s in w.shards
    ensures Inv(w.(shards := w.shards[s := Evicted(w.shards[s])])) && Pending(w.open, w.db, w.shards[s].batch)
  {
    WithoutShard(w, s);
    EvictedKeeps(w.open, w.db, w.shards[s]);
    WithShard(w, s, Evicted(w.shards[s]));
  }

  lemma FailedCommitKeeps(w: World, step: Step)
    requires Inv(w) && Enabled(w, step) && (step.CommitAborted? || step.CommitInFlight?)
    ensures Kept(w, Apply(w, step))
  {
    hide ShardInv, Pending, SoundAt, Consistent, TxInv, Apart;
    EvictedShardKeeps(w, step.s);
  }

  lemma LandKeeps(w: World, i: nat, after: map<Uuid, Auction>)
    requires Inv(w) && Enabled(w, Land(i, after))
    ensures Kept(w, Apply(w, Land(i, after)))
  {
    hide ShardInv, Sound, TxsInv, Pending, Commits, Free, Grows;
    InsertionKeepsInv(w, w.late[i], Db(after, w.db.bids + w.late[i]));
  }

  lemma WriteOneKeeps(w: World, b: Bid, heard: bool)
    requires Inv(w) && Free(w, [b]) && Follows(w.db, b)
    requires Consistent(w.db.auctions, w.db.bids + [b])
    ensures Kept(w, WriteOne(w, b, heard))
    ensures Commits(w.db, [b], WriteOne(w, b, heard).db) && Pending(w.open, w.db, [b])
  {
    DecidedOverRow(w.open, w.db, b);
    InsertionKeepsInv(w, [b], Write(w.db, b));
    WithAcks(w.(db := Write(w.db, b)), if heard then w.acks + {b} else w.acks);
  }

  /** The SQL guard implies the Go one: a sum that fits does not wrap, and one
      that does not fit is above every amount. */
  lemma OptimisticFollows(w: World, step: Step)
    requires Inv(w) && step.Optimistic? && Enabled(w, step)
    ensures Follows(w.db, DecidedRow(w.db.auctions[step.req.auction].State(), step.req, step.id, step.startedAt))
  {
    var a := step.req.auction;
    var h, row := History(w.db.bids, a), w.db.auctions[a];
    assert SoundAt(w.open, w.db, a);
  }

  lemma CommitTxKeeps(w: World, t: nat, heard: bool)
    requires Inv(w) && Enabled(w, CommitTx(t, heard))
    ensures Kept(w, Apply(w, CommitTx(t, heard)))
    ensures var b := w.txs[t].row;
            Commits(w.db, [b], Apply(w, CommitTx(t, heard)).db) && Pending(w.open, w.db, [b])
  {
    hide ShardInv, Pending, SoundAt, Consistent;
    var b := w.txs[t].row;
    var w0 := w.(txs := w.txs - {t});
    assert TxInv(w.db, w.txs[t]);
    forall u, i | u in w0.txs && 0 <= i < 1 ensures OutOfTheWay(w0.txs[u], [b][i]) {
      assert Apart(w.txs[t], w.txs[u]);
    }
    WriteOneKeeps(w0, b, heard);
  }

  lemma TxsWith(db: Db, txs: map<nat, Tx>, t: nat, tx: Tx)
    requires TxsInv(db, txs) && TxInv(db, tx)
    requires forall u :: u in txs && u != t ==> Apart(tx, txs[u]) && Apart(txs[u], tx)
    ensures TxsInv(db, txs[t := tx])
  {
  }

  /** A transaction that moves on without touching the tables. */
  lemma TxMoves(w: World, t: nat, tx: Tx)
    requires Inv(w) && TxInv(w.db, tx)
    requires forall u :: u in w.txs && u != t ==> Apart(tx, w.txs[u]) && Apart(w.txs[u], tx)
    ensures Kept(w, w.(txs := w.txs[t := tx]))
  {
    hide ShardInv, Pending, SoundAt, Consistent;
    TxsWith(w.db, w.txs, t, tx);
  }

  lemma LockKeeps(w: World, t: nat, readAt: Time)
    requires Inv(w) && Enabled(w, Lock(t, readAt))
    ensures Kept(w, Apply(w, Lock(t, readAt)))
  {
    hide ShardInv, Pending, SoundAt, Consistent;
    TxMoves(w, t, Apply(w, Lock(t, readAt)).txs[t]);
  }

  lemma UpdateKeeps(w: World, t: nat)
    requires Inv(w) && Enabled(w, Update(t))
    ensures Kept(w, Apply(w, Update(t)))
  {
    hide ShardInv, Pending, SoundAt, Consistent;
    assert TxInv(w.db, w.txs[t]);
    forall u | u in w.txs && u != t ensures Apart(w.txs[t], w.txs[u]) && Apart(w.txs[u], w.txs[t]) {}
    TxMoves(w, t, Apply(w, Update(t)).txs[t]);
  }

  lemma InsertKeeps(w: World, t: nat)
    requires Inv(w) && Enabled(w, Insert(t))
    ensures Kept(w, Apply(w, Insert(t)))
  {
    hide ShardInv, Pending, SoundAt, Consistent;
    assert TxInv(w.db, w.txs[t]);
    forall u | u in w.txs && u != t ensures Apart(w.txs[t], w.txs[u]) && Apart(w.txs[u], w.txs[t]) {}
    TxMoves(w, t, Written(w.txs[t].row));
  }

  function ClosedRow(row: Auction, at: Time): Auction {
    row.(status := StatusClosed, closedAt := Some(at))
  }

  lemma ClosedRowFits(o: Auction, h: seq<Bid>, row: Auction, at: Time)
    requires RowAt(o, h, row) && row.endsAt <= at
    ensures RowAt(o, h, ClosedRow(row, at))
  {
  }

  lemma CloseKeepsSound(open: map<Uuid, Auction>, db: Db, a: Uuid, at: Time)
    requires Sound(open, db) && a in db.auctions
    requires db.auctions[a].status == StatusOpen && db.auctions[a].endsAt <= at
    ensures var db' := Db(db.auctions[a := ClosedRow(db.auctions[a], at)], db.bids);
            Sound(open, db') && Grows(open, db, db')
  {
    hide Consistent, RowAt, Valid, Opening;
    var db' := Db(db.auctions[a := ClosedRow(db.auctions[a], at)], db.bids);
    SameKeysSameConsistency(db.auctions, db'.auctions, db.bids);
    assert SoundAt(open, db, a);
    ClosedRowFits(open[a], History(db.bids, a), db.auctions[a], at);
    forall x | x in open ensures SoundAt(open, db', x) {
      assert SoundAt(open, db, x);
    }
  }

  lemma CloseKeepsTxs(db: Db, txs: map<nat, Tx>, a: Uuid, row: Auction)
    requires TxsInv(db, txs) && a in db.auctions
    requires forall t :: t in txs ==> txs[t].Held() != Some(a)
    ensures TxsInv(Db(db.auctions[a := row], db.bids), txs)
  {
    var db' := Db(db.auctions[a := row], db.bids);
    forall t | t in txs ensures TxInv(db', txs[t]) {
      assert TxInv(db, txs[t]);
      if txs[t].Written? {
        SameKeysSameConsistency(db.auctions, db'.auctions, db.bids + [txs[t].row]);
      }
    }
  }

  lemma CloseKeeps(w: World, a: Uuid, d: nat)
    requires Inv(w) && Enabled(w, Close(a, d))
    ensures Kept(w, Apply(w, Close(a, d)))
  {
    hide ShardInv, Pending, SoundAt;
    var row := ClosedRow(w.db.auctions[a], w.clock + d);
    CloseKeepsSound(w.open, w.db, a, w.clock + d);
    CloseKeepsTxs(w.db, w.txs, a, row);
    var db' := Db(w.db.auctions[a := row], w.db.bids);
    WithDb(w, db', w.clock + d);
  }

  lemma WithDb(w: World, db': Db, clock: Time)
    requires Inv(w) && Sound(w.open, db') && Grows(w.open, w.db, db')
    requires TxsInv(db', w.txs) && db'.bids == w.db.bids
    ensures Kept(w, w.(db := db', clock := clock))
  {
    forall s | s in w.shards ensures ShardInv(w.open, db', w.shards[s]) {
      ShardSurvives(w.open, w.db, db', w.shards[s]);
    }
    forall i | 0 <= i < |w.late| ensures Pending(w.open, db', w.late[i]) {
      PendingSurvives(w.open, w.db, db', w.late[i]);
    }
  }

  lemma QuietStepKeeps(w: World, step: Step)
    requires Inv(w) && Enabled(w, step)
    requires step.Tick? || step.Boot? || step.Drop? || step.Rollback?
    ensures Kept(w, Apply(w, step))
  {
    hide Pending, SoundAt, Consistent, TxInv;
    if step.Boot? {
      WithShard(w, step.s, Shard(map[], []));
    }
  }

  lemma CrashKeeps(w: World, s: nat)
    requires Inv(w) && Enabled(w, Crash(s))
    ensures Kept(w, Apply(w, Crash(s)))
  {
    WithoutShard(w, s);
  }

  lemma OptimisticKeeps(w: World, step: Step)
    requires Inv(w) && step.Optimistic? && Enabled(w, step)
    ensures Kept(w, Apply(w, step))
  {
    OptimisticFollows(w, step);
    var b := DecidedRow(w.db.auctions[step.req.auction].State(), step.req, step.id, step.startedAt);
    WriteOneKeeps(w, b, step.heard);
  }

  lemma StepKeeps(w: World, step: Step)
    requires Inv(w) && Enabled(w, step)
    ensures Kept(w, Apply(w, step))
  {
    hide Inv, Kept;
    match step
    case Create(a, o) => CreateKeeps(w, a, o);
    case Hydrate(s, a) => HydrateKeeps(w, s, a);
    case Decide(_, _, _, _, _) => DecideKeeps(w, step);
    case CommitAcked(s, after) => CommitAckedKeeps(w, s, after);
    case CommitMisreported(s, after) => CommitMisreportedKeeps(w, s, after);
    case CommitInFlight(_) => FailedCommitKeeps(w, step);
    case CommitAborted(_) => FailedCommitKeeps(w, step);
    case Land(i, after) => LandKeeps(w, i, after);
    case Crash(s) => CrashKeeps(w, s);
    case Optimistic(_, _, _, _, _) => OptimisticKeeps(w, step);
    case CommitTx(t, heard) => CommitTxKeeps(w, t, heard);
    case Close(a, d) => CloseKeeps(w, a, d);
    case Tick(_) => QuietStepKeeps(w, step);
    case Boot(_) => QuietStepKeeps(w, step);
    case Drop(_) => QuietStepKeeps(w, step);
    case Rollback(_) => QuietStepKeeps(w, step);
    case Begin(t, req, id) => TxMoves(w, t, Waiting(req, id, w.clock));
    case Lock(t, readAt) => LockKeeps(w, t, readAt);
    case Update(t) => UpdateKeeps(w, t);
    case Insert(t) => InsertKeeps(w, t);
  }
}
