/** What a batch with two bids of one auction can leave behind, and exactly when
    an auction recovers after a failed commit. */
module Stuck {
  import opened Contract
  import opened Tables
  import opened Ledger
  import opened World
  import opened Safety
  import opened Guarantees

  /** The row is behind the history, and nobody remembers the rest: no shard and
      no commit in flight was decided over the whole of it. */
  ghost predicate Behind(w: World, a: Uuid) {
    && a in w.db.auctions
    && w.db.auctions[a].version < |History(w.db.bids, a)|
    && (forall s :: s in w.shards && a in w.shards[s].cache ==> StaleShard(w, w.shards[s], a))
    && (forall i :: 0 <= i < |w.late| ==> StaleRows(w, w.late[i], a))
  }

  predicate StaleShard(w: World, sh: Shard, a: Uuid)
    requires a in sh.cache
  {
    sh.cache[a].version - |History(sh.batch, a)| < |History(w.db.bids, a)|
  }

  predicate StaleRows(w: World, rows: seq<Bid>, a: Uuid) {
    History(rows, a) != [] ==> Base(History(rows, a)) < |History(w.db.bids, a)|
  }

  lemma StaleBatch(w: World, s: nat, a: Uuid)
    requires Inv(w) && Behind(w, a) && s in w.shards
    ensures StaleRows(w, w.shards[s].batch, a)
  {
    var sh := w.shards[s];
    assert ShardInv(w.open, w.db, sh);
    if History(sh.batch, a) != [] {
      var i := HistoryPosition(sh.batch, a, 0);
      assert StaleShard(w, sh, a);
      TracksOnPrefix(w.open[a], History(w.db.bids, a), History(sh.batch, a), sh.cache[a]);
    }
  }

  lemma OneRowIsStale(w: World, b: Bid, a: Uuid)
    requires Behind(w, a) && Follows(w.db, b)
    ensures StaleRows(w, [b], a)
  {
    HistoryOfOne(b, a);
  }

  lemma InsertedAreStale(w: World, step: Step, a: Uuid)
    requires Inv(w) && Behind(w, a) && Enabled(w, step)
    ensures StaleRows(w, Inserted(w, step), a)
  {
    hide ShardInv, Consistent, SoundAt, Pending, Commits, Free, StaleShard;
    match step
    case CommitAcked(s, _) => StaleBatch(w, s, a);
    case CommitMisreported(s, _) => StaleBatch(w, s, a);
    case Optimistic(_, _, _, _, _) =>
      OptimisticFollows(w, step);
      OneRowIsStale(w, Inserted(w, step)[0], a);
    case CommitTx(t, _) =>
      assert TxInv(w.db, w.txs[t]);
      OneRowIsStale(w, w.txs[t].row, a);
    case _ =>
  }

  /** Nothing that can commit from such a state touches the auction. */
  lemma NothingLands(w: World, step: Step, a: Uuid)
    requires Inv(w) && Behind(w, a) && Enabled(w, step)
    ensures History(Inserted(w, step), a) == []
    ensures History(Apply(w, step).db.bids, a) == History(w.db.bids, a)
    ensures a in Apply(w, step).db.auctions
    ensures Apply(w, step).db.auctions[a].version == w.db.auctions[a].version
  {
    hide Inv, Inserted, Behind;
    InsertedAreStale(w, step, a);
    assert a in w.db.auctions by { BehindIsKnown(w, a); }
    StepOnAuction(w, step, a);
    assert History(w.db.bids, a) + [] == History(w.db.bids, a);
  }

  lemma BehindIsKnown(w: World, a: Uuid)
    requires Behind(w, a)
    ensures a in w.db.auctions
  {
  }

  /** The shard with that number before the step, or one that has just booted. */
  function Was(w: World, s: nat): Shard {
    if s in w.shards then w.shards[s] else Shard(map[], [])
  }

  lemma ShardStaysStale(w: World, step: Step, a: Uuid, s: nat)
    requires Inv(w) && Behind(w, a) && Enabled(w, step)
    requires s in Apply(w, step).shards && a in Apply(w, step).shards[s].cache
    ensures StaleShard(w, Apply(w, step).shards[s], a)
  {
    hide Inv, Inserted, Free, Commits, Consistent, OptimisticGuard;
    var sh' := Apply(w, step).shards[s];
    if step.Hydrate? && step.s == s && step.a == a {
      HydratedIsStale(w, s, a);
    } else if step.Decide? && step.s == s {
      DecidedStaysStale(w, Was(w, s), sh'.batch[|Was(w, s).batch|], a);
    } else if step.CommitAcked? && step.s == s {
      NothingLands(w, step, a);
      InsertedOfCommit(w, step);
    }
  }

  lemma InsertedOfCommit(w: World, step: Step)
    requires step.CommitAcked? && step.s in w.shards
    ensures Inserted(w, step) == w.shards[step.s].batch
  {
  }

  lemma HydratedIsStale(w: World, s: nat, a: Uuid)
    requires Inv(w) && Behind(w, a) && s in w.shards && a !in w.shards[s].cache
    ensures History(w.shards[s].batch, a) == []
  {
    hide Consistent, SoundAt, Pending, TxsInv;
    assert ShardInv(w.open, w.db, w.shards[s]);
    NoRowsElsewhere(w.shards[s].batch, a);
  }

  lemma DecidedStaysStale(w: World, sh: Shard, b: Bid, a: Uuid)
    requires b.auction in sh.cache && a in sh.cache && StaleShard(w, sh, a)
    requires b.seqNo == sh.cache[b.auction].version + 1
    ensures StaleShard(w, WithDecided(sh, b), a)
  {
    HistoryConcat(sh.batch, [b], a);
    HistoryOfOne(b, a);
  }

  lemma LateStaysStale(w: World, step: Step, a: Uuid, i: nat)
    requires Inv(w) && Behind(w, a) && Enabled(w, step) && i < |Apply(w, step).late|
    ensures StaleRows(w, Apply(w, step).late[i], a)
  {
    hide Inv, Free, Commits, StaleShard, Consistent, OptimisticGuard;
    if step.CommitInFlight? || step.Crash? {
      StaleBatch(w, step.s, a);
    }
  }

  lemma BehindStays(w: World, step: Step, a: Uuid)
    requires Inv(w) && Behind(w, a) && Enabled(w, step)
    ensures Behind(Apply(w, step), a)
    ensures History(Apply(w, step).db.bids, a) == History(w.db.bids, a)
  {
    hide Inv;
    NothingLands(w, step, a);
    var w' := Apply(w, step);
    forall s | s in w'.shards && a in w'.shards[s].cache ensures StaleShard(w', w'.shards[s], a) {
      ShardStaysStale(w, step, a, s);
    }
    forall i | 0 <= i < |w'.late| ensures StaleRows(w', w'.late[i], a) {
      LateStaysStale(w, step, a, i);
    }
  }

  /** An auction that is behind takes no bid again, from any engine, in any
      continuation: every accept collides on (auction_id, seq), every failed
      commit re-hydrates the same row, and the next one collides again. */
  lemma {:induction false} BehindForever(w: World, run: seq<Step>, a: Uuid)
    requires Inv(w) && Behind(w, a) && Possible(w, run)
    ensures Behind(Exec(w, run), a)
    ensures History(Exec(w, run).db.bids, a) == History(w.db.bids, a)
    decreases |run|
  {
    hide Inv, Behind;
    if run != [] {
      StepKeeps(w, run[0]);
      assert Inv(Apply(w, run[0])) by { KeptInv(w, Apply(w, run[0])); }
      BehindStays(w, run[0], a);
      BehindForever(Apply(w, run[0]), run[1..], a);
    }
  }

  /* ---- when the next bid lands ---- */

  predicate KeyAndIdFree(bids: seq<Bid>, b: Bid) {
    forall i :: 0 <= i < |bids| ==> bids[i].id != b.id && (b.key.Some? ==> bids[i].key != b.key)
  }

  /** A bid decided over the row as it stands, with an id and a key nobody used,
      is taken by the schema exactly when the row is its history. */
  lemma NextBidLandsIffRowAgrees(w: World, b: Bid)
    requires Inv(w) && Follows(w.db, b) && 0 < b.amount && KeyAndIdFree(w.db.bids, b)
    ensures Consistent(w.db.auctions, w.db.bids + [b]) <==> Agrees(w, b.auction)
  {
    hide ShardInv, TxsInv;
    var a, h := b.auction, History(w.db.bids, b.auction);
    assert SoundAt(w.open, w.db, a);
    DecidedOverRow(w.open, w.db, b);
    HistoryOfOne(b, a);
    if w.db.auctions[a].version < |h| {
      StrictPrefixAborts(w.open, w.db, [b], a);
    } else {
      SeqIsFree(w.open, w.db, b);
    }
  }

  lemma SeqIsFree(open: map<Uuid, Auction>, db: Db, b: Bid)
    requires Sound(open, db) && b.auction in open && 0 < b.amount && KeyAndIdFree(db.bids, b)
    requires b.seqNo == |History(db.bids, b.auction)| + 1
    ensures Consistent(db.auctions, db.bids + [b])
  {
    var all := db.bids + [b];
    forall i, j | 0 <= i < j < |all| ensures !Clash(all[i], all[j]) {
      if j < |db.bids| {
        assert !Clash(db.bids[i], db.bids[j]);
      } else if db.bids[i].auction == b.auction {
        var k := PositionInHistory(db.bids, i);
        assert SoundAt(open, db, b.auction);
      }
    }
    forall i | 0 <= i < |all| ensures Admissible(db.auctions, all[i]) {
      assert i < |db.bids| ==> Admissible(db.auctions, db.bids[i]);
    }
  }

  /** After any failed commit the touched auctions are forgotten and nothing else
      is ahead of the tables: every cached auction without open bids is a durable
      prefix. */
  lemma MemoryNeverAhead(run: seq<Step>, s: nat, a: Uuid)
    requires Possible(EMPTY, run) && s in Exec(EMPTY, run).shards
    requires a in Exec(EMPTY, run).shards[s].cache
    requires History(Exec(EMPTY, run).shards[s].batch, a) == []
    ensures var w := Exec(EMPTY, run);
            var st := w.shards[s].cache[a];
            && a in w.open
            && st.version <= |History(w.db.bids, a)|
            && st.highestBid == TopAt(w.open[a], History(w.db.bids, a), st.version)
  {
    hide SoundAt, Pending, Consistent, TxsInv;
    EmptyInv();
    RunIsLater(EMPTY, run);
    var w := Exec(EMPTY, run);
    var h, st := History(w.db.bids, a), w.shards[s].cache[a];
    assert ShardInv(w.open, w.db, w.shards[s]);
    assert h[..st.version] + [] == h[..st.version];
  }

  /** The re-hydration and decision of one bid by a shard that forgot the auction. */
  ghost predicate CanRetry(w: World, s: nat, req: Request, at: Time) {
    && s in w.shards && w.shards[s].batch == []
    && req.auction in w.db.auctions && req.auction !in w.shards[s].cache
    && !w.db.auctions[req.auction].State().IsClosed(at)
    && req.amount >= w.db.auctions[req.auction].State().MinNextBid()
  }

  ghost function Retried(w: World, s: nat, req: Request, id: Uuid, at: Time): (w2: World)
    requires CanRetry(w, s, req, at)
    ensures Enabled(w, Hydrate(s, req.auction))
    ensures Enabled(Apply(w, Hydrate(s, req.auction)), Decide(s, req, id, at, at))
    ensures w2.db == w.db && w2.txs == w.txs && s in w2.shards
    ensures w2.shards[s].batch == [DecidedRow(w.db.auctions[req.auction].State(), req, id, at)]
  {
    Apply(Apply(w, Hydrate(s, req.auction)), Decide(s, req, id, at, at))
  }

  /** Recovery: the next sufficient bid before closing, with a fresh id and a free
      key and nobody holding the row, commits exactly when the row agrees with its
      history, and then it is bid n + 1. */
  lemma RecoversIffRowAgrees(w: World, s: nat, req: Request, id: Uuid, at: Time)
    requires Inv(w) && CanRetry(w, s, req, at) && 0 < req.amount
    requires var b := DecidedRow(w.db.auctions[req.auction].State(), req, id, at);
             KeyAndIdFree(w.db.bids, b) && Free(w, [b])
    ensures (exists after :: Enabled(Retried(w, s, req, id, at), CommitAcked(s, after))) <==> Agrees(w, req.auction)
    ensures Agrees(w, req.auction) ==>
              Retried(w, s, req, id, at).shards[s].batch[0].seqNo == |History(w.db.bids, req.auction)| + 1
  {
    hide Inv, Retried;
    var b := DecidedRow(w.db.auctions[req.auction].State(), req, id, at);
    NextBidLandsIffRowAgrees(w, b);
    var w2 := Retried(w, s, req, id, at);
    if Agrees(w, req.auction) {
      assert Commits(w2.db, [b], Write(w2.db, b));
      assert Enabled(w2, CommitAcked(s, Write(w2.db, b).auctions));
    }
  }

  /* ---- the state is reachable ---- */

  lemma OneMore(w: World, step: Step, rest: seq<Step>)
    requires Enabled(w, step) && Possible(Apply(w, step), rest)
    ensures Possible(w, [step] + rest) && Exec(w, [step] + rest) == Exec(Apply(w, step), rest)
  {
    assert ([step] + rest)[1..] == rest;
  }

  const OPENED := Auction(StatusOpen, 0, None, 100, 0, 1000, None)
  const FIRST := Bid(1, 0, 7, 100, 1, None, 0)
  const SECOND := Bid(2, 0, 8, 200, 2, None, 0)

  /** Two bidders, one auction, one batch: the second bid is decided before the
      first one is committed, the UPDATE takes the first of the two matching rows,
      and the process restarts. From then on the auction is open, a long way from
      its end, and takes no bid again. */
  lemma TwoBidsInOneBatchCanWedgeAnAuction() returns (run: seq<Step>)
    ensures Possible(EMPTY, run)
    ensures var w := Exec(EMPTY, run);
            && Behind(w, 0)
            && w.db.auctions[0].status == StatusOpen && w.clock < w.db.auctions[0].endsAt
            && w.acks == {FIRST, SECOND}
            && forall more :: Possible(w, more) ==> History(Exec(w, more).db.bids, 0) == [FIRST, SECOND]
  {
    hide Inv;
    var w;
    w, run := CommittedAndCrashed();
    WedgedIsBehind(w);
    EmptyInv();
    RunIsLater(EMPTY, run);
    assert Inv(w) by { LaterInv(EMPTY, w); }
    forall more | Possible(w, more) ensures History(Exec(w, more).db.bids, 0) == [FIRST, SECOND] {
      BehindForever(w, more, 0);
    }
  }

  lemma LaterInv(w: World, w': World)
    requires Later(w, w')
    ensures Inv(w')
  {
  }

  lemma WedgedIsBehind(w: World)
    requires w.db == Db(map[0 := Stamp(OPENED, FIRST)], [FIRST, SECOND])
    requires w.shards == map[] && w.late == [[]]
    ensures Behind(w, 0) && History(w.db.bids, 0) == [FIRST, SECOND]
  {
    assert w.db.bids == [FIRST] + [SECOND];
    HistoryConcat([FIRST], [SECOND], 0);
    HistoryOfOne(FIRST, 0);
    HistoryOfOne(SECOND, 0);
  }

  lemma CommittedAndCrashed() returns (w: World, run: seq<Step>)
    ensures Possible(EMPTY, run) && Exec(EMPTY, run) == w
    ensures w.db == Db(map[0 := Stamp(OPENED, FIRST)], [FIRST, SECOND])
    ensures w.shards == map[] && w.late == [[]] && w.acks == {FIRST, SECOND} && w.clock == 0
  {
    var w5, prefix := TwoDecided();
    var w6 := BothCommitted(w5);
    w := Apply(w6, Crash(0));
    OneMore(w6, Crash(0), []);
    var commit := CommitAcked(0, map[0 := Stamp(OPENED, FIRST)]);
    OneMore(w5, commit, [Crash(0)]);
    run := prefix + ([commit] + [Crash(0)]);
    Append(EMPTY, prefix, [commit] + [Crash(0)]);
  }

  lemma BothCommitted(w: World) returns (w': World)
    requires w.db == Db(map[0 := OPENED], []) && w.clock == 0 && w.late == [] && w.txs == map[] && w.acks == {}
    requires w.shards.Keys == {0} && w.shards[0].batch == [FIRST, SECOND]
    ensures var commit := CommitAcked(0, map[0 := Stamp(OPENED, FIRST)]);
            Enabled(w, commit) && w' == Apply(w, commit)
    ensures w'.db == Db(map[0 := Stamp(OPENED, FIRST)], [FIRST, SECOND])
    ensures w'.clock == 0 && w'.late == [] && w'.acks == {FIRST, SECOND}
    ensures w'.shards.Keys == {0} && w'.shards[0].batch == []
  {
    hide Commits, Inserted;
    var after := map[0 := Stamp(OPENED, FIRST)];
    BothRowsCommit();
    assert w.db.bids + [FIRST, SECOND] == [FIRST, SECOND];
    w' := Apply(w, CommitAcked(0, after));
    BothRowsAcked();
  }

  lemma BothRowsCommit()
    ensures Commits(Db(map[0 := OPENED], []), [FIRST, SECOND], Db(map[0 := Stamp(OPENED, FIRST)], [FIRST, SECOND]))
  {
    assert [FIRST, SECOND][0].auction == 0;
    assert [] + [FIRST, SECOND] == [FIRST, SECOND];
  }

  lemma BothRowsAcked()
    ensures (set i | 0 <= i < |[FIRST, SECOND]| :: [FIRST, SECOND][i]) == {FIRST, SECOND}
  {
    assert [FIRST, SECOND][0] == FIRST && [FIRST, SECOND][1] == SECOND;
  }

  /** One auction, one shard, one hydration. */
  lemma OneHydrated() returns (w: World, run: seq<Step>)
    ensures Possible(EMPTY, run) && Exec(EMPTY, run) == w
    ensures w.db == Db(map[0 := OPENED], []) && w.clock == 0 && w.late == [] && w.txs == map[] && w.acks == {}
    ensures w.shards == map[0 := Shard(map[0 := OPENED.State()], [])]
  {
    var s1, s2, s3 := Create(0, OPENED), Boot(0), Hydrate(0, 0);
    var w1 := Apply(EMPTY, s1);
    var w2 := Apply(w1, s2);
    w := Apply(w2, s3);
    OneMore(w2, s3, []);
    OneMore(w1, s2, [s3]);
    OneMore(EMPTY, s1, [s2, s3]);
    run := [s1, s2, s3];
  }

  lemma TwoDecided() returns (w: World, run: seq<Step>)
    ensures Possible(EMPTY, run) && Exec(EMPTY, run) == w
    ensures w.db == Db(map[0 := OPENED], []) && w.clock == 0 && w.late == [] && w.txs == map[] && w.acks == {}
    ensures w.shards.Keys == {0} && w.shards[0].batch == [FIRST, SECOND]
  {
    var w3, prefix := OneHydrated();
    var s4, s5 := Decide(0, Request(0, 7, 100, NO_KEY), 1, 0, 0), Decide(0, Request(0, 8, 200, NO_KEY), 2, 0, 0);
    var w4 := Apply(w3, s4);
    assert w4.shards[0].batch == [FIRST];
    w := Apply(w4, s5);
    OneMore(w4, s5, []);
    OneMore(w3, s4, [s5]);
    Append(EMPTY, prefix, [s4, s5]);
    run := prefix + [s4, s5];
  }

  lemma {:induction false} Append(w: World, run: seq<Step>, more: seq<Step>)
    requires Possible(w, run) && Possible(Exec(w, run), more)
    ensures Possible(w, run + more) && Exec(w, run + more) == Exec(Exec(w, run), more)
    decreases |run|
  {
    if run == [] {
      assert run + more == more;
    } else {
      Append(Apply(w, run[0]), run[1..], more);
      assert (run + more)[1..] == run[1..] + more;
    }
  }
}
