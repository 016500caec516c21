/** The closing edge: what the clocks of the three engines and of the closer
    leave in created_at, ends_at and closed_at. */
module Times {
  import opened Contract
  import opened Tables
  import opened Ledger
  import opened World
  import opened Safety
  import opened Guarantees
  import opened Stuck

  predicate InTime(open: map<Uuid, Auction>, b: Bid) {
    b.auction in open && b.createdAt <= open[b.auction].endsAt
  }

  /** All of them, or all but some that are excused. */
  predicate AllInTime(open: map<Uuid, Auction>, excused: set<Bid>, rows: seq<Bid>) {
    forall i {:trigger InTime(open, rows[i])} :: 0 <= i < |rows| ==> rows[i] in excused || InTime(open, rows[i])
  }

  predicate TxInTime(open: map<Uuid, Auction>, clock: Time, tx: Tx) {
    match tx
    case Waiting(_, _, begunAt) => begunAt <= clock
    case Holding(_, _, begunAt, _, readAt) => begunAt <= readAt <= clock
    case Inserting(row) => InTime(open, row)
    case Written(row) => InTime(open, row)
  }

  /** Every bid written, decided or in flight, the excused ones apart, carries an
      instant not after the end of its auction. */
  ghost predicate Timely(w: World, excused: set<Bid>) {
    && AllInTime(w.open, excused, w.db.bids)
    && (forall s :: s in w.shards ==> AllInTime(w.open, excused, w.shards[s].batch))
    && (forall i :: 0 <= i < |w.late| ==> AllInTime(w.open, excused, w.late[i]))
    && (forall t :: t in w.txs ==> TxInTime(w.open, w.clock, w.txs[t]))
  }

  /** The shard's two readings of its corrected clock fall on both sides of
      ends_at: the guard saw the auction open, the stamp is past its end. */
  predicate Straddles(w: World, step: Step) {
    && step.Decide? && step.s in w.shards && step.req.auction in w.shards[step.s].cache
    && step.guardAt < w.shards[step.s].cache[step.req.auction].endsAt < step.stampAt
  }

  /** The bid that a straddling decision makes. */
  function Straddler(w: World, step: Step): set<Bid> {
    if Straddles(w, step) then
      {DecidedRow(w.shards[step.s].cache[step.req.auction], step.req, step.id, step.stampAt)}
    else {}
  }

  lemma AllInTimeConcat(open: map<Uuid, Auction>, excused: set<Bid>, xs: seq<Bid>, ys: seq<Bid>)
    ensures AllInTime(open, excused, xs + ys) <==> AllInTime(open, excused, xs) && AllInTime(open, excused, ys)
  {
    var all := xs + ys;
    if AllInTime(open, excused, all) {
      forall i | 0 <= i < |xs| ensures xs[i] in excused || InTime(open, xs[i]) {
        assert all[i] in excused || InTime(open, all[i]);
      }
      forall i | 0 <= i < |ys| ensures ys[i] in excused || InTime(open, ys[i]) {
        assert all[|xs| + i] in excused || InTime(open, all[|xs| + i]);
      }
    }
    if AllInTime(open, excused, xs) && AllInTime(open, excused, ys) {
      forall i | 0 <= i < |all| ensures all[i] in excused || InTime(open, all[i]) {
        assert i < |xs| ==> all[i] == xs[i];
        assert i >= |xs| ==> all[i] == ys[i - |xs|];
      }
    }
  }

  lemma AllInTimeGrows(open: map<Uuid, Auction>, excused: set<Bid>, a: Uuid, o: Auction, rows: seq<Bid>)
    requires AllInTime(open, excused, rows) && a !in open
    ensures AllInTime(open[a := o], excused, rows)
  {
    forall i | 0 <= i < |rows| ensures rows[i] in excused || InTime(open[a := o], rows[i]) {
      assert rows[i] in excused || InTime(open, rows[i]);
    }
  }

  lemma MoreExcused(w: World, excused: set<Bid>, more: set<Bid>)
    requires Timely(w, excused) && excused <= more
    ensures Timely(w, more)
  {
    hide InTime;
  }

  /** A decision leaves a late bid behind exactly when its readings straddle the end. */
  lemma DecisionIsTimelyIffNoStraddle(w: World, step: Step)
    requires Inv(w) && Timely(w, {}) && Enabled(w, step) && step.Decide?
    ensures Timely(Apply(w, step), {}) <==> !Straddles(w, step)
  {
    DecisionIsTimelyBut(w, step, {});
  }

  lemma DecisionIsTimelyBut(w: World, step: Step, excused: set<Bid>)
    requires Inv(w) && Timely(w, excused) && Enabled(w, step) && step.Decide?
    ensures Timely(Apply(w, step), excused) <==> Straddler(w, step) <= excused
  {
    hide Sound, TxsInv, Pending;
    var sh := w.shards[step.s];
    var b := DecidedRow(sh.cache[step.req.auction], step.req, step.id, step.stampAt);
    assert ShardInv(w.open, w.db, sh);
    assert [b][0] == b;
    AllInTimeConcat(w.open, excused, sh.batch, [b]);
    assert AllInTime(w.open, excused, [b]) <==> b in excused || InTime(w.open, b);
    assert Apply(w, step).shards[step.s].batch == sh.batch + [b];
  }

  lemma CreateIsTimely(w: World, a: Uuid, o: Auction, excused: set<Bid>)
    requires Inv(w) && Timely(w, excused) && Enabled(w, Create(a, o))
    ensures Timely(Apply(w, Create(a, o)), excused)
  {
    hide SoundAt, ShardInv, TxsInv, Consistent, Pending;
    AllInTimeGrows(w.open, excused, a, o, w.db.bids);
    forall s | s in w.shards ensures AllInTime(w.open[a := o], excused, w.shards[s].batch) {
      AllInTimeGrows(w.open, excused, a, o, w.shards[s].batch);
    }
    forall i | 0 <= i < |w.late| ensures AllInTime(w.open[a := o], excused, w.late[i]) {
      AllInTimeGrows(w.open, excused, a, o, w.late[i]);
    }
  }

  lemma OneInTime(open: map<Uuid, Auction>, excused: set<Bid>, bids: seq<Bid>, b: Bid)
    requires AllInTime(open, excused, bids) && InTime(open, b)
    ensures AllInTime(open, excused, bids + [b])
  {
    assert AllInTime(open, excused, [b]);
    AllInTimeConcat(open, excused, bids, [b]);
  }

  lemma LandingIsTimely(w: World, step: Step, excused: set<Bid>)
    requires Timely(w, excused) && Enabled(w, step)
    requires step.CommitAcked? || step.CommitMisreported? || step.Land?
    ensures Timely(Apply(w, step), excused)
  {
    hide Commits, Free, TxInTime;
    AllInTimeConcat(w.open, excused, w.db.bids, if step.Land? then w.late[step.i] else w.shards[step.s].batch);
  }

  lemma WriteIsTimely(w: World, b: Bid, heard: bool, excused: set<Bid>)
    requires Timely(w, excused) && InTime(w.open, b) && b.auction in w.db.auctions
    ensures Timely(WriteOne(w, b, heard), excused)
  {
    OneInTime(w.open, excused, w.db.bids, b);
  }

  lemma OptimisticIsTimely(w: World, step: Step, excused: set<Bid>)
    requires Inv(w) && Timely(w, excused) && Enabled(w, step) && step.Optimistic?
    ensures Timely(Apply(w, step), excused)
  {
    hide ShardInv, TxsInv, Consistent, Pending, Free, Timely;
    var b := DecidedRow(w.db.auctions[step.req.auction].State(), step.req, step.id, step.startedAt);
    assert SoundAt(w.open, w.db, step.req.auction);
    WriteIsTimely(w, b, step.heard, excused);
  }

  lemma CommitTxIsTimely(w: World, t: nat, heard: bool, excused: set<Bid>)
    requires Timely(w, excused) && Enabled(w, CommitTx(t, heard))
    ensures Timely(Apply(w, CommitTx(t, heard)), excused)
  {
    hide AllInTime;
    assert TxInTime(w.open, w.clock, w.txs[t]);
    WriteIsTimely(w.(txs := w.txs - {t}), w.txs[t].row, heard, excused);
  }

  lemma TxStepIsTimely(w: World, step: Step, excused: set<Bid>)
    requires Timely(w, excused) && Enabled(w, step)
    requires step.Begin? || step.Lock? || step.Insert?
    ensures Timely(Apply(w, step), excused)
  {
    hide Consistent, AllInTime, Clash;
    assert step.t in w.txs ==> TxInTime(w.open, w.clock, w.txs[step.t]);
  }

  lemma UpdateIsTimely(w: World, t: nat, excused: set<Bid>)
    requires Inv(w) && Timely(w, excused) && Enabled(w, Update(t))
    ensures Timely(Apply(w, Update(t)), excused)
  {
    hide Inv, AllInTime, InTime;
    assert TxInTime(w.open, w.clock, w.txs[t]);
    HeldIsInTime(w, t);
  }

  lemma HeldIsInTime(w: World, t: nat)
    requires Inv(w) && Enabled(w, Update(t)) && TxInTime(w.open, w.clock, w.txs[t])
    ensures var tx := w.txs[t];
            InTime(w.open, DecidedRow(w.db.auctions[tx.req.auction].State(), tx.req, tx.id, tx.begunAt))
  {
    hide ShardInv, Consistent, Pending, Clash;
    assert TxInv(w.db, w.txs[t]);
    assert SoundAt(w.open, w.db, w.txs[t].req.auction);
  }

  lemma StepIsTimely(w: World, step: Step, excused: set<Bid>)
    requires Inv(w) && Timely(w, excused) && Enabled(w, step)
    ensures Timely(Apply(w, step), excused + Straddler(w, step))
  {
    hide Inv, AllInTime, Straddler;
    var more := excused + Straddler(w, step);
    MoreExcused(w, excused, more);
    match step
    case Create(a, o) => CreateIsTimely(w, a, o, more);
    case Decide(_, _, _, _, _) => DecisionIsTimelyBut(w, step, more);
    case CommitAcked(_, _) => LandingIsTimely(w, step, more);
    case CommitMisreported(_, _) => LandingIsTimely(w, step, more);
    case Land(_, _) => LandingIsTimely(w, step, more);
    case Optimistic(_, _, _, _, _) => OptimisticIsTimely(w, step, more);
    case CommitTx(t, heard) => CommitTxIsTimely(w, t, heard, more);
    case Begin(_, _, _) => TxStepIsTimely(w, step, more);
    case Lock(_, _) => TxStepIsTimely(w, step, more);
    case Update(t) => UpdateIsTimely(w, t, more);
    case Insert(_) => TxStepIsTimely(w, step, more);
    case _ => OtherStepIsTimely(w, step, more);
  }

  lemma OtherStepIsTimely(w: World, step: Step, excused: set<Bid>)
    requires Timely(w, excused) && Enabled(w, step)
    requires step.Tick? || step.Boot? || step.Hydrate? || step.CommitInFlight? || step.CommitAborted?
             || step.Drop? || step.Crash? || step.Rollback? || step.Close?
    ensures Timely(Apply(w, step), excused)
  {
    hide Commits, Free;
    assert AllInTime(w.open, excused, []);
  }

  /** The bids of the run's straddling decisions, landed or not. */
  ghost function Straddlers(w: World, run: seq<Step>): set<Bid>
    requires Possible(w, run)
    decreases |run|
  {
    if run == [] then {} else Straddler(w, run[0]) + Straddlers(Apply(w, run[0]), run[1..])
  }

  lemma {:induction false} RunIsTimely(w: World, run: seq<Step>, excused: set<Bid>)
    requires Inv(w) && Timely(w, excused) && Possible(w, run)
    ensures Timely(Exec(w, run), excused + Straddlers(w, run))
    decreases |run|
  {
    hide Inv, Timely, Straddler;
    if run == [] {
      assert excused + Straddlers(w, run) == excused;
    } else {
      var w', late := Apply(w, run[0]), Straddler(w, run[0]);
      StepKeeps(w, run[0]);
      KeptInv(w, w');
      StepIsTimely(w, run[0], excused);
      RunIsTimely(w', run[1..], excused + late);
      assert excused + Straddlers(w, run) == excused + late + Straddlers(w', run[1..]);
    }
  }

  /** An auction stays as it was opened. */
  lemma OpeningStays(w: World, step: Step)
    requires Inv(w) && Enabled(w, step)
    ensures forall a :: a in w.open ==> a in Apply(w, step).open && Apply(w, step).open[a] == w.open[a]
  {
    hide ShardInv, SoundAt, TxsInv, Consistent, Pending, Commits, Free;
  }

  predicate AllLate(open: map<Uuid, Auction>, bids: set<Bid>) {
    forall b :: b in bids ==> b.auction in open && open[b.auction].endsAt < b.createdAt
  }

  lemma StraddlerIsLate(w: World, step: Step)
    requires Inv(w)
    ensures AllLate(w.open, Straddler(w, step))
  {
    hide Sound, TxsInv, Pending;
    if Straddles(w, step) {
      assert ShardInv(w.open, w.db, w.shards[step.s]);
    }
  }

  lemma {:induction false} StraddlersAreLate(w: World, run: seq<Step>, bids: set<Bid>)
    requires Inv(w) && Possible(w, run) && AllLate(w.open, bids)
    ensures AllLate(Exec(w, run).open, bids + Straddlers(w, run))
    decreases |run|
  {
    hide Inv, Straddler;
    if run == [] {
      assert bids + Straddlers(w, run) == bids;
    } else {
      var w', late := Apply(w, run[0]), Straddler(w, run[0]);
      StepKeeps(w, run[0]);
      KeptInv(w, w');
      OpeningStays(w, run[0]);
      StraddlerIsLate(w, run[0]);
      StraddlersAreLate(w', run[1..], bids + late);
      assert bids + Straddlers(w, run) == bids + late + Straddlers(w', run[1..]);
    }
  }

  /** In every run a bid is dated no later than its auction's end, and so than its
      closing, unless it is the bid of a straddling decision; and each of those that
      landed is dated after it. */
  lemma OnlyStraddlersAreAfterTheEnd(run: seq<Step>, i: nat)
    requires Possible(EMPTY, run) && i < |Exec(EMPTY, run).db.bids|
    ensures var w := Exec(EMPTY, run);
            var a := w.db.bids[i].auction;
            && a in w.db.auctions
            && (w.db.bids[i].createdAt <= w.db.auctions[a].endsAt <==> w.db.bids[i] !in Straddlers(EMPTY, run))
            && (w.db.auctions[a].closedAt.Some? ==> w.db.auctions[a].endsAt <= w.db.auctions[a].closedAt.value)
  {
    hide ShardInv, TxsInv, Pending, Possible, Exec, Straddlers;
    EmptyInv();
    RunIsLater(EMPTY, run);
    EmptyIsTimely();
    RunIsTimely(EMPTY, run, {});
    StraddlersAreLate(EMPTY, run, {});
    var w, late := Exec(EMPTY, run), Straddlers(EMPTY, run);
    assert {} + late == late;
    assert w.db.bids[i] in late || InTime(w.open, w.db.bids[i]);
    assert SoundAt(w.open, w.db, w.db.bids[i].auction);
  }

  lemma EmptyIsTimely()
    ensures Timely(EMPTY, {})
  {
  }

  /** Whatever was delivered to the closer and whoever crashed: status and
      closed_at agree, closed_at is never before ends_at, and once written neither
      ever changes. */
  lemma ClosedOnceAndNeverEarly(run: seq<Step>, more: seq<Step>, a: Uuid)
    requires Possible(EMPTY, run) && Possible(Exec(EMPTY, run), more)
    requires a in Exec(EMPTY, run).db.auctions
    ensures var row := Exec(EMPTY, run).db.auctions[a];
            && (row.status == StatusClosed <==> row.closedAt.Some?)
            && (row.closedAt.Some? ==> row.endsAt <= row.closedAt.value)
    ensures Exec(EMPTY, run).db.auctions[a].status == StatusClosed ==>
              var after := Exec(Exec(EMPTY, run), more).db.auctions;
              a in after && after[a].status == StatusClosed
              && after[a].closedAt == Exec(EMPTY, run).db.auctions[a].closedAt
  {
    hide ShardInv, TxsInv, Pending, Consistent;
    EmptyInv();
    RunIsLater(EMPTY, run);
    var w := Exec(EMPTY, run);
    RunIsLater(w, more);
    assert SoundAt(w.open, w.db, a);
    assert GrowsAt(w.open, w.db, Exec(w, more).db, a);
  }

  /** Once an auction is closed only a shard's batch can still move its version,
      top or winner: the other two engines guard the status under the same row
      lock that the closing takes. */
  lemma OnlyShardsMoveAClosedRow(w: World, step: Step, a: Uuid)
    requires Inv(w) && Enabled(w, step) && a in w.db.auctions
    requires w.db.auctions[a].status == StatusClosed
    requires !step.CommitAcked? && !step.CommitMisreported? && !step.Land?
    ensures a in Apply(w, step).db.auctions && Apply(w, step).db.auctions[a] == w.db.auctions[a]
  {
    hide ShardInv, Sound, Pending;
    if step.CommitTx? {
      assert TxInv(w.db, w.txs[step.t]);
    }
  }

  /* ---- the authorising readings ---- */

  /** The locked read saw the auction over. */
  predicate TooLate(w: World, t: nat) {
    t in w.txs && w.txs[t].Holding? && w.txs[t].st.IsClosed(w.txs[t].readAt)
  }

  lemma {:induction false} TooLateStays(w: World, t: nat, run: seq<Step>)
    requires TooLate(w, t) && Possible(w, run)
    requires forall i :: 0 <= i < |run| ==> run[i] != Rollback(t)
    ensures TooLate(Exec(w, run), t) && forall i :: 0 <= i < |run| ==> run[i] != Update(t)
    decreases |run|
  {
    if run != [] {
      assert run[0] != Rollback(t);
      TooLateStep(w, t, run[0]);
      TooLateStays(Apply(w, run[0]), t, run[1..]);
    }
  }

  lemma TooLateStep(w: World, t: nat, step: Step)
    requires TooLate(w, t) && Enabled(w, step) && step != Rollback(t)
    ensures step != Update(t) && TooLate(Apply(w, step), t)
  {
    hide Free, Commits, Consistent;
  }

  /** A locked read that tells an instant at or past the end never leads to a write, in
      any continuation and however early the transaction began. */
  lemma ALateReadingIsRefused(w: World, t: nat, readAt: Time, run: seq<Step>)
    requires Enabled(w, Lock(t, readAt)) && w.db.auctions[w.txs[t].req.auction].endsAt <= readAt
    requires Possible(Apply(w, Lock(t, readAt)), run)
    requires forall i :: 0 <= i < |run| ==> run[i] != Rollback(t)
    ensures forall i :: 0 <= i < |run| ==> run[i] != Update(t)
    ensures TooLate(Exec(Apply(w, Lock(t, readAt)), run), t)
  {
    assert TooLate(Apply(w, Lock(t, readAt)), t);
    TooLateStays(Apply(w, Lock(t, readAt)), t, run);
  }

  /** And one that tells an instant before the end does lead to it, however long ago that
      was: a sufficient bid that waited past the end behind a transaction that changed
      nothing may still write, dated at its begin. */
  lemma AnEarlyReadingStillWrites(w: World, t: nat, readAt: Time, d: nat)
    requires Enabled(w, Lock(t, readAt))
    ensures var tx, row := w.txs[t], w.db.auctions[w.txs[t].req.auction];
            var w1 := Apply(w, Tick(d));
            && Enabled(w1, Lock(t, readAt))
            && var w2 := Apply(w1, Lock(t, readAt));
               && w2.clock == w.clock + d
               && (Enabled(w2, Update(t)) <==>
                     row.status == StatusOpen && readAt < row.endsAt && tx.req.amount >= row.State().MinNextBid())
               && (Enabled(w2, Update(t)) ==> Apply(w2, Update(t)).txs[t].row.createdAt == tx.begunAt < row.endsAt)
  {
    assert Unlocked(Apply(w, Tick(d)), w.txs[t].req.auction);
  }

  /** now() of the optimistic statement is its start: one that waits for the row past
      the end still lands, dated before it. */
  lemma AnOptimisticBidCanLandPastTheEnd(w: World, step: Step, d: nat)
    requires step.Optimistic? && Enabled(w, step)
    ensures var w1 := Apply(w, Tick(d));
            && Enabled(w1, step)
            && var bids := Apply(w1, step).db.bids;
               && |bids| == |w.db.bids| + 1
               && bids[|w.db.bids|].createdAt == step.startedAt < w.db.auctions[step.req.auction].endsAt
    ensures Apply(w, Tick(d)).clock == w.clock + d
  {
    hide Free, Consistent;
    var b := DecidedRow(w.db.auctions[step.req.auction].State(), step.req, step.id, step.startedAt);
    StillFree(w, d, [b]);
  }

  lemma StillFree(w: World, d: nat, rows: seq<Bid>)
    requires Free(w, rows)
    ensures Free(Apply(w, Tick(d)), rows)
  {
  }

  const OVERDUE := OPENED.(status := StatusClosed, closedAt := Some(1000))

  function Straggler(stampAt: Time): Bid {
    Bid(1, 0, 7, 100, 1, None, stampAt)
  }

  /** A shard decides before the end, the closer closes at the end, and the batch
      commits after that: the closed auction gets its winner late, and when the
      second reading is past the end the bid itself is dated after it. */
  lemma AClosedAuctionCanStillGetAWinner(stampAt: Time) returns (run: seq<Step>, commit: Step)
    ensures Possible(EMPTY, run) && Enabled(Exec(EMPTY, run), commit)
    ensures var w, w' := Exec(EMPTY, run), Apply(Exec(EMPTY, run), commit);
            && w.db.auctions == map[0 := OVERDUE] && w.db.bids == []
            && w'.db.auctions == map[0 := Stamp(OVERDUE, Straggler(stampAt))]
            && w'.db.bids == [Straggler(stampAt)]
  {
    hide Commits, Possible, Exec;
    var w4, prefix := OneDecided(stampAt);
    var w := ClosedAtItsEnd(w4);
    run := prefix + [Tick(1000), Close(0, 0)];
    Append(EMPTY, prefix, [Tick(1000), Close(0, 0)]);
    StragglerCommits(stampAt);
    assert Free(w, w.shards[0].batch);
    commit := CommitAcked(0, map[0 := Stamp(OVERDUE, Straggler(stampAt))]);
  }

  lemma ClosedAtItsEnd(w: World) returns (w': World)
    requires w.db.auctions == map[0 := OPENED] && w.clock == 0 && w.txs == map[]
    ensures Possible(w, [Tick(1000), Close(0, 0)]) && Exec(w, [Tick(1000), Close(0, 0)]) == w'
    ensures w'.db == Db(map[0 := OVERDUE], w.db.bids) && w'.shards == w.shards && w'.txs == map[]
  {
    var w1 := Apply(w, Tick(1000));
    w' := Apply(w1, Close(0, 0));
    OneMore(w1, Close(0, 0), []);
    OneMore(w, Tick(1000), [Close(0, 0)]);
    assert [Tick(1000)] + [Close(0, 0)] == [Tick(1000), Close(0, 0)];
  }

  lemma StragglerCommits(stampAt: Time)
    ensures Commits(Db(map[0 := OVERDUE], []), [Straggler(stampAt)],
                    Db(map[0 := Stamp(OVERDUE, Straggler(stampAt))], [] + [Straggler(stampAt)]))
  {
    var b := Straggler(stampAt);
    assert [] + [b] == [b] && [b][0] == b;
  }

  lemma OneDecided(stampAt: Time) returns (w: World, run: seq<Step>)
    ensures Possible(EMPTY, run) && Exec(EMPTY, run) == w
    ensures w.db == Db(map[0 := OPENED], []) && w.clock == 0 && w.txs == map[]
    ensures w.shards.Keys == {0} && w.shards[0].batch == [Straggler(stampAt)]
  {
    var w3, prefix := OneHydrated();
    var s4 := Decide(0, Request(0, 7, 100, NO_KEY), 1, 999, stampAt);
    w := Apply(w3, s4);
    OneMore(w3, s4, []);
    Append(EMPTY, prefix, [s4]);
    run := prefix + [s4];
  }
}
