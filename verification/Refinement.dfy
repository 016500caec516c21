/** The components proved statement by statement move the step machine by its own
    steps: a shard's decision is a hydration and a decision, its commit is one of the
    three outcomes of a commit, and the closer's UPDATE is a closing. */
module Refinement {
  import opened Contract
  import opened Tables
  import opened Ledger
  import opened ShardEngine
  import opened ShardBooks
  import opened World
  import Closing
  import opened Finality
  import Guarantees
  import Safety
  import Stuck
  import Times

  /** The machine stands where the loop does. */
  ghost predicate At(w: World, s: nat, k: Book) {
    s in w.shards && w.shards[s] == Memory(k) && w.db == k.db
  }

  function WithBook(w: World, s: nat, k: Book): World {
    w.(shards := w.shards[s := Memory(k)], db := k.db)
  }

  /** The machine's clock is the database's at the guard, and the skews that the decision
      may use are within d. */
  predicate OnTheClock(w: World, k: Book, cmd: Command, sync: Sync) {
    w.clock == GuardedAt(cmd, sync) && Steady(k.cache, sync) && Timed(cmd, sync)
  }

  /** Whatever the command and whatever the hydration's fate, entering one command is
      no step, a hydration, a decision, or both in that order; and the decision's reading
      lags the machine's clock by no more than the skew's error. */
  lemma ADecisionIsAtMostTwoSteps(w: World, s: nat, k: Book, cmd: Command, fault: bool, sync: Sync)
    returns (run: seq<Step>)
    requires At(w, s, k) && |k.batch| < BATCH_MAX
    ensures |run| <= 2 && Possible(w, run)
    ensures Exec(w, run) == WithBook(w, s, Entered(k, cmd, DecideOn(k.cache, k.db.auctions, fault, cmd)))
    ensures OnTheClock(w, k, cmd, sync) ==> Prompt(w, run, sync.d)
  {
    hide Enabled, Apply, Entered, DecideCached, Possible, Exec, Prompt, Steady, Timed;
    var a := cmd.req.auction;
    if a in k.cache {
      run := CachedDecision(w, s, k, cmd, sync);
    } else if fault || a !in k.db.auctions {
      run := [];
      NothingEntered(w, s, k, cmd, fault, sync);
    } else {
      var k1 := k.(cache := k.cache[a := Hydrated(k.db.auctions[a], cmd)]);
      HydrationStep(w, s, k, cmd);
      var w1 := Apply(w, Hydrate(s, a));
      var rest := CachedDecision(w1, s, k1, cmd, sync);
      Stuck.OneMore(w, Hydrate(s, a), rest);
      run := [Hydrate(s, a)] + rest;
      if OnTheClock(w, k, cmd, sync) {
        HydratedOnTheClock(w, w1, k, k1, cmd, sync);
        PromptAfterHydration(w, s, a, rest, sync.d);
      }
      EnteredAnyway(k, k1, cmd, DecideCached(k1.cache, cmd));
    }
  }

  lemma HydratedOnTheClock(w: World, w1: World, k: Book, k1: Book, cmd: Command, sync: Sync)
    requires OnTheClock(w, k, cmd, sync) && w1.clock == w.clock && cmd.req.auction in k.db.auctions
    requires k1 == k.(cache := k.cache[cmd.req.auction := Hydrated(k.db.auctions[cmd.req.auction], cmd)])
    ensures OnTheClock(w1, k1, cmd, sync)
  {
    HydratedIsSteady(k.db.auctions[cmd.req.auction], cmd, sync);
  }

  lemma PromptAfterHydration(w: World, s: nat, a: Uuid, rest: seq<Step>, d: nat)
    requires Enabled(w, Hydrate(s, a)) && Possible(Apply(w, Hydrate(s, a)), rest)
    requires Prompt(Apply(w, Hydrate(s, a)), rest, d)
    ensures Possible(w, [Hydrate(s, a)] + rest) && Prompt(w, [Hydrate(s, a)] + rest, d)
  {
    assert ([Hydrate(s, a)] + rest)[1..] == rest;
  }

  lemma NothingEntered(w: World, s: nat, k: Book, cmd: Command, fault: bool, sync: Sync)
    requires At(w, s, k) && cmd.req.auction !in k.cache && (fault || cmd.req.auction !in k.db.auctions)
    ensures WithBook(w, s, Entered(k, cmd, DecideOn(k.cache, k.db.auctions, fault, cmd))) == w
    ensures Possible(w, []) && Exec(w, []) == w && Prompt(w, [], sync.d)
  {
  }

  lemma HydrationStep(w: World, s: nat, k: Book, cmd: Command)
    requires At(w, s, k) && cmd.req.auction !in k.cache && cmd.req.auction in k.db.auctions
    ensures var a := cmd.req.auction;
            var k1 := k.(cache := k.cache[a := Hydrated(k.db.auctions[a], cmd)]);
            Enabled(w, Hydrate(s, a)) && At(Apply(w, Hydrate(s, a)), s, k1)
            && Apply(w, Hydrate(s, a)) == WithBook(w, s, k1) && Apply(w, Hydrate(s, a)).clock == w.clock
  {
    var a := cmd.req.auction;
    var k1 := k.(cache := k.cache[a := Hydrated(k.db.auctions[a], cmd)]);
    assert Apply(w, Hydrate(s, a)).shards[s].cache == Memory(k1).cache;
  }

  lemma EnteredAnyway(k: Book, k1: Book, cmd: Command, d: Decision)
    requires k1 == k.(cache := k1.cache)
    ensures Entered(k1, cmd, d) == Entered(k, cmd, d)
  {
  }

  lemma CachedDecision(w: World, s: nat, k: Book, cmd: Command, sync: Sync) returns (run: seq<Step>)
    requires At(w, s, k) && |k.batch| < BATCH_MAX && cmd.req.auction in k.cache
    ensures |run| <= 1 && Possible(w, run)
    ensures Exec(w, run) == WithBook(w, s, Entered(k, cmd, DecideCached(k.cache, cmd)))
    ensures OnTheClock(w, k, cmd, sync) ==> Prompt(w, run, sync.d)
  {
    hide Timed;
    var a := cmd.req.auction;
    var c := k.cache[a];
    var k' := Entered(k, cmd, DecideCached(k.cache, cmd));
    if c.st.IsClosed(c.Now(cmd.guardAt)) || cmd.req.amount < c.st.MinNextBid() {
      run := [];
      assert WithBook(w, s, k') == w;
    } else {
      var step := Decide(s, cmd.req, cmd.bidId, c.Now(cmd.guardAt), c.Now(cmd.stampAt));
      run := [step];
      RowsSnoc(k.batch, DecideCached(k.cache, cmd).p);
      assert Apply(w, step).shards[s].cache == Memory(k').cache;
      Stuck.OneMore(w, step, []);
      assert [step][1..] == [] && Prompt(Apply(w, step), [step][1..], sync.d);
    }
  }

  /** What Commit may leave is what one of the machine's commits leaves: all
      acknowledged, aborted, or committed and reported as a failure. */
  lemma ACommitIsAStep(w: World, s: nat, k: Book, acked: bool, db': Db) returns (step: Step)
    requires At(w, s, k) && k.batch != [] && Free(w, Rows(k.batch))
    requires Commits(k.db, Rows(k.batch), db') || (!acked && db' == k.db)
    ensures Enabled(w, step)
    ensures var k' := if acked then Book(k.cache, AckAll(k.replies, k.batch), db', [])
                      else Book(EvictAll(k.cache, k.batch), FailAll(k.replies, k.batch), db', []);
            && Apply(w, step).db == db'
            && Apply(w, step).shards == w.shards[s := Memory(k')]
            && Apply(w, step).acks == (if acked then w.acks + set i | 0 <= i < |k.batch| :: k.batch[i].row else w.acks)
  {
    hide Consistent, UpdatedFrom, Free, EvictAll, FailAll, AckAll, Evicted;
    var rows := Rows(k.batch);
    EvictedMemory(k);
    if db' == k.db && !Commits(k.db, rows, db') {
      step := CommitAborted(s);
    } else {
      assert db' == Db(db'.auctions, k.db.bids + rows);
      step := if acked then CommitAcked(s, db'.auctions) else CommitMisreported(s, db'.auctions);
      SameRows(k.batch);
    }
  }

  lemma SameRows(batch: seq<Pending>)
    ensures (set i | 0 <= i < |Rows(batch)| :: Rows(batch)[i]) == set i | 0 <= i < |batch| :: batch[i].row
  {
    forall i | 0 <= i < |batch| ensures Rows(batch)[i] == batch[i].row {}
  }

  lemma EvictedMemory(k: Book)
    ensures Memory(Book(EvictAll(k.cache, k.batch), k.replies, k.db, [])) == Evicted(Memory(k))
  {
    EvictAllKeeps(k.cache, k.batch);
    forall a ensures a in EvictAll(k.cache, k.batch) <==> a in k.cache && History(Rows(k.batch), a) == [] {
      HistoryOfRows(k.batch, a);
    }
  }

  lemma {:induction false} HistoryOfRows(batch: seq<Pending>, a: Uuid)
    ensures History(Rows(batch), a) == [] <==> forall i :: 0 <= i < |batch| ==> batch[i].row.auction != a
  {
    if batch != [] {
      HistoryOfRows(batch[..|batch| - 1], a);
      assert Rows(batch)[..|batch| - 1] == Rows(batch[..|batch| - 1]);
    }
  }

  /** The UPDATE of the closer matches exactly when the machine can close, and leaves
      the same rows and the same clock. */
  lemma AClosingIsAStep(w: World, a: Uuid, during: nat)
    requires Unlocked(w, a)
    ensures Closing.DueIn(w, a) <==> Enabled(w, Close(a, during))
    ensures Enabled(w, Close(a, during)) ==>
              && var m := Closing.TryClose(Closing.Moment(w.db.auctions, w.clock, w.db.auctions.Keys), a, during);
              && Apply(w, Close(a, during)) == w.(db := Db(m.auctions, w.db.bids), clock := m.clock)
  {
  }

  /* ---- what a shard may find is what a run may leave ---- */

  /** Whatever all the participants do between two statements of a shard, the shard's
      loop is proved against it. */
  lemma ARunMayBeFound(w: World, run: seq<Step>)
    requires Inv(w) && Possible(w, run)
    ensures Reaches(Found(w.open, w.db), Found(Exec(w, run).open, Exec(w, run).db))
  {
    hide ShardInv, TxsInv, Ledger.Pending, SoundAt, Consistent, GrowsAt;
    Guarantees.RunIsLater(w, run);
    RunKeepsOpenings(w, run);
    var w' := Exec(w, run);
    forall a | a in w.open && a in w.db.auctions && a in w'.db.auctions ensures GrowsAt(w.open, w.db, w'.db, a) {}
  }

  lemma {:induction false} RunKeepsOpenings(w: World, run: seq<Step>)
    requires Inv(w) && Possible(w, run)
    ensures forall a :: a in w.open ==> a in Exec(w, run).open && Exec(w, run).open[a] == w.open[a]
    decreases |run|
  {
    hide Inv;
    if run != [] {
      Times.OpeningStays(w, run[0]);
      Safety.StepKeeps(w, run[0]);
      Safety.KeptInv(w, Apply(w, run[0]));
      RunKeepsOpenings(Apply(w, run[0]), run[1..]);
    }
  }

  /** And so against its own batch landing after its failure was reported, whatever the
      tables have become meanwhile. */
  lemma AFailedBatchMayLandLater(x: Found, k: Book, y: Found, db': Db)
    requires Coherent(x.open, k) && x.db == k.db && Reaches(x, y) && Commits(y.db, Rows(k.batch), db')
    ensures Reaches(y, Found(y.open, db'))
  {
    hide ShardInv, SoundAt, Consistent, UpdatedFrom, Rows;
    ShardFound(x, y, Memory(k));
    TrackedIsPending(y.open, y.db, Memory(k));
    CommitKeepsSound(y.open, y.db, Rows(k.batch), db');
  }
}
