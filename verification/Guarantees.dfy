/** The promises of the repository as statements over every run of the step
    machine from empty tables. */
module Guarantees {
  import opened Contract
  import opened Tables
  import opened Ledger
  import opened World
  import opened Safety

  lemma EmptyInv()
    ensures Inv(EMPTY)
  {
    assert EMPTY.db.bids == [];
  }

  /** What a whole run keeps from one state to a later one. */
  ghost predicate Later(w: World, w': World) {
    && Inv(w')
    && w.db.bids <= w'.db.bids
    && w.acks <= w'.acks
    && w.open.Keys <= w'.open.Keys
    && forall a :: a in w.open ==>
         a in w.db.auctions && a in w'.db.auctions && GrowsAt(w.open, w.db, w'.db, a)
  }

  lemma StepIsLater(w: World, step: Step)
    requires Inv(w) && Enabled(w, step)
    ensures Later(w, Apply(w, step))
  {
    hide ShardInv, Pending, SoundAt, Consistent, TxsInv, GrowsAt;
    StepKeeps(w, step);
    var w' := Apply(w, step);
    forall a | a in w.open ensures a in w'.db.auctions {
      assert a in w.db.auctions;
    }
  }

  lemma LaterIsTransitive(w: World, w1: World, w2: World)
    requires Later(w, w1) && Later(w1, w2)
    ensures Later(w, w2)
  {
    hide Inv;
  }

  lemma {:induction false} RunIsLater(w: World, run: seq<Step>)
    requires Inv(w) && Possible(w, run)
    ensures Later(w, Exec(w, run))
    decreases |run|
  {
    hide ShardInv, Pending, SoundAt, Consistent, TxsInv, GrowsAt;
    if run == [] {
      forall a | a in w.open ensures GrowsAt(w.open, w.db, w.db, a) {
        GrowsReflexive(w.open, w.db);
      }
    } else {
      StepIsLater(w, run[0]);
      RunIsLater(Apply(w, run[0]), run[1..]);
      LaterIsTransitive(w, Apply(w, run[0]), Exec(w, run));
    }
  }

  /* ---- one replayable history per auction ---- */

  /** In every run, whatever crashed, aborted, landed late or was reported wrong:
      the bids of an auction are numbered 1..n, each passed the minimum the bid
      before it left, and the auctions row is the state after a prefix of them. */
  lemma EveryRunIsReplayable(run: seq<Step>, a: Uuid)
    requires Possible(EMPTY, run) && a in Exec(EMPTY, run).db.auctions
    ensures var w := Exec(EMPTY, run);
            && a in w.open
            && Dense(History(w.db.bids, a)) && Linked(w.open[a], History(w.db.bids, a))
            && RowAt(w.open[a], History(w.db.bids, a), w.db.auctions[a])
  {
    hide ShardInv, Pending, TxsInv;
    EmptyInv();
    RunIsLater(EMPTY, run);
    assert SoundAt(Exec(EMPTY, run).open, Exec(EMPTY, run).db, a);
  }

  /** The increment rule itself holds between two bids of any reachable history
      exactly when the sum it asks for fits in an int64. */
  lemma IncrementRuleHoldsIffItFits(run: seq<Step>, a: Uuid, i: nat)
    requires Possible(EMPTY, run) && a in Exec(EMPTY, run).db.auctions
    requires i < |History(Exec(EMPTY, run).db.bids, a)|
    ensures var w := Exec(EMPTY, run);
            var h := History(w.db.bids, a);
            a in w.open &&
            (h[i].amount >= TopAt(w.open[a], h, i) + w.open[a].increment <==>
             TopAt(w.open[a], h, i) + w.open[a].increment <= MAX_INT64)
  {
    EveryRunIsReplayable(run, a);
    var w := Exec(EMPTY, run);
    assert w.open[a].increment > 0 by {
      EmptyInv();
      RunIsLater(EMPTY, run);
      assert SoundAt(w.open, w.db, a);
    }
  }

  /* ---- 201 means durable ---- */

  /** Every 201 of a run names a row that is in bids and stays there in every
      continuation of the run. */
  lemma AcceptedMeansDurable(run: seq<Step>, more: seq<Step>, b: Bid)
    requires Possible(EMPTY, run) && b in Exec(EMPTY, run).acks
    requires Possible(Exec(EMPTY, run), more)
    ensures b in Exec(Exec(EMPTY, run), more).db.bids
  {
    hide ShardInv, Pending, Sound, TxsInv;
    EmptyInv();
    RunIsLater(EMPTY, run);
    RunIsLater(Exec(EMPTY, run), more);
    var w := Exec(EMPTY, run);
    assert b in w.db.bids;
  }

  /** bids holds at most one row per key, and the 201s of one key all name it. */
  lemma OneRowPerKey(run: seq<Step>, i: nat, j: nat)
    requires Possible(EMPTY, run)
    requires i < |Exec(EMPTY, run).db.bids| && j < |Exec(EMPTY, run).db.bids|
    requires Exec(EMPTY, run).db.bids[i].key.Some?
    requires Exec(EMPTY, run).db.bids[i].key == Exec(EMPTY, run).db.bids[j].key
    ensures i == j
  {
    EmptyInv();
    RunIsLater(EMPTY, run);
    var bids := Exec(EMPTY, run).db.bids;
    assert Clash(bids[i], bids[j]) && Clash(bids[j], bids[i]);
  }

  /** The bid id and the seq that a 201 carries each name one row. */
  lemma OneRowPerIdAndPerSeq(run: seq<Step>, i: nat, j: nat)
    requires Possible(EMPTY, run)
    requires i < |Exec(EMPTY, run).db.bids| && j < |Exec(EMPTY, run).db.bids|
    requires var b, c := Exec(EMPTY, run).db.bids[i], Exec(EMPTY, run).db.bids[j];
             b.id == c.id || (b.auction == c.auction && b.seqNo == c.seqNo)
    ensures i == j
  {
    EmptyInv();
    RunIsLater(EMPTY, run);
    var bids := Exec(EMPTY, run).db.bids;
    assert Clash(bids[i], bids[j]) && Clash(bids[j], bids[i]);
  }

  lemma OneAnswerPerKey(run: seq<Step>, b1: Bid, b2: Bid)
    requires Possible(EMPTY, run)
    requires b1 in Exec(EMPTY, run).acks && b2 in Exec(EMPTY, run).acks
    requires b1.key.Some? && b1.key == b2.key
    ensures b1 == b2
  {
    var w := Exec(EMPTY, run);
    AcceptedMeansDurable(run, [], b1);
    AcceptedMeansDurable(run, [], b2);
    assert Exec(w, []) == w;
    var i :| 0 <= i < |w.db.bids| && w.db.bids[i] == b1;
    var j :| 0 <= j < |w.db.bids| && w.db.bids[j] == b2;
    OneRowPerKey(run, i, j);
  }

  /* ---- the row and the history ---- */

  ghost predicate Agrees(w: World, a: Uuid) {
    a in w.db.auctions && w.db.auctions[a].version == |History(w.db.bids, a)|
  }

  ghost predicate SingleTouch(rows: seq<Bid>) {
    forall a :: |History(rows, a)| <= 1
  }

  /** The rows a step inserts. */
  function Inserted(w: World, step: Step): seq<Bid> {
    match step
    case CommitAcked(s, _) => if s in w.shards then w.shards[s].batch else []
    case CommitMisreported(s, _) => if s in w.shards then w.shards[s].batch else []
    case Land(i, _) => if i < |w.late| then w.late[i] else []
    case Optimistic(req, _, id, startedAt, _) =>
      if req.auction in w.db.auctions
      then [DecidedRow(w.db.auctions[req.auction].State(), req, id, startedAt)] else []
    case CommitTx(t, _) => if t in w.txs && w.txs[t].Written? then [w.txs[t].row] else []
    case _ => []
  }

  /** Every accepting step is one commit of pending rows. */
  lemma InsertingStepCommits(w: World, step: Step)
    requires Inv(w) && Enabled(w, step) && Inserted(w, step) != []
    ensures Pending(w.open, w.db, Inserted(w, step))
    ensures Commits(w.db, Inserted(w, step), Apply(w, step).db)
  {
    match step
    case CommitAcked(s, after) => WithoutShard(w, s);
    case CommitMisreported(s, after) => WithoutShard(w, s);
    case Land(i, after) =>
    case Optimistic(req, _, id, startedAt, heard) =>
      OptimisticFollows(w, step);
      WriteOneKeeps(w, DecidedRow(w.db.auctions[req.auction].State(), req, id, startedAt), heard);
    case CommitTx(t, heard) => CommitTxKeeps(w, t, heard);
  }

  /** Every other step leaves the bids alone, and of an auctions row changes the
      status at most. */
  lemma QuietStepInsertsNothing(w: World, step: Step, a: Uuid)
    requires Inv(w) && Enabled(w, step) && Inserted(w, step) == [] && a in w.db.auctions
    ensures var w' := Apply(w, step);
            && w'.db.bids == w.db.bids
            && a in w'.db.auctions && w'.db.auctions[a].version == w.db.auctions[a].version
  {
    hide ShardInv, SoundAt, Consistent, TxsInv;
    if step.Land? {
      EmptyBatchCommits(w.db, w.late[step.i], Apply(w, step).db, a);
    }
  }

  lemma EmptyBatchCommits(db: Db, rows: seq<Bid>, db': Db, a: Uuid)
    requires Commits(db, rows, db') && rows == [] && a in db.auctions
    ensures db'.bids == db.bids && a in db'.auctions && db'.auctions[a] == db.auctions[a]
  {
  }

  /** The step either lands nothing of a, or lands all of its rows of a on the
      end of the whole history. */
  lemma StepOnAuction(w: World, step: Step, a: Uuid)
    requires Inv(w) && Enabled(w, step) && a in w.db.auctions
    ensures var w' := Apply(w, step);
            var p := History(Inserted(w, step), a);
            && a in w'.db.auctions
            && History(w'.db.bids, a) == History(w.db.bids, a) + p
            && (p == [] ==> w'.db.auctions[a].version == w.db.auctions[a].version)
            && (p != [] ==> Base(p) == |History(w.db.bids, a)|)
            && (p != [] ==> |History(w.db.bids, a)| < w'.db.auctions[a].version <= |History(w'.db.bids, a)|)
  {
    hide ShardInv, SoundAt, Consistent, TxsInv, Pending;
    var rows := Inserted(w, step);
    assert a in w.open;
    if rows == [] {
      QuietStepInsertsNothing(w, step, a);
      assert History(w.db.bids, a) + [] == History(w.db.bids, a);
    } else {
      InsertingStepCommits(w, step);
      CommitExtends(w.open, w.db, rows, Apply(w, step).db, a);
    }
  }

  /** After a step that inserts one bid of an auction, the row is its history:
      so after every optimistic and every pessimistic accept. */
  lemma SingleBidAgrees(w: World, step: Step, a: Uuid)
    requires Inv(w) && Enabled(w, step) && a in w.db.auctions
    requires |History(Inserted(w, step), a)| == 1
    ensures Agrees(Apply(w, step), a)
  {
    hide Inv, Inserted;
    StepOnAuction(w, step, a);
  }

  /** Exactly: the row agrees with the history after a step if it did before and nothing
      of the auction was inserted, or if the UPDATE took the last of what was. */
  lemma AgreesIffTheLastBidWasTaken(w: World, step: Step, a: Uuid)
    requires Inv(w) && Enabled(w, step) && a in w.db.auctions
    ensures var p, w' := History(Inserted(w, step), a), Apply(w, step);
            && a in w'.db.auctions
            && (Agrees(w', a) <==>
                  if p == [] then Agrees(w, a) else w'.db.auctions[a].version == p[|p| - 1].seqNo)
  {
    hide Inv, Inserted, Enabled, Apply, History, Dense, Kept;
    StepOnAuction(w, step, a);
    var p, w', h := History(Inserted(w, step), a), Apply(w, step), History(w.db.bids, a);
    if p == [] {
      assert h + p == h;
    } else {
      StepKeeps(w, step);
      DenseAfter(w, w', a);
      LastSeq(h, p);
    }
  }

  lemma LastSeq(h: seq<Bid>, p: seq<Bid>)
    requires Dense(h + p) && p != []
    ensures p[|p| - 1].seqNo == |h + p|
  {
    assert (h + p)[|h| + |p| - 1] == p[|p| - 1];
  }

  lemma DenseAfter(w: World, w': World, a: Uuid)
    requires Kept(w, w') && a in w'.db.auctions
    ensures Dense(History(w'.db.bids, a))
  {
    hide ShardInv, Consistent, TxsInv, Pending, Linked, RowAt;
    assert SoundAt(w'.open, w'.db, a);
  }

  /** A batch that can commit is sure to leave an auction it touches on its whole
      history exactly when it holds one bid of it: with two, Postgres may take the
      older one. */
  lemma ACommitIsSureToAgreeIffOneBid(w: World, s: nat, a: Uuid)
    requires Inv(w) && s in w.shards && w.shards[s].batch != []
    requires Free(w, w.shards[s].batch) && Consistent(w.db.auctions, w.db.bids + w.shards[s].batch)
    requires a in w.db.auctions && History(w.shards[s].batch, a) != []
    ensures (forall after :: Enabled(w, CommitAcked(s, after)) ==> Agrees(Apply(w, CommitAcked(s, after)), a))
            <==> |History(w.shards[s].batch, a)| == 1
  {
    hide Inv, Consistent, Free, Apply, Agrees;
    if |History(w.shards[s].batch, a)| == 1 {
      forall after | Enabled(w, CommitAcked(s, after)) ensures Agrees(Apply(w, CommitAcked(s, after)), a) {
        SingleBidAgrees(w, CommitAcked(s, after), a);
      }
    } else {
      var after := TheFirstMayBeTaken(w, s, a);
    }
  }

  lemma TheFirstMayBeTaken(w: World, s: nat, a: Uuid) returns (after: map<Uuid, Auction>)
    requires Inv(w) && s in w.shards && w.shards[s].batch != []
    requires Free(w, w.shards[s].batch) && Consistent(w.db.auctions, w.db.bids + w.shards[s].batch)
    requires a in w.db.auctions && |History(w.shards[s].batch, a)| > 1
    ensures Enabled(w, CommitAcked(s, after)) && !Agrees(Apply(w, CommitAcked(s, after)), a)
  {
    hide ShardInv, Consistent, TxsInv, Pending, Free, SoundAt, Commits, Picking, History;
    var rows := w.shards[s].batch;
    after := Picking(w.db, rows, a, 0);
    WithoutShard(w, s);
    PickingCommits(w.db, rows, a, 0);
    PickedVersion(w.open, w.db, rows, a, 0);
    HistoryConcat(w.db.bids, rows, a);
  }

  /** No step of the run inserts two bids of one auction at once. */
  ghost predicate SingleTouchRun(w: World, run: seq<Step>)
    requires Possible(w, run)
    decreases |run|
  {
    run == [] || (SingleTouch(Inserted(w, run[0])) && SingleTouchRun(Apply(w, run[0]), run[1..]))
  }

  lemma {:induction false} SingleTouchRunAgrees(w: World, run: seq<Step>, a: Uuid)
    requires Inv(w) && Possible(w, run) && SingleTouchRun(w, run)
    requires forall x :: x in w.db.auctions ==> Agrees(w, x)
    requires a in Exec(w, run).db.auctions
    ensures Agrees(Exec(w, run), a)
    decreases |run|
  {
    hide Inv, Inserted;
    if run != [] {
      var w' := Apply(w, run[0]);
      StepIsLater(w, run[0]);
      forall x | x in w'.db.auctions ensures Agrees(w', x) {
        if x in w.db.auctions {
          StepOnAuction(w, run[0], x);
          assert |History(Inserted(w, run[0]), x)| <= 1;
        } else {
          CreatedAgrees(w, run[0], x);
        }
      }
      SingleTouchRunAgrees(w', run[1..], a);
    }
  }

  lemma CreatedAgrees(w: World, step: Step, a: Uuid)
    requires Inv(w) && Enabled(w, step) && a !in w.db.auctions && a in Apply(w, step).db.auctions
    ensures Agrees(Apply(w, step), a)
  {
    hide ShardInv, SoundAt, TxsInv, Pending, Free, Clash;
    NoBidsYet(w.db, a);
  }

  /** The row is where its history is, if there is one. */
  ghost predicate InStep(w: World, a: Uuid) {
    a in w.db.auctions ==> Agrees(w, a)
  }

  lemma InStepAfter(w: World, step: Step, a: Uuid)
    requires Inv(w) && Enabled(w, step)
    ensures var p := History(Inserted(w, step), a);
            InStep(Apply(w, step), a) <==>
              if p == [] then InStep(w, a)
              else a in w.db.auctions && Apply(w, step).db.auctions[a].version == p[|p| - 1].seqNo
    ensures a in w.db.auctions ==> a in Apply(w, step).db.auctions
  {
    hide Inv, Inserted, Enabled, Apply, History;
    if a in w.db.auctions {
      AgreesIffTheLastBidWasTaken(w, step, a);
    } else {
      NothingOfUnknown(w, step, a);
      if a in Apply(w, step).db.auctions {
        CreatedAgrees(w, step, a);
      }
    }
  }

  lemma NothingOfUnknown(w: World, step: Step, a: Uuid)
    requires Inv(w) && Enabled(w, step) && a !in w.db.auctions
    ensures History(Inserted(w, step), a) == []
  {
    hide ShardInv, SoundAt, TxsInv, Free, Inserted, Apply, Enabled, Commits;
    var rows := Inserted(w, step);
    if rows != [] {
      InsertingStepCommits(w, step);
      forall i | 0 <= i < |rows| ensures rows[i].auction != a {
        assert rows[i].auction in w.open;
      }
      NoRowsElsewhere(rows, a);
    }
  }

  /** The last step of the run that inserted bids of the auction left the row on the last
      of them; kept says so of the steps before the run. */
  ghost predicate EndsOnTheLast(w: World, run: seq<Step>, a: Uuid, kept: bool)
    requires Possible(w, run)
    decreases |run|
  {
    if run == [] then kept
    else
      var p, w' := History(Inserted(w, run[0]), a), Apply(w, run[0]);
      EndsOnTheLast(w', run[1..], a,
                    if p == [] then kept
                    else a in w'.db.auctions && w'.db.auctions[a].version == p[|p| - 1].seqNo)
  }

  lemma {:induction false} RunEndsOnTheLast(w: World, run: seq<Step>, a: Uuid)
    requires Inv(w) && Possible(w, run)
    ensures InStep(Exec(w, run), a) <==> EndsOnTheLast(w, run, a, InStep(w, a))
    decreases |run|
  {
    hide Inv, Inserted, History, InStep;
    if run != [] {
      InStepAfter(w, run[0], a);
      InsertsKnown(w, run[0], a);
      StepKeeps(w, run[0]);
      KeptInv(w, Apply(w, run[0]));
      RunEndsOnTheLast(Apply(w, run[0]), run[1..], a);
    }
  }

  lemma InsertsKnown(w: World, step: Step, a: Uuid)
    requires Inv(w) && Enabled(w, step)
    ensures History(Inserted(w, step), a) != [] ==> a in w.db.auctions
  {
    if a !in w.db.auctions {
      NothingOfUnknown(w, step, a);
    }
  }

  /** After any run the published row is exactly the recorded history, count, top and
      winner, if and only if the last write of the auction took its last bid. */
  lemma PublishedStateIsTheHistoryIff(run: seq<Step>, a: Uuid)
    requires Possible(EMPTY, run) && a in Exec(EMPTY, run).db.auctions
    ensures var w := Exec(EMPTY, run);
            var h, row := History(w.db.bids, a), w.db.auctions[a];
            (&& row.version == |h|
             && (h != [] ==> row.highestBid == h[|h| - 1].amount && row.highestBidder == Some(h[|h| - 1].user)))
            <==> EndsOnTheLast(EMPTY, run, a, true)
  {
    hide Inv, Possible, Exec, EndsOnTheLast;
    EmptyInv();
    RunEndsOnTheLast(EMPTY, run, a);
    EveryRunIsReplayable(run, a);
  }

  /** In every run without a doubly touched auction in one batch, the published
      row is exactly the recorded history: count, top and winner of the last bid. */
  lemma PublishedStateIsTheHistory(run: seq<Step>, a: Uuid)
    requires Possible(EMPTY, run) && SingleTouchRun(EMPTY, run)
    requires a in Exec(EMPTY, run).db.auctions
    ensures var w := Exec(EMPTY, run);
            var h := History(w.db.bids, a);
            && w.db.auctions[a].version == |h|
            && (h != [] ==> w.db.auctions[a].highestBid == h[|h| - 1].amount
                            && w.db.auctions[a].highestBidder == Some(h[|h| - 1].user))
  {
    EmptyInv();
    SingleTouchRunAgrees(EMPTY, run, a);
    EveryRunIsReplayable(run, a);
  }
}
