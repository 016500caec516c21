/** Pessimistic transactions under their locks: exclusion, the locked read that
    cannot go stale, and why nobody waits forever. */
module Locks {
  import opened Contract
  import opened Tables
  import opened Ledger
  import opened World
  import opened Guarantees
  import opened Stuck

  /* ---- exclusion ---- */

  /** At most one transaction holds an auction's row; what it read under the lock
      is the row until its own write; and the unguarded write follows that read. */
  lemma TheLockIsTheGuard(run: seq<Step>, t: nat, u: nat)
    requires Possible(EMPTY, run)
    requires t in Exec(EMPTY, run).txs && u in Exec(EMPTY, run).txs
    ensures var w := Exec(EMPTY, run);
            && (w.txs[t].Held().Some? && w.txs[t].Held() == w.txs[u].Held() ==> t == u)
            && (w.txs[t].Holding? ==>
                  var a := w.txs[t].req.auction;
                  a in w.db.auctions && w.db.auctions[a].State() == w.txs[t].st)
            && ((w.txs[t].Inserting? || w.txs[t].Written?) ==> Follows(w.db, w.txs[t].row))
  {
    hide ShardInv, Sound, Pending, Consistent;
    EmptyInv();
    RunIsLater(EMPTY, run);
    var w := Exec(EMPTY, run);
    assert TxInv(w.db, w.txs[t]);
    assert t != u ==> Apart(w.txs[t], w.txs[u]);
  }

  /** Runs with no shard: the optimistic and pessimistic engines, closings, time. */
  ghost predicate NoShard(run: seq<Step>) {
    forall i :: 0 <= i < |run| ==> !run[i].Boot?
  }

  lemma {:induction false} NoShardInsertsOneByOne(w: World, run: seq<Step>)
    requires Possible(w, run) && NoShard(run) && w.shards == map[] && w.late == []
    ensures SingleTouchRun(w, run) && Exec(w, run).shards == map[] && Exec(w, run).late == []
    decreases |run|
  {
    if run != [] {
      SingleInsertion(w, run[0]);
      NoShardInsertsOneByOne(Apply(w, run[0]), run[1..]);
    }
  }

  lemma SingleInsertion(w: World, step: Step)
    requires Enabled(w, step) && !step.Boot? && w.shards == map[] && w.late == []
    ensures SingleTouch(Inserted(w, step))
    ensures Apply(w, step).shards == map[] && Apply(w, step).late == []
  {
    hide Free, Consistent;
    var rows := Inserted(w, step);
    if rows != [] {
      forall a ensures |History(rows, a)| <= 1 {
        HistoryOfOne(rows[0], a);
      }
    }
  }

  /** Without shards UNIQUE (auction_id, seq) never fires: the INSERT of a
      transaction can only be refused for its amount, its id or its key. */
  lemma SeqNeverCollidesWithoutShards(run: seq<Step>, t: nat)
    requires Possible(EMPTY, run) && NoShard(run)
    requires t in Exec(EMPTY, run).txs && Exec(EMPTY, run).txs[t].Inserting?
    ensures var w := Exec(EMPTY, run);
            var b := w.txs[t].row;
            && Agrees(w, b.auction)
            && b.seqNo == |History(w.db.bids, b.auction)| + 1
            && (0 < b.amount && KeyAndIdFree(w.db.bids, b) ==> Consistent(w.db.auctions, w.db.bids + [b]))
  {
    hide ShardInv, Pending, SoundAt, Consistent;
    var w := Exec(EMPTY, run);
    EmptyInv();
    RunIsLater(EMPTY, run);
    assert TxInv(w.db, w.txs[t]);
    NoShardInsertsOneByOne(EMPTY, run);
    SingleTouchRunAgrees(EMPTY, run, w.txs[t].row.auction);
    if 0 < w.txs[t].row.amount && KeyAndIdFree(w.db.bids, w.txs[t].row) {
      NextBidLandsIffRowAgrees(w, w.txs[t].row);
    }
  }

  /* ---- waiting ---- */

  /** Transactions, and closings that queue for a row. */
  datatype Party = Transaction(t: nat) | Closing(a: Uuid)

  /** p cannot go on before q ends: it queues for a row q holds, or its INSERT
      waits for q's uncommitted entry under the same unique value. */
  ghost predicate WaitsFor(w: World, p: Party, q: Party) {
    && q.Transaction? && q.t in w.txs
    && match p
       case Closing(a) => w.txs[q.t].Held() == Some(a)
       case Transaction(t) =>
         t in w.txs &&
         match w.txs[t]
         case Waiting(req, _, _) => w.txs[q.t].Held() == Some(req.auction)
         case Inserting(row) => t != q.t && w.txs[q.t].Written? && Clash(row, w.txs[q.t].row)
         case _ => false
  }

  function Rank(w: World, p: Party): nat {
    match p
    case Closing(_) => 3
    case Transaction(t) =>
      if t !in w.txs then 0
      else match w.txs[t]
           case Waiting(_, _, _) => 2
           case Inserting(_) => 1
           case _ => 0
  }

  ghost predicate Chain(w: World, chain: seq<Party>) {
    forall i {:trigger chain[i]} :: 0 <= i < |chain| - 1 ==> WaitsFor(w, chain[i], chain[i + 1])
  }

  /** A waiter holds nothing anybody waits for, except that an INSERT in waiting
      holds its row; the order is row queue, unique queue, nobody. */
  lemma WaitingGoesDown(w: World, p: Party, q: Party)
    requires WaitsFor(w, p, q)
    ensures Rank(w, q) < Rank(w, p)
  {
  }

  lemma {:induction false} ChainGoesDown(w: World, chain: seq<Party>, i: nat)
    requires Chain(w, chain) && i < |chain|
    ensures Rank(w, chain[i]) + i <= Rank(w, chain[0])
  {
    if i > 0 {
      ChainGoesDown(w, chain, i - 1);
      assert WaitsFor(w, chain[i - 1], chain[i]);
      WaitingGoesDown(w, chain[i - 1], chain[i]);
    }
  }

  /** No deadlock: a chain of waiting is never longer than four parties and never
      comes back to where it started. */
  lemma NoCycleOfWaiting(w: World, chain: seq<Party>)
    requires Chain(w, chain) && |chain| >= 2
    ensures |chain| <= 4 && chain[0] != chain[|chain| - 1]
  {
    ChainGoesDown(w, chain, |chain| - 1);
  }

  ghost predicate Blocked(w: World, p: Party) {
    exists q :: WaitsFor(w, p, q)
  }

  /** From every waiting party there is a way to one that nobody blocks. */
  lemma {:induction false} SomebodyCanStep(w: World, p: Party) returns (q: Party)
    requires p.Transaction? && p.t in w.txs
    ensures q.Transaction? && q.t in w.txs && !Blocked(w, q)
    decreases Rank(w, p)
  {
    q := p;
    if Blocked(w, p) {
      var r :| WaitsFor(w, p, r);
      WaitingGoesDown(w, p, r);
      q := SomebodyCanStep(w, r);
    }
  }

  /** Nobody has begun in the future. */
  predicate BegunInThePast(w: World) {
    forall t :: t in w.txs && w.txs[t].Waiting? ==> w.txs[t].begunAt <= w.clock
  }

  lemma {:induction false} RunsBeginInThePast(w: World, run: seq<Step>)
    requires BegunInThePast(w) && Possible(w, run)
    ensures BegunInThePast(Exec(w, run))
    decreases |run|
  {
    if run != [] {
      StepBeginsInThePast(w, run[0]);
      RunsBeginInThePast(Apply(w, run[0]), run[1..]);
    }
  }

  lemma StepBeginsInThePast(w: World, step: Step)
    requires BegunInThePast(w) && Enabled(w, step)
    ensures BegunInThePast(Apply(w, step))
  {
    hide Free, Commits, Consistent;
  }

  /** What an unblocked transaction can do next, short of giving up: take the
      lock, write or answer its rejection, insert, or commit. */
  lemma UnblockedCanGoOn(w: World, t: nat)
    requires Inv(w) && BegunInThePast(w) && t in w.txs && !Blocked(w, Transaction(t))
    ensures match w.txs[t]
            case Waiting(req, _, _) => req.auction in w.db.auctions ==> Enabled(w, Lock(t, w.clock))
            case Holding(req, _, _, st, readAt) =>
              Enabled(w, Update(t)) <==> !st.IsClosed(readAt) && req.amount >= st.MinNextBid()
            case Inserting(row) => Enabled(w, Insert(t)) <==> Consistent(w.db.auctions, w.db.bids + [row])
            case Written(row) => Enabled(w, CommitTx(t, true))
  {
    hide ShardInv, Sound, Pending, Consistent, Clash, Free, Commits, Apart;
    assert TxInv(w.db, w.txs[t]);
    match w.txs[t]
    case Waiting(req, _, _) =>
      forall u | u in w.txs ensures w.txs[u].Held() != Some(req.auction) {
        assert !WaitsFor(w, Transaction(t), Transaction(u));
      }
    case Inserting(row) =>
      forall u | u in w.txs && w.txs[u].Written? ensures !Clash(row, w.txs[u].row) {
        assert !WaitsFor(w, Transaction(t), Transaction(u));
      }
    case _ =>
  }
}
