/** Every participant as one step machine over the two tables: any number of
    shards (of any number of processes), optimistic calls, pessimistic
    transactions and closings, interleaved at the granularity of their statements,
    with crashes, aborted commits, commits whose success was reported as a failure
    and commits that are still in flight when the failure is reported. */
module World {
  import opened Contract
  import opened Tables
  import opened Ledger

  const BATCH_MAX: nat := 256

  /** One shard goroutine: its map of auctions and its open batch. */
  datatype Shard = Shard(cache: map<Uuid, AuctionState>, batch: seq<Bid>)

  /** One pessimistic transaction. Holding has the locked read, Inserting has
      updated the row and waits for its INSERT, Written waits for its COMMIT. */
  datatype Tx =
    | Waiting(req: Request, id: Uuid, begunAt: Time)
    | Holding(req: Request, id: Uuid, begunAt: Time, st: AuctionState, readAt: Time)
    | Inserting(row: Bid)
    | Written(row: Bid)
  {
    function Held(): Option<Uuid> {
      match this
      case Waiting(_, _, _) => None
      case Holding(req, _, _, _, _) => Some(req.auction)
      case Inserting(row) => Some(row.auction)
      case Written(row) => Some(row.auction)
    }
  }

  datatype World = World(
    open: map<Uuid, Auction>,   // each auction as it was inserted; nothing reads it
    db: Db,
    clock: Time,                // of the database
    shards: map<nat, Shard>,
    late: seq<seq<Bid>>,        // batches reported as failed that may still land
    txs: map<nat, Tx>,
    acks: set<Bid>)             // what each 201 so far has named

  datatype Step =
    | Create(a: Uuid, o: Auction)
    | Tick(d: nat)
    | Boot(s: nat)
    | Hydrate(s: nat, a: Uuid)
    | Decide(s: nat, req: Request, id: Uuid, guardAt: Time, stampAt: Time)
    | CommitAcked(s: nat, after: map<Uuid, Auction>)
    | CommitMisreported(s: nat, after: map<Uuid, Auction>)
    | CommitInFlight(s: nat)
    | CommitAborted(s: nat)
    | Land(i: nat, after: map<Uuid, Auction>)
    | Drop(i: nat)
    | Crash(s: nat)
    | Optimistic(req: Request, expected: nat, id: Uuid, startedAt: Time, heard: bool)
    | Begin(t: nat, req: Request, id: Uuid)
    | Lock(t: nat, readAt: Time)
    | Update(t: nat)
    | Insert(t: nat)
    | CommitTx(t: nat, heard: bool)
    | Rollback(t: nat)
    | Close(a: Uuid, d: nat)

  /* readAt of Lock is the clock_timestamp() of the locked read. It is computed when the
     row is fetched and again only if the row changed while the statement waited, so it
     may be from before the wait: any instant from the transaction's begin on. */

  /** No row lock and no pending unique entry of a transaction is in the way. */
  ghost predicate Free(w: World, rows: seq<Bid>) {
    forall t, i :: t in w.txs && 0 <= i < |rows| ==> OutOfTheWay(w.txs[t], rows[i])
  }

  ghost predicate OutOfTheWay(tx: Tx, b: Bid) {
    tx.Held() != Some(b.auction) && (tx.Written? ==> !Clash(b, tx.row))
  }

  ghost predicate Unlocked(w: World, a: Uuid) {
    forall t :: t in w.txs ==> w.txs[t].Held() != Some(a)
  }

  function DecidedRow(st: AuctionState, req: Request, id: Uuid, at: Time): Bid {
    Bid(id, req.auction, req.user, req.amount, st.version + 1, KeyColumn(req.key), at)
  }

  /** The WHERE of the optimistic UPDATE; the sum is SQL's, which cannot wrap. */
  predicate OptimisticGuard(row: Auction, req: Request, expected: nat, startedAt: Time) {
    && row.version == expected
    && row.status == StatusOpen
    && startedAt < row.endsAt
    && row.highestBid + row.increment <= req.amount
  }

  ghost predicate Enabled(w: World, step: Step) {
    match step
    case Create(a, o) => a !in w.db.auctions && Opening(o)
    case Tick(_) => true
    case Boot(s) => s !in w.shards
    case Hydrate(s, a) => s in w.shards && a in w.db.auctions && a !in w.shards[s].cache
    case Decide(s, req, id, guardAt, stampAt) =>
      && s in w.shards
      && |w.shards[s].batch| < BATCH_MAX
      && req.auction in w.shards[s].cache
      && !w.shards[s].cache[req.auction].IsClosed(guardAt)
      && req.amount >= w.shards[s].cache[req.auction].MinNextBid()
    case CommitAcked(s, after) => CanCommit(w, s, after)
    case CommitMisreported(s, after) => CanCommit(w, s, after)
    case CommitInFlight(s) => s in w.shards && w.shards[s].batch != []
    case CommitAborted(s) => s in w.shards && w.shards[s].batch != []
    case Land(i, after) => i < |w.late| && CanWrite(w, w.late[i], after)
    case Drop(i) => i < |w.late|
    case Crash(s) => s in w.shards
    case Optimistic(req, expected, id, startedAt, heard) =>
      && startedAt <= w.clock
      && req.auction in w.db.auctions
      && OptimisticGuard(w.db.auctions[req.auction], req, expected, startedAt)
      && var b := DecidedRow(w.db.auctions[req.auction].State(), req, id, startedAt);
         Free(w, [b]) && Consistent(w.db.auctions, w.db.bids + [b])
    case Begin(t, req, id) => t !in w.txs
    case Lock(t, readAt) =>
      && t in w.txs && w.txs[t].Waiting?
      && w.txs[t].begunAt <= readAt <= w.clock
      && w.txs[t].req.auction in w.db.auctions
      && Unlocked(w, w.txs[t].req.auction)
    case Update(t) =>
      && t in w.txs && w.txs[t].Holding?
      && w.txs[t].req.auction in w.db.auctions
      && !w.txs[t].st.IsClosed(w.txs[t].readAt)
      && w.txs[t].req.amount >= w.txs[t].st.MinNextBid()
    case Insert(t) =>
      && t in w.txs && w.txs[t].Inserting?
      && Consistent(w.db.auctions, w.db.bids + [w.txs[t].row])
      && forall u :: u in w.txs && w.txs[u].Written? ==> !Clash(w.txs[t].row, w.txs[u].row)
    case CommitTx(t, heard) =>
      && t in w.txs && w.txs[t].Written?
      && w.txs[t].row.auction in w.db.auctions
    case Rollback(t) => t in w.txs
    case Close(a, _) =>
      && a in w.db.auctions && Unlocked(w, a)
      && w.db.auctions[a].status == StatusOpen && w.db.auctions[a].endsAt <= w.clock
  }

  ghost predicate CanWrite(w: World, rows: seq<Bid>, after: map<Uuid, Auction>) {
    Free(w, rows) && Commits(w.db, rows, Db(after, w.db.bids + rows))
  }

  ghost predicate CanCommit(w: World, s: nat, after: map<Uuid, Auction>) {
    s in w.shards && w.shards[s].batch != [] && CanWrite(w, w.shards[s].batch, after)
  }

  /** An accept moves the cached top and joins the open batch. */
  function WithDecided(sh: Shard, b: Bid): Shard
    requires b.auction in sh.cache
  {
    var st := sh.cache[b.auction].(version := b.seqNo, highestBid := b.amount);
    Shard(sh.cache[b.auction := st], sh.batch + [b])
  }

  /** Delete the batch's auctions from the map, as every failed commit does. */
  function Evicted(sh: Shard): Shard {
    Shard(map a | a in sh.cache && History(sh.batch, a) == [] :: sh.cache[a], [])
  }

  function Landed(w: World, rows: seq<Bid>, after: map<Uuid, Auction>): World {
    w.(db := Db(after, w.db.bids + rows))
  }

  function WriteOne(w: World, b: Bid, heard: bool): World
    requires b.auction in w.db.auctions
  {
    w.(db := Write(w.db, b), acks := if heard then w.acks + {b} else w.acks)
  }

  ghost function Apply(w: World, step: Step): World
    requires Enabled(w, step)
  {
    match step
    case Create(a, o) => w.(open := w.open[a := o], db := Db(w.db.auctions[a := o], w.db.bids))
    case Tick(d) => w.(clock := w.clock + d)
    case Boot(s) => w.(shards := w.shards[s := Shard(map[], [])])
    case Hydrate(s, a) =>
      var sh := w.shards[s];
      w.(shards := w.shards[s := sh.(cache := sh.cache[a := w.db.auctions[a].State()])])
    case Decide(s, req, id, guardAt, stampAt) =>
      var sh := w.shards[s];
      var st := sh.cache[req.auction];
      w.(shards := w.shards[s := WithDecided(sh, DecidedRow(st, req, id, stampAt))])
    case CommitAcked(s, after) =>
      var sh := w.shards[s];
      Landed(w, sh.batch, after).(
        shards := w.shards[s := sh.(batch := [])],
        acks := w.acks + set i | 0 <= i < |sh.batch| :: sh.batch[i])
    case CommitMisreported(s, after) =>
      Landed(w, w.shards[s].batch, after).(shards := w.shards[s := Evicted(w.shards[s])])
    case CommitInFlight(s) =>
      w.(shards := w.shards[s := Evicted(w.shards[s])], late := w.late + [w.shards[s].batch])
    case CommitAborted(s) => w.(shards := w.shards[s := Evicted(w.shards[s])])
    case Land(i, after) => Landed(w, w.late[i], after).(late := w.late[..i] + w.late[i + 1..])
    case Drop(i) => w.(late := w.late[..i] + w.late[i + 1..])
    case Crash(s) => w.(shards := w.shards - {s}, late := w.late + [w.shards[s].batch])
    case Optimistic(req, expected, id, startedAt, heard) =>
      WriteOne(w, DecidedRow(w.db.auctions[req.auction].State(), req, id, startedAt), heard)
    case Begin(t, req, id) => w.(txs := w.txs[t := Waiting(req, id, w.clock)])
    case Lock(t, readAt) =>
      var tx := w.txs[t];
      w.(txs := w.txs[t := Holding(tx.req, tx.id, tx.begunAt, w.db.auctions[tx.req.auction].State(), readAt)])
    case Update(t) =>
      var tx := w.txs[t];
      w.(txs := w.txs[t := Inserting(DecidedRow(w.db.auctions[tx.req.auction].State(), tx.req, tx.id, tx.begunAt))])
    case Insert(t) => w.(txs := w.txs[t := Written(w.txs[t].row)])
    case CommitTx(t, heard) => WriteOne(w.(txs := w.txs - {t}), w.txs[t].row, heard)
    case Rollback(t) => w.(txs := w.txs - {t})
    case Close(a, d) =>
      var row := w.db.auctions[a].(status := StatusClosed, closedAt := Some(w.clock + d));
      w.(clock := w.clock + d, db := Db(w.db.auctions[a := row], w.db.bids))
  }

  ghost predicate Possible(w: World, run: seq<Step>)
    decreases |run|
  {
    run == [] || (Enabled(w, run[0]) && Possible(Apply(w, run[0]), run[1..]))
  }

  ghost function Exec(w: World, run: seq<Step>): World
    requires Possible(w, run)
    decreases |run|
  {
    if run == [] then w else Exec(Apply(w, run[0]), run[1..])
  }

  const EMPTY := World(map[], Db(map[], []), 0, map[], [], map[], {})

  /* ---- what every step keeps ---- */

  /** A cached state is what its open bids leave over a durable prefix: memory is
      ahead of the database by the open batch and by nothing else. */
  predicate Tracks(o: Auction, h: seq<Bid>, p: seq<Bid>, st: AuctionState) {
    && |p| <= st.version <= |h| + |p|
    && var q := h[..st.version - |p|] + p;
    && Valid(o, q)
    && st.highestBid == TopAt(o, q, st.version)
    && st.increment == o.increment && st.endsAt == o.endsAt
  }

  ghost predicate ShardInv(open: map<Uuid, Auction>, db: Db, sh: Shard) {
    && |sh.batch| <= BATCH_MAX
    && (forall i :: 0 <= i < |sh.batch| ==> sh.batch[i].auction in sh.cache)
    && forall a :: a in sh.cache ==>
         a in open && Tracks(open[a], History(db.bids, a), History(sh.batch, a), sh.cache[a])
  }

  /** A bid decided over an open auction's row as it stands. */
  predicate Follows(db: Db, b: Bid) {
    && b.auction in db.auctions
    && db.auctions[b.auction].status == StatusOpen
    && b.seqNo == db.auctions[b.auction].version + 1
    && b.amount >= db.auctions[b.auction].State().MinNextBid()
  }

  ghost predicate TxInv(db: Db, tx: Tx) {
    match tx
    case Waiting(_, _, _) => true
    case Holding(req, _, _, st, _) => req.auction in db.auctions && db.auctions[req.auction].State() == st
    case Inserting(row) => Follows(db, row)
    case Written(row) => Follows(db, row) && Consistent(db.auctions, db.bids + [row])
  }

  /** Two transactions never hold one row, nor one unique entry. */
  ghost predicate Apart(t1: Tx, t2: Tx) {
    && (t1.Held().Some? ==> t1.Held() != t2.Held())
    && (t1.Written? && t2.Written? ==> !Clash(t1.row, t2.row))
  }

  ghost predicate TxsInv(db: Db, txs: map<nat, Tx>) {
    && (forall t :: t in txs ==> TxInv(db, txs[t]))
    && (forall t, u :: t in txs && u in txs && t != u ==> Apart(txs[t], txs[u]))
  }

  ghost predicate Inv(w: World) {
    && Sound(w.open, w.db)
    && (forall s :: s in w.shards ==> ShardInv(w.open, w.db, w.shards[s]))
    && (forall i :: 0 <= i < |w.late| ==> Pending(w.open, w.db, w.late[i]))
    && TxsInv(w.db, w.txs)
    && (forall b :: b in w.acks ==> b in w.db.bids)
  }

  lemma TrackedIsPending(open: map<Uuid, Auction>, db: Db, sh: Shard)
    requires ShardInv(open, db, sh)
    ensures Pending(open, db, sh.batch)
  {
    forall a | a in open && History(sh.batch, a) != []
      ensures OnPrefix(open[a], History(db.bids, a), History(sh.batch, a))
    {
      var i := HistoryPosition(sh.batch, a, 0);
      assert sh.batch[i].auction in sh.cache;
      TracksOnPrefix(open[a], History(db.bids, a), History(sh.batch, a), sh.cache[a]);
    }
  }

  lemma TracksOnPrefix(o: Auction, h: seq<Bid>, p: seq<Bid>, st: AuctionState)
    requires Tracks(o, h, p, st) && p != []
    ensures OnPrefix(o, h, p) && Base(p) == st.version - |p|
  {
    var b := st.version - |p|;
    assert (h[..b] + p)[b] == p[0];
  }

  lemma TracksSurvives(o: Auction, h: seq<Bid>, h': seq<Bid>, p: seq<Bid>, st: AuctionState)
    requires Tracks(o, h, p, st) && h <= h'
    ensures Tracks(o, h', p, st)
  {
    assert h[..st.version - |p|] == h'[..st.version - |p|];
  }

  lemma ShardSurvives(open: map<Uuid, Auction>, db: Db, db': Db, sh: Shard)
    requires ShardInv(open, db, sh) && Grows(open, db, db')
    requires open.Keys == db.auctions.Keys && open.Keys == db'.auctions.Keys
    ensures ShardInv(open, db', sh)
  {
    forall a | a in sh.cache
      ensures Tracks(open[a], History(db'.bids, a), History(sh.batch, a), sh.cache[a])
    {
      TracksSurvives(open[a], History(db.bids, a), History(db'.bids, a), History(sh.batch, a), sh.cache[a]);
    }
  }

  lemma TxsSurvive(w: World, rows: seq<Bid>, db': Db)
    requires Sound(w.open, w.db) && TxsInv(w.db, w.txs)
    requires Commits(w.db, rows, db') && Free(w, rows)
    ensures TxsInv(db', w.txs)
  {
    forall t | t in w.txs ensures TxInv(db', w.txs[t]) {
      var tx := w.txs[t];
      if tx.Held().Some? {
        assert TxInv(w.db, tx);
        assert forall i :: 0 <= i < |rows| ==> OutOfTheWay(tx, rows[i]);
        assert tx.Held().value in w.db.auctions;
        assert db'.auctions[tx.Held().value] == w.db.auctions[tx.Held().value];
        if tx.Written? {
          WrittenSurvives(w.db, rows, db', tx.row);
        }
      }
    }
  }

  lemma WrittenSurvives(db: Db, rows: seq<Bid>, db': Db, b: Bid)
    requires Commits(db, rows, db') && Consistent(db.auctions, db.bids + [b])
    requires forall i :: 0 <= i < |rows| ==> !Clash(rows[i], b)
    ensures Consistent(db'.auctions, db'.bids + [b])
  {
    ConsistentTogether(db.auctions, db.bids, rows, b);
    SameKeysSameConsistency(db.auctions, db'.auctions, db'.bids + [b]);
  }

  lemma SameKeysSameConsistency(auctions: map<Uuid, Auction>, auctions': map<Uuid, Auction>, bids: seq<Bid>)
    requires Consistent(auctions, bids) && auctions.Keys <= auctions'.Keys
    ensures Consistent(auctions', bids)
  {
    forall i | 0 <= i < |bids| ensures Admissible(auctions', bids[i]) {
      assert Admissible(auctions, bids[i]);
    }
  }

  /** The one fact behind every accepting step of every engine. */
  lemma InsertionKeepsInv(w: World, rows: seq<Bid>, db': Db)
    requires Inv(w) && Pending(w.open, w.db, rows)
    requires Commits(w.db, rows, db') && Free(w, rows)
    ensures Inv(w.(db := db')) && Grows(w.open, w.db, db')
  {
    CommitKeepsSound(w.open, w.db, rows, db');
    TxsSurvive(w, rows, db');
    forall s | s in w.shards ensures ShardInv(w.open, db', w.shards[s]) {
      ShardSurvives(w.open, w.db, db', w.shards[s]);
    }
    forall i | 0 <= i < |w.late| ensures Pending(w.open, db', w.late[i]) {
      PendingSurvives(w.open, w.db, db', w.late[i]);
    }
  }
}
