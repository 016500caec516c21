/** The single-writer engine as the code runs it: one goroutine owning a map, an
    inbox and a batch, deciding in memory and committing one statement. The
    decision is a function; the goroutine is a class proved against it. */
module ShardEngine {
  import opened Contract
  import opened Tables
  import opened Ledger
  import W = World

  /* ---- the clock of a shard ---- */

  /** Integer division as Go's time.Duration does it. */
  function HalfTowardZero(d: int): int {
    if d >= 0 then d / 2 else -((-d) / 2)
  }

  /** The database clock minus the local midpoint of the round trip. */
  function Skew(before: Time, after: Time, dbNow: Time): int {
    dbNow - (before + HalfTowardZero(after - before))
  }

  /** The measured skew is off by at most half the round trip, rounded up. */
  lemma SkewErrorIsHalfTheRoundTrip(before: Time, after: Time, readAt: Time, offset: int)
    requires before <= readAt <= after
    ensures -((after - before + 1) / 2) <= Skew(before, after, readAt + offset) - offset <= (after - before + 1) / 2
  {
  }

  /* ---- the decision ---- */

  datatype Cached = Cached(st: AuctionState, highestBidder: Option<Uuid>, skew: int) {
    function Now(local: Time): Time {
      local + skew
    }
  }

  /** A request in the inbox, with what its turn will read: the local clock around
      a hydration, the database clock in it, the local clock at the guard and at
      the stamp, and the id drawn for the bid. */
  datatype Command = Command(
    tag: nat,
    req: Request,
    bidId: Uuid,
    before: Time,
    after: Time,
    dbNow: Time,
    guardAt: Time,
    stampAt: Time)

  datatype Reply = Answer(result: BidResult) | Failed

  datatype Pending = Pending(cmd: Command, row: Bid, current: AuctionState)

  function Rejection(outcome: Outcome, current: Option<AuctionState>): Reply {
    Answer(BidResult(outcome, 0, 0, current))
  }

  function AckOf(p: Pending): Reply {
    Answer(BidResult(Accepted, p.row.seqNo, p.row.id, Some(p.current)))
  }

  datatype Decision = Replied(cache: map<Uuid, Cached>, reply: Reply) | Accepts(cache: map<Uuid, Cached>, p: Pending)

  function Hydrated(row: Auction, cmd: Command): Cached {
    Cached(row.State(), None, Skew(cmd.before, cmd.after, cmd.dbNow))
  }

  function DecideCached(cache: map<Uuid, Cached>, cmd: Command): Decision
    requires cmd.req.auction in cache
  {
    var c := cache[cmd.req.auction];
    if c.st.IsClosed(c.Now(cmd.guardAt)) then
      Replied(cache, Rejection(Closed, Some(c.st)))
    else if cmd.req.amount < c.st.MinNextBid() then
      Replied(cache, Rejection(TooLow, Some(c.st)))
    else
      var st := c.st.(version := c.st.version + 1, highestBid := cmd.req.amount);
      Accepts(
        cache[cmd.req.auction := c.(st := st, highestBidder := Some(cmd.req.user))],
        Pending(cmd, W.DecidedRow(c.st, cmd.req, cmd.bidId, c.Now(cmd.stampAt)), st))
  }

  function DecideOn(cache: map<Uuid, Cached>, auctions: map<Uuid, Auction>, fault: bool, cmd: Command): Decision {
    var a := cmd.req.auction;
    if a in cache then DecideCached(cache, cmd)
    else if fault then Replied(cache, Failed)
    else if a !in auctions then Replied(cache, Rejection(NotFound, None))
    else DecideCached(cache[a := Hydrated(auctions[a], cmd)], cmd)
  }

  /** The state a decision is made on: remembered, or read just before. */
  function DecidedOver(cache: map<Uuid, Cached>, auctions: map<Uuid, Auction>, cmd: Command): Cached
    requires cmd.req.auction in cache || cmd.req.auction in auctions
  {
    if cmd.req.auction in cache then cache[cmd.req.auction] else Hydrated(auctions[cmd.req.auction], cmd)
  }

  /** What a decision is. Without a state: an error exactly when the hydration failed, and
      absent exactly when it ran and found nothing; neither is remembered. Over a state:
      closed, too low or accepted on the corrected clock at the guard, and an accepted bid
      is the next one, stamped with the corrected clock at the stamp. */
  predicate Judges(cache: map<Uuid, Cached>, auctions: map<Uuid, Auction>, fault: bool, cmd: Command, d: Decision) {
    var a := cmd.req.auction;
    if a !in cache && (fault || a !in auctions) then
      d == Replied(cache, if fault then Failed else Answer(BidResult(NotFound, 0, 0, None)))
    else
      var c := DecidedOver(cache, auctions, cmd);
      var over := c.st.status == StatusClosed || cmd.guardAt + c.skew >= c.st.endsAt;
      var short := cmd.req.amount < WrapAdd(c.st.highestBid, c.st.increment);
      var next := AuctionState(c.st.version + 1, cmd.req.amount, c.st.increment, c.st.status, c.st.endsAt);
      if over || short then
        d == Replied(cache[a := c], Answer(BidResult(if over then Closed else TooLow, 0, 0, Some(c.st))))
      else
        d == Accepts(cache[a := Cached(next, Some(cmd.req.user), c.skew)],
                     Pending(cmd, Bid(cmd.bidId, a, cmd.req.user, cmd.req.amount, c.st.version + 1,
                                      KeyColumn(cmd.req.key), cmd.stampAt + c.skew), next))
  }

  lemma TheDecision(cache: map<Uuid, Cached>, auctions: map<Uuid, Auction>, fault: bool, cmd: Command)
    ensures Judges(cache, auctions, fault, cmd, DecideOn(cache, auctions, fault, cmd))
  {
    if cmd.req.auction in cache {
      assert cache[cmd.req.auction := cache[cmd.req.auction]] == cache;
    }
  }

  /* ---- the shard's clock against the database's ---- */

  /** hydrateTimeout, in milliseconds: no round trip that hydrates takes longer. */
  const HYDRATE_TIMEOUT: nat := 5_000

  /** How far apart the two clocks are, and a bound on the error of that measurement. */
  datatype Sync = Sync(offset: int, d: nat)

  const WORST_LAG: nat := HYDRATE_TIMEOUT / 2

  /** The command's hydration, if it needs one, reads the database's clock inside a round
      trip of 2d at most. */
  predicate Timed(cmd: Command, sync: Sync) {
    && cmd.before <= cmd.after <= cmd.before + 2 * sync.d
    && cmd.before + sync.offset <= cmd.dbNow <= cmd.after + sync.offset
  }

  /** Every skew in the map is within d of the true offset. */
  predicate Steady(cache: map<Uuid, Cached>, sync: Sync) {
    forall a :: a in cache ==> sync.offset - sync.d <= cache[a].skew <= sync.offset + sync.d
  }

  /** The instant of the guard on the database's own clock. */
  function GuardedAt(cmd: Command, sync: Sync): Time {
    cmd.guardAt + sync.offset
  }

  lemma HydratedIsSteady(row: Auction, cmd: Command, sync: Sync)
    requires Timed(cmd, sync)
    ensures sync.offset - sync.d <= Hydrated(row, cmd).skew <= sync.offset + sync.d
  {
    SkewErrorIsHalfTheRoundTrip(cmd.before, cmd.after, cmd.dbNow - sync.offset, sync.offset);
  }

  /** However long ago the skew was measured: a decision keeps every skew in bounds, and
      but for d around the end it finds the auction over exactly when the database's own
      clock does. */
  lemma ClosingAgreesAwayFromTheEnd(cache: map<Uuid, Cached>, auctions: map<Uuid, Auction>, fault: bool, cmd: Command,
                                    sync: Sync)
    requires Steady(cache, sync) && Timed(cmd, sync)
    ensures Steady(DecideOn(cache, auctions, fault, cmd).cache, sync)
    ensures cmd.req.auction in cache || (!fault && cmd.req.auction in auctions) ==>
              var st := DecidedOver(cache, auctions, cmd).st;
              var at := GuardedAt(cmd, sync);
              var d := DecideOn(cache, auctions, fault, cmd);
              var closed := d.Replied? && d.reply == Rejection(Closed, Some(st));
              && (closed ==> st.status == StatusClosed || st.endsAt <= at + sync.d)
              && (!closed ==> st.status == StatusOpen && at < st.endsAt + sync.d)
              && (at + sync.d < st.endsAt || st.endsAt + sync.d <= at ==> (closed <==> st.IsClosed(at)))
  {
    if cmd.req.auction in auctions {
      HydratedIsSteady(auctions[cmd.req.auction], cmd, sync);
    }
  }

  /* ---- the same commands, decided and committed one at a time ---- */

  datatype Reference = Reference(db: Db, cache: map<Uuid, Cached>, replies: map<nat, Reply>)

  function OneMore(r: Reference, cmd: Command): Reference {
    match DecideOn(r.cache, r.db.auctions, false, cmd)
    case Replied(cache, reply) => Reference(r.db, cache, r.replies[cmd.tag := reply])
    case Accepts(cache, p) =>
      Reference(
        if p.row.auction in r.db.auctions then Write(r.db, p.row) else r.db,
        cache, r.replies[cmd.tag := AckOf(p)])
  }

  function OneByOne(r: Reference, cmds: seq<Command>): Reference {
    if cmds == [] then r
    else OneMore(OneByOne(r, cmds[..|cmds| - 1]), cmds[|cmds| - 1])
  }

  function Rows(batch: seq<Pending>): (rows: seq<Bid>)
    ensures |rows| == |batch| && forall i :: 0 <= i < |batch| ==> rows[i] == batch[i].row
  {
    seq(|batch|, i requires 0 <= i < |batch| => batch[i].row)
  }

  /** The replies after every command of the batch has been answered. */
  function AckAll(replies: map<nat, Reply>, batch: seq<Pending>): map<nat, Reply> {
    if batch == [] then replies
    else
      var last := batch[|batch| - 1];
      AckAll(replies, batch[..|batch| - 1])[last.cmd.tag := AckOf(last)]
  }

  function FailAll(replies: map<nat, Reply>, batch: seq<Pending>): map<nat, Reply> {
    if batch == [] then replies
    else FailAll(replies, batch[..|batch| - 1])[batch[|batch| - 1].cmd.tag := Failed]
  }

  function EvictAll(cache: map<Uuid, Cached>, batch: seq<Pending>): map<Uuid, Cached> {
    if batch == [] then cache
    else EvictAll(cache, batch[..|batch| - 1]) - {batch[|batch| - 1].row.auction}
  }

  lemma {:induction false} EvictAllIsSteady(cache: map<Uuid, Cached>, batch: seq<Pending>, sync: Sync)
    requires Steady(cache, sync)
    ensures Steady(EvictAll(cache, batch), sync)
  {
    if batch != [] {
      EvictAllIsSteady(cache, batch[..|batch| - 1], sync);
    }
  }

  lemma {:induction false} OneByOneIsSteady(r: Reference, cmds: seq<Command>, sync: Sync)
    requires Steady(r.cache, sync) && forall i :: 0 <= i < |cmds| ==> Timed(cmds[i], sync)
    ensures Steady(OneByOne(r, cmds).cache, sync)
  {
    hide Steady, Timed, DecideOn, Write;
    if cmds != [] {
      var before := OneByOne(r, cmds[..|cmds| - 1]);
      OneByOneIsSteady(r, cmds[..|cmds| - 1], sync);
      ClosingAgreesAwayFromTheEnd(before.cache, before.db.auctions, false, cmds[|cmds| - 1], sync);
    }
  }

  function Tags(batch: seq<Pending>): set<nat> {
    set p | p in batch :: p.cmd.tag
  }

  function CommandTags(cmds: seq<Command>): set<nat> {
    set c | c in cmds :: c.tag
  }

  predicate DistinctTags(cmds: seq<Command>) {
    forall i, j :: 0 <= i < j < |cmds| ==> cmds[i].tag != cmds[j].tag
  }

  predicate DistinctPending(batch: seq<Pending>) {
    forall i, j :: 0 <= i < j < |batch| ==> batch[i].cmd.tag != batch[j].cmd.tag
  }

  /* ---- the database behind the pool ---- */

  /** What befalls one statement: it runs, it fails, or it commits and the answer
      is lost. */
  datatype Fault = Runs | Fails | Misreported

  /** The tables, with each auction as it was inserted; no statement reads that. */
  datatype Found = Found(open: map<Uuid, Auction>, db: Db)

  /** What the rest of the system may make of the tables between two statements of one
      shard: the other engines and shards, the closer, new auctions, and batches of its
      own that were reported as failed and land after all. */
  predicate Reaches(x: Found, y: Found) {
    && Sound(y.open, y.db) && Grows(x.open, x.db, y.db) && x.db.bids <= y.db.bids
    && forall a :: a in x.open ==> a in y.open && y.open[a] == x.open[a]
  }

  /** One statement: what it finds, and what becomes of it. Tables that cannot be reached
      are not found. A script that has run out means that everything runs and nobody
      else acts. */
  datatype Turn = Turn(fault: Fault, found: Option<Found>)

  /** What becomes of the k-th statement of a script. */
  function FaultAt(script: seq<Turn>, k: nat): Fault {
    if k < |script| then script[k].fault else Runs
  }

  /** And the tables it finds, from those at the statement before it. */
  function FoundAt(x: Found, script: seq<Turn>, k: nat): Found {
    if k < |script| && script[k].found.Some? && Reaches(x, script[k].found.value) then script[k].found.value else x
  }

  predicate SameOrReached(x: Found, y: Found) {
    x == y || Reaches(x, y)
  }

  lemma ReachedIsReflexive(x: Found)
    ensures SameOrReached(x, x)
  {
  }

  lemma ReachedIsTransitive(x: Found, y: Found, z: Found)
    requires SameOrReached(x, y) && SameOrReached(y, z)
    ensures SameOrReached(x, z)
  {
    hide Sound;
    if Reaches(x, y) && Reaches(y, z) {
      forall a | a in x.open && a in x.db.auctions && a in z.db.auctions ensures GrowsAt(x.open, x.db, z.db, a) {
        assert GrowsAt(x.open, x.db, y.db, a) && GrowsAt(y.open, y.db, z.db, a);
      }
    }
  }

  class Pool {
    var open: map<Uuid, Auction>
    var db: Db
    var script: seq<Turn>

    constructor (open: map<Uuid, Auction>, db: Db, script: seq<Turn>)
      ensures this.open == open && this.db == db && this.script == script
    {
      this.open, this.db, this.script := open, db, script;
    }

    function Here(): Found
      reads this
    {
      Found(open, db)
    }

    method NextTurn() returns (fault: Fault)
      modifies this
      ensures SameOrReached(old(Here()), Here())
      ensures fault == FaultAt(old(script), 0) && Here() == FoundAt(old(Here()), old(script), 0)
      ensures old(script) == [] ==> Here() == old(Here())
      ensures script == if old(script) == [] then [] else old(script)[1..]
    {
      if script == [] {
        return Runs;
      }
      var turn := script[0];
      fault, script := turn.fault, script[1..];
      if turn.found.Some? && Reaches(Here(), turn.found.value) {
        open, db := turn.found.value.open, turn.found.value.db;
      }
    }

    /** The same inside a transaction that holds the row of a and the entries of rows it
        has inserted: others wait for both. */
    method NextTurnHolding(a: Uuid, rows: seq<Bid>) returns (fault: Fault)
      requires a in db.auctions && (rows == [] || Consistent(db.auctions, db.bids + rows))
      modifies this
      ensures SameOrReached(old(Here()), Here())
      ensures a in db.auctions && db.auctions[a] == old(db.auctions[a])
      ensures rows == [] || Consistent(db.auctions, db.bids + rows)
      ensures fault == FaultAt(old(script), 0)
      ensures script == if old(script) == [] then [] else old(script)[1..]
      ensures old(script) == [] ==> Here() == old(Here())
      ensures var y := FoundAt(old(Here()), old(script), 0);
              Here() == if a in y.db.auctions && y.db.auctions[a] == old(db.auctions[a])
                           && (rows == [] || Consistent(y.db.auctions, y.db.bids + rows)) then y else old(Here())
    {
      hide Consistent, Reaches;
      if script == [] {
        return Runs;
      }
      var turn := script[0];
      fault, script := turn.fault, script[1..];
      if turn.found.Some? && Reaches(Here(), turn.found.value) {
        var there := turn.found.value.db;
        if a in there.auctions && there.auctions[a] == db.auctions[a]
           && (rows == [] || Consistent(there.auctions, there.bids + rows)) {
          open, db := turn.found.value.open, there;
        }
      }
    }

    /** hydrateQuery. */
    method ReadAuction(a: Uuid) returns (err: bool, row: Option<Auction>)
      modifies this
      ensures SameOrReached(old(Here()), Here())
      ensures err <==> FaultAt(old(script), 0) != Runs
      ensures Here() == FoundAt(old(Here()), old(script), 0)
      ensures script == if old(script) == [] then [] else old(script)[1..]
      ensures !err ==> row == if a in db.auctions then Some(db.auctions[a]) else None
    {
      hide Reaches;
      var fault := NextTurn();
      err, row := fault != Runs, None;
      if !err && a in db.auctions {
        row := Some(db.auctions[a]);
      }
    }

    /** commitBatch, on the tables it finds: all of it or nothing, and which of several
        rows of one auction the UPDATE keeps is left open. */
    method CommitBatch(rows: seq<Bid>) returns (err: bool, ghost found: Found)
      modifies this
      ensures SameOrReached(old(Here()), found) && open == found.open
      ensures found == FoundAt(old(Here()), old(script), 0) && (old(script) == [] ==> found == old(Here()))
      ensures script == if old(script) == [] then [] else old(script)[1..]
      ensures var takes := Consistent(found.db.auctions, found.db.bids + rows);
              && (err <==> FaultAt(old(script), 0) != Runs || !takes)
              && if FaultAt(old(script), 0) != Fails && takes then Commits(found.db, rows, db) else db == found.db
    {
      hide Reaches;
      var fault := NextTurn();
      found := Here();
      if fault == Fails || !Consistent(db.auctions, db.bids + rows) {
        return true, found;
      }
      forall i | 0 <= i < |rows| ensures rows[i].auction in db.auctions {
        assert Admissible(db.auctions, (db.bids + rows)[|db.bids| + i]);
      }
      var auctions := UpdateFrom(rows);
      db := Db(auctions, db.bids + rows);
      err := fault == Misreported;
    }

    method UpdateFrom(rows: seq<Bid>) returns (auctions: map<Uuid, Auction>)
      requires forall i :: 0 <= i < |rows| ==> rows[i].auction in db.auctions
      ensures UpdatedFrom(db.auctions, rows, auctions)
    {
      auctions := db.auctions;
      var touched: set<Uuid> := {};
      for i := 0 to |rows|
        invariant auctions.Keys == db.auctions.Keys
        invariant forall a :: a in db.auctions && a !in touched ==>
                    auctions[a] == db.auctions[a] && forall k :: 0 <= k < i ==> rows[k].auction != a
        invariant forall a :: a in touched ==>
                    a in db.auctions && exists k ::
                      0 <= k < i && rows[k].auction == a && auctions[a] == Stamp(db.auctions[a], rows[k])
      {
        var a := rows[i].auction;
        if a !in touched {
          auctions, touched := auctions[a := Stamp(db.auctions[a], rows[i])], touched + {a};
        } else if * {
          auctions := auctions[a := Stamp(db.auctions[a], rows[i])];
        }
      }
    }
  }
}
