/** One bid through each of the three engines with nothing in between: the
    optimistic statement and its classification, the pessimistic transaction, and
    the shard with a batch of one. */
module Engines {
  import opened Contract
  import opened Tables
  import W = World
  import S = ShardEngine

  datatype Reply = Decided(result: BidResult) | Error

  function Rejected(outcome: Outcome, current: Option<AuctionState>): Reply {
    Decided(BidResult(outcome, 0, 0, current))
  }

  function AcceptedAs(b: Bid, increment: Int64): Reply {
    Decided(BidResult(Accepted, b.seqNo, b.id,
                      Some(AuctionState(b.seqNo, b.amount, increment, StatusOpen, 0))))
  }

  /** SQL refuses the sum that Go would wrap. */
  predicate Overflows(row: Auction) {
    row.highestBid + row.increment > MAX_INT64
  }

  /** What the statement returns: seq and min_increment_cents, or no row. */
  datatype Statement = NoRows | Refused | Wrote(db: Db, row: Bid, increment: Int64)

  function OptimisticUpdate(db: Db, req: Request, expected: nat, id: Uuid, at: Time): Statement {
    var a := req.auction;
    if a !in db.auctions then NoRows
    else
      var row := db.auctions[a];
      if row.version != expected || row.status != StatusOpen || at >= row.endsAt then NoRows
      else if Overflows(row) then Refused
      else if row.highestBid + row.increment > req.amount then NoRows
      else
        var b := W.DecidedRow(row.State(), req, id, at);
        if Consistent(db.auctions, db.bids + [b]) then Wrote(Write(db, b), b, row.increment) else Refused
  }

  /** The decision table over the fresh read. */
  function Classify(db: Db, req: Request, expected: nat, at: Time): Reply {
    if req.auction !in db.auctions then Rejected(NotFound, None)
    else
      var st := db.auctions[req.auction].State();
      if st.IsClosed(at) then Rejected(Closed, Some(st))
      else if st.version != expected then Rejected(Conflict, Some(st))
      else if req.amount < st.MinNextBid() then Rejected(TooLow, Some(st))
      else Rejected(Conflict, Some(st))
  }

  /** What a rejection says of the row it was read from: absent, over, moved since the
      client's version or else priced in time for it, or short of the minimum. */
  predicate Names(db: Db, req: Request, expected: nat, readAt: Time, r: BidResult) {
    && r.seqNo == 0 && r.bidId == 0
    && (r.outcome == NotFound <==> req.auction !in db.auctions)
    && (req.auction !in db.auctions ==> r.current == None)
    && (req.auction in db.auctions ==>
          var row := db.auctions[req.auction];
          var over := row.status == StatusClosed || readAt >= row.endsAt;
          var short := req.amount < WrapAdd(row.highestBid, row.increment);
          && r.current == Some(AuctionState(row.version, row.highestBid, row.increment, row.status, row.endsAt))
          && (r.outcome == Closed <==> over)
          && (r.outcome == Conflict <==> !over && (row.version != expected || !short))
          && (r.outcome == TooLow <==> !over && row.version == expected && short))
  }

  lemma ClassifyNamesTheReason(db: Db, req: Request, expected: nat, readAt: Time)
    ensures var reply := Classify(db, req, expected, readAt);
            reply.Decided? && Names(db, req, expected, readAt, reply.result)
  {
  }

  function OptimisticBid(db: Db, req: Request, expected: Option<nat>, id: Uuid, at: Time): (Db, Reply) {
    if expected.None? then (db, Rejected(Invalid, None))
    else
      match OptimisticUpdate(db, req, expected.value, id, at)
      case NoRows => (db, Classify(db, req, expected.value, at))
      case Refused => (db, Error)
      case Wrote(db', b, increment) => (db', AcceptedAs(b, increment))
  }

  function PessimisticBid(db: Db, req: Request, id: Uuid, at: Time): (Db, Reply) {
    if req.auction !in db.auctions then (db, Rejected(NotFound, None))
    else
      var st := db.auctions[req.auction].State();
      if st.IsClosed(at) then (db, Rejected(Closed, Some(st)))
      else if req.amount < st.MinNextBid() then (db, Rejected(TooLow, Some(st)))
      else
        var b := W.DecidedRow(st, req, id, at);
        if Consistent(db.auctions, db.bids + [b])
        then (Write(db, b), AcceptedAs(b, st.increment))
        else (db, Error)
  }

  function ShardBid(db: Db, cache: map<Uuid, S.Cached>, cmd: S.Command): (Db, map<Uuid, S.Cached>, Reply) {
    match S.DecideOn(cache, db.auctions, false, cmd)
    case Replied(cache', reply) => (db, cache', if reply.Answer? then Decided(reply.result) else Error)
    case Accepts(cache', p) =>
      if p.row.auction in db.auctions && Consistent(db.auctions, db.bids + [p.row])
      then (Write(db, p.row), cache', Decided(S.AckOf(p).result))
      else (db, cache' - {p.row.auction}, Error)
  }

  /* ---- one outcome whatever the engine ---- */

  /** What the envelope publishes of a state: the version, the top and the increment. */
  predicate SamePublished(x: Option<AuctionState>, y: Option<AuctionState>) {
    match (x, y)
    case (None, None) => true
    case (Some(s), Some(t)) => s.version == t.version && s.highestBid == t.highestBid && s.increment == t.increment
    case _ => false
  }

  predicate SameAnswer(x: Reply, y: Reply) {
    match (x, y)
    case (Error, Error) => true
    case (Decided(r), Decided(s)) =>
      r.outcome == s.outcome && r.seqNo == s.seqNo && r.bidId == s.bidId && SamePublished(r.current, s.current)
    case _ => false
  }

  /** The shard's memory of an auction is its row. */
  predicate Fresh(db: Db, cache: map<Uuid, S.Cached>, offset: int) {
    forall a :: a in cache ==> a in db.auctions && cache[a].st == db.auctions[a].State() && cache[a].skew == offset
  }

  /** The shard's corrected clock reads the instant at, for guard and stamp. */
  predicate ReadsAt(cmd: S.Command, offset: int, at: Time) {
    && S.Skew(cmd.before, cmd.after, cmd.dbNow) == offset
    && cmd.guardAt + offset == at && cmd.stampAt + offset == at
  }

  /** With an up-to-date version the optimistic engine and the pessimistic one do
      the same thing, unless SQL refuses the sum that Go wraps, on an auction still
      open and for a bid whose row the constraints would take. */
  lemma OptimisticIsPessimistic(db: Db, req: Request, id: Uuid, at: Time)
    requires req.auction in db.auctions ==>
               0 <= db.auctions[req.auction].highestBid && 0 < db.auctions[req.auction].increment
    requires 0 < req.amount
    ensures var v := if req.auction in db.auctions then db.auctions[req.auction].version else 0;
            var (dbO, rO), (dbP, rP) := OptimisticBid(db, req, Some(v), id, at), PessimisticBid(db, req, id, at);
            dbO == dbP && SameAnswer(rO, rP) <==> !OnlyGoTakes(db, req, id, at)
  {
    hide Consistent;
  }

  /** The guard of the branch on which the two engines part. */
  predicate OnlyGoTakes(db: Db, req: Request, id: Uuid, at: Time) {
    && req.auction in db.auctions
    && var row := db.auctions[req.auction];
       && !row.State().IsClosed(at)
       && Overflows(row)
       && Consistent(db.auctions, db.bids + [W.DecidedRow(row.State(), req, id, at)])
  }

  /** And the shard with a fresh memory does what the pessimistic engine does. */
  lemma ShardIsPessimistic(db: Db, cache: map<Uuid, S.Cached>, cmd: S.Command, offset: int, at: Time)
    requires Fresh(db, cache, offset) && ReadsAt(cmd, offset, at)
    ensures var (dbS, cacheS, rS), (dbP, rP) := ShardBid(db, cache, cmd), PessimisticBid(db, cmd.req, cmd.bidId, at);
            && dbS == dbP && SameAnswer(rS, rP) && Fresh(dbS, cacheS, offset)
  {
    hide Consistent, S.Skew;
    var a := cmd.req.auction;
    if a in cache {
      CachedIsPessimistic(db, cache, cmd, offset, at);
    } else if a in db.auctions {
      CachedIsPessimistic(db, cache[a := S.Hydrated(db.auctions[a], cmd)], cmd, offset, at);
    }
  }

  lemma CachedIsPessimistic(db: Db, cache: map<Uuid, S.Cached>, cmd: S.Command, offset: int, at: Time)
    requires Fresh(db, cache, offset) && ReadsAt(cmd, offset, at) && cmd.req.auction in cache
    ensures var (dbS, cacheS, rS), (dbP, rP) := ShardBid(db, cache, cmd), PessimisticBid(db, cmd.req, cmd.bidId, at);
            && dbS == dbP && SameAnswer(rS, rP) && Fresh(dbS, cacheS, offset)
  {
    hide Consistent, S.Skew;
    assert cache[cmd.req.auction].st == db.auctions[cmd.req.auction].State();
  }

  /* ---- whole traces ---- */

  datatype Attempt = Attempt(cmd: S.Command, at: Time)

  /** The optimistic client of a sequential trace is up to date. */
  function OptimisticTrace(db: Db, trace: seq<Attempt>): (r: (Db, seq<Reply>))
    ensures |r.1| == |trace|
    decreases |trace|
  {
    if trace == [] then (db, [])
    else
      var x := trace[0];
      var v := if x.cmd.req.auction in db.auctions then db.auctions[x.cmd.req.auction].version else 0;
      var (db', reply) := OptimisticBid(db, x.cmd.req, Some(v), x.cmd.bidId, x.at);
      var (db'', rest) := OptimisticTrace(db', trace[1..]);
      (db'', [reply] + rest)
  }

  function PessimisticTrace(db: Db, trace: seq<Attempt>): (r: (Db, seq<Reply>))
    ensures |r.1| == |trace|
    decreases |trace|
  {
    if trace == [] then (db, [])
    else
      var x := trace[0];
      var (db', reply) := PessimisticBid(db, x.cmd.req, x.cmd.bidId, x.at);
      var (db'', rest) := PessimisticTrace(db', trace[1..]);
      (db'', [reply] + rest)
  }

  function ShardTrace(db: Db, cache: map<Uuid, S.Cached>, trace: seq<Attempt>): (r: (Db, seq<Reply>))
    ensures |r.1| == |trace|
    decreases |trace|
  {
    if trace == [] then (db, [])
    else
      var (db', cache', reply) := ShardBid(db, cache, trace[0].cmd);
      var (db'', rest) := ShardTrace(db', cache', trace[1..]);
      (db'', [reply] + rest)
  }

  /** Every bid leaves room for the next minimum in an int64. */
  predicate Roomy(db: Db) {
    forall a :: a in db.auctions ==>
      && 0 <= db.auctions[a].highestBid && 0 < db.auctions[a].increment
      && !Overflows(db.auctions[a])
  }

  predicate Fits(db: Db, req: Request) {
    0 < req.amount && (req.auction in db.auctions ==> req.amount + db.auctions[req.auction].increment <= MAX_INT64)
  }

  predicate SameIncrements(db: Db, db': Db) {
    && db.auctions.Keys == db'.auctions.Keys
    && forall a :: a in db.auctions ==> db.auctions[a].increment == db'.auctions[a].increment
  }

  lemma BidStaysRoomy(db: Db, req: Request, id: Uuid, at: Time)
    requires Roomy(db) && Fits(db, req)
    ensures Roomy(PessimisticBid(db, req, id, at).0) && SameIncrements(db, PessimisticBid(db, req, id, at).0)
  {
    hide Consistent;
  }

  /** On any sequential trace the three engines give the same outcomes, numbers and
      ids, and leave the same tables. */
  lemma {:induction false} ThreeEnginesAgree(db: Db, cache: map<Uuid, S.Cached>, trace: seq<Attempt>, offset: int)
    requires Roomy(db) && Fresh(db, cache, offset) && Sequential(db, trace, offset)
    ensures OptimisticTrace(db, trace).0 == PessimisticTrace(db, trace).0 == ShardTrace(db, cache, trace).0
    ensures SameAnswers(OptimisticTrace(db, trace).1, PessimisticTrace(db, trace).1)
    ensures SameAnswers(ShardTrace(db, cache, trace).1, PessimisticTrace(db, trace).1)
    decreases |trace|
  {
    if trace != [] {
      hide Sequential, Roomy, Fresh, Consistent, OptimisticBid, PessimisticBid, ShardBid, SameAnswer, SameAnswers;
      var x := trace[0];
      var v := if x.cmd.req.auction in db.auctions then db.auctions[x.cmd.req.auction].version else 0;
      FirstAgrees(db, cache, trace, offset);
      var (db', reply) := PessimisticBid(db, x.cmd.req, x.cmd.bidId, x.at);
      var cache' := ShardBid(db, cache, x.cmd).1;
      ThreeEnginesAgree(db', cache', trace[1..], offset);
      var rest := PessimisticTrace(db', trace[1..]).1;
      OneMoreAnswer(OptimisticBid(db, x.cmd.req, Some(v), x.cmd.bidId, x.at).1, reply,
                    OptimisticTrace(db', trace[1..]).1, rest);
      OneMoreAnswer(ShardBid(db, cache, x.cmd).2, reply, ShardTrace(db', cache', trace[1..]).1, rest);
    }
  }

  predicate SameAnswers(xs: seq<Reply>, ys: seq<Reply>) {
    |xs| == |ys| && forall i :: 0 <= i < |xs| ==> SameAnswer(xs[i], ys[i])
  }

  lemma OneMoreAnswer(x: Reply, y: Reply, xs: seq<Reply>, ys: seq<Reply>)
    requires SameAnswer(x, y) && SameAnswers(xs, ys)
    ensures SameAnswers([x] + xs, [y] + ys)
  {
  }

  /** Every amount fits, and every reading of the shard's clock is the instant of
      the attempt. */
  predicate Sequential(db: Db, trace: seq<Attempt>, offset: int) {
    forall i :: 0 <= i < |trace| ==> Fits(db, trace[i].cmd.req) && ReadsAt(trace[i].cmd, offset, trace[i].at)
  }

  lemma FirstAgrees(db: Db, cache: map<Uuid, S.Cached>, trace: seq<Attempt>, offset: int)
    requires trace != [] && Roomy(db) && Fresh(db, cache, offset) && Sequential(db, trace, offset)
    ensures var x := trace[0];
            var v := if x.cmd.req.auction in db.auctions then db.auctions[x.cmd.req.auction].version else 0;
            var (dbO, rO) := OptimisticBid(db, x.cmd.req, Some(v), x.cmd.bidId, x.at);
            var (dbP, rP) := PessimisticBid(db, x.cmd.req, x.cmd.bidId, x.at);
            var (dbS, cacheS, rS) := ShardBid(db, cache, x.cmd);
            && dbO == dbP == dbS && SameAnswer(rO, rP) && SameAnswer(rS, rP)
            && Roomy(dbP) && Fresh(dbP, cacheS, offset) && Sequential(dbP, trace[1..], offset)
  {
    hide Consistent, OptimisticBid, PessimisticBid, ShardBid, Overflows, ReadsAt, SameAnswer;
    var x := trace[0];
    RoomyHasRoom(db);
    AcceptsOnlyKnown(db, x.cmd.req, x.cmd.bidId, x.at);
    OptimisticIsPessimistic(db, x.cmd.req, x.cmd.bidId, x.at);
    ShardIsPessimistic(db, cache, x.cmd, offset, x.at);
    BidStaysRoomy(db, x.cmd.req, x.cmd.bidId, x.at);
    SequentialRest(db, PessimisticBid(db, x.cmd.req, x.cmd.bidId, x.at).0, trace, offset);
  }

  lemma AcceptsOnlyKnown(db: Db, req: Request, id: Uuid, at: Time)
    ensures var r := PessimisticBid(db, req, id, at).1;
            r.Decided? && r.result.outcome == Accepted ==> req.auction in db.auctions
  {
  }

  lemma SequentialRest(db: Db, db': Db, trace: seq<Attempt>, offset: int)
    requires trace != [] && Sequential(db, trace, offset) && SameIncrements(db, db')
    ensures Sequential(db', trace[1..], offset)
  {
    var rest := trace[1..];
    forall i | 0 <= i < |rest| ensures Fits(db', rest[i].cmd.req) && ReadsAt(rest[i].cmd, offset, rest[i].at) {
      assert rest[i] == trace[i + 1];
      assert Fits(db, trace[i + 1].cmd.req);
    }
  }

  lemma RoomyHasRoom(db: Db)
    requires Roomy(db)
    ensures forall a :: a in db.auctions ==> !Overflows(db.auctions[a])
  {
  }
}
