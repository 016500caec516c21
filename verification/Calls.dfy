/** The optimistic and the pessimistic engine statement by statement, each statement
    finding whatever the rest of the system has made of the tables by then, and running,
    failing, or committing unheard. */
module Calls {
  import opened Contract
  import opened Tables
  import opened Ledger
  import opened Engines
  import S = ShardEngine
  import Optimism
  import Safety
  import W = World

  /** The account of a call: the tables right before and right after the one instant at
      which it may have written, and whether it did. */
  datatype Call = Call(before: S.Found, after: S.Found, wrote: bool)

  /** The row of the bid that a call would write over these tables. */
  function RowOver(db: Db, req: Request, id: Uuid, at: Time): Bid
    requires req.auction in db.auctions
  {
    W.DecidedRow(db.auctions[req.auction].State(), req, id, at)
  }

  /** Up to that instant and after it only the others acted; at it this call wrote its
      bid, both tables or neither, over the row as it then stood. */
  ghost predicate Happened(start: S.Found, call: Call, end: S.Found, req: Request, id: Uuid, at: Time) {
    && S.SameOrReached(start, call.before) && S.SameOrReached(call.after, end)
    && call.after.open == call.before.open
    && if call.wrote then
         && req.auction in call.before.db.auctions
         && Commits(call.before.db, [RowOver(call.before.db, req, id, at)], call.after.db)
       else call.after == call.before
  }

  predicate Matches(db: Db, req: Request, expected: nat, at: Time) {
    req.auction in db.auctions && W.OptimisticGuard(db.auctions[req.auction], req, expected, at)
  }

  /** SQL evaluates the sum only for a row that the conditions before it let through. */
  predicate SumFails(db: Db, req: Request, expected: nat, at: Time) {
    && req.auction in db.auctions
    && var row := db.auctions[req.auction];
       row.version == expected && row.status == StatusOpen && at < row.endsAt && Overflows(row)
  }

  /** The constraints let the bid be written over these tables. */
  predicate Takes(db: Db, req: Request, id: Uuid, at: Time) {
    req.auction in db.auctions && Consistent(db.auctions, db.bids + [RowOver(db, req, id, at)])
  }

  datatype Returned = Lost | Nothing | Row(seqNo: nat, increment: Int64)

  class Optimistic {
    const pool: S.Pool

    constructor (pool: S.Pool)
      ensures this.pool == pool
    {
      this.pool := pool;
    }

    /** placeBid, over the tables it finds: it writes, the bid and the row together,
        exactly where it matches the row and the constraints take the bid; no row comes
        back exactly where it ran and matched none; and an answer is lost only with the
        statement, with a sum that SQL refuses, or with a constraint. */
    method Place(req: Request, expected: nat, id: Uuid, at: Time) returns (s: Returned, ghost call: Call)
      modifies pool
      ensures Happened(old(pool.Here()), call, pool.Here(), req, id, at) && pool.Here() == call.after
      ensures call.before == S.FoundAt(old(pool.Here()), old(pool.script), 0)
      ensures pool.script == if old(pool.script) == [] then [] else old(pool.script)[1..]
      ensures var fault := S.FaultAt(old(pool.script), 0);
              var matches := Matches(call.before.db, req, expected, at);
              var takes := matches && Takes(call.before.db, req, id, at);
              && (call.wrote <==> takes && fault != S.Fails)
              && (s.Row? <==> takes && fault == S.Runs)
              && (s.Nothing? <==> !matches && !SumFails(call.before.db, req, expected, at) && fault == S.Runs)
      ensures s.Row? ==> s == Row(expected + 1, call.before.db.auctions[req.auction].increment)
    {
      hide Consistent, S.Reaches, UpdatedFrom;
      var fault := pool.NextTurn();
      call := Call(pool.Here(), pool.Here(), false);
      if fault == S.Fails {
        return Lost, call;
      }
      if req.auction in pool.db.auctions {
        var row := pool.db.auctions[req.auction];
        if row.version == expected && row.status == StatusOpen && at < row.endsAt {
          if Overflows(row) {
            return Lost, call;
          }
          if row.highestBid + row.increment <= req.amount {
            var b := W.DecidedRow(row.State(), req, id, at);
            if !Consistent(pool.db.auctions, pool.db.bids + [b]) {
              return Lost, call;
            }
            pool.db := Write(pool.db, b);
            call := Call(call.before, pool.Here(), true);
            return if fault == S.Misreported then Lost else Row(b.seqNo, row.increment), call;
          }
        }
      }
      s := if fault == S.Misreported then Lost else Nothing;
    }

    /** PlaceBid. It is accepted, and answered with the bid it wrote, exactly where its
        statement ran, matched the row and was taken; it is an error exactly where a
        statement failed, the sum overflowed or a constraint refused the bid; otherwise it
        has written nothing, and the answer says why of the row that the second statement
        read, and why the first one matched nothing if the version was ever published. */
    method PlaceBid(req: Request, expected: Option<nat>, id: Uuid, startedAt: Time, readAt: Time)
      returns (reply: Reply, ghost call: Call)
      requires Sound(pool.open, pool.db) && startedAt <= readAt
      modifies pool
      ensures Happened(old(pool.Here()), call, pool.Here(), req, id, startedAt)
      ensures expected.None? ==> !call.wrote && reply == Decided(BidResult(Invalid, 0, 0, None))
      ensures expected.Some? ==>
                && call.before == S.FoundAt(old(pool.Here()), old(pool.script), 0)
                && var first, second := S.FaultAt(old(pool.script), 0), S.FaultAt(old(pool.script), 1);
                   var matches := Matches(call.before.db, req, expected.value, startedAt);
                   var takes := matches && Takes(call.before.db, req, id, startedAt);
                   && (call.wrote <==> takes && first != S.Fails)
                   && (IsAccepted(reply) <==> takes && first == S.Runs)
                   && (reply.Error? <==>
                         || first != S.Runs || SumFails(call.before.db, req, expected.value, startedAt)
                         || if matches then !takes else second != S.Runs)
      ensures IsAccepted(reply) ==>
                reply == AcceptedAs(RowOver(call.before.db, req, id, startedAt),
                                    call.before.db.auctions[req.auction].increment)
      ensures reply.Decided? && expected.Some? && !IsAccepted(reply) ==>
                && pool.Here() == S.FoundAt(call.before, Later(old(pool.script)), 0)
                && Names(pool.db, req, expected.value, readAt, reply.result)
                && (req.auction in call.before.db.auctions
                    && expected.value <= call.before.db.auctions[req.auction].version ==>
                      TheReason(call.before.db, pool.db, req, expected.value, startedAt, readAt, reply.result.outcome))
      ensures old(pool.script) == [] && startedAt == readAt ==>
                (pool.db, reply) == OptimisticBid(old(pool.db), req, expected, id, startedAt)
    {
      hide Consistent, S.Reaches, UpdatedFrom, Commits, Sound;
      call := Call(pool.Here(), pool.Here(), false);
      if expected.None? {
        return Rejected(Invalid, None), call;
      }
      var s;
      s, call := Place(req, expected.value, id, startedAt);
      if call.wrote {
        WriteIsTheOnlyOutcome(call.before.db, RowOver(call.before.db, req, id, startedAt), call.after.db);
      }
      match s
      case Lost => reply := Error;
      case Row(seqNo, increment) =>
        reply := Decided(BidResult(Accepted, seqNo, id,
                                   Some(AuctionState(seqNo, req.amount, increment, StatusOpen, 0))));
      case Nothing =>
        var fault := pool.NextTurn();
        if fault != S.Runs {
          return Error, call;
        }
        reply := Classify(pool.db, req, expected.value, readAt);
        ClassifyNamesTheReason(pool.db, req, expected.value, readAt);
        if req.auction in call.before.db.auctions
           && expected.value <= call.before.db.auctions[req.auction].version {
          TheReasonHolds(old(pool.Here()), call.before, pool.Here(), req, expected.value, id, startedAt, readAt);
        }
    }
  }

  class Pessimistic {
    const pool: S.Pool

    constructor (pool: S.Pool)
      ensures this.pool == pool
    {
      this.pool := pool;
    }

    /** The write and the commit, of a transaction that holds the row: it stays as it was
        locked, and the bid over it is written exactly where the two statements run and the
        constraints take it; or the commit does and its answer is lost. */
    method Write(req: Request, row: Auction, id: Uuid, begunAt: Time) returns (err: bool, ghost call: Call)
      requires req.auction in pool.db.auctions && pool.db.auctions[req.auction] == row
      modifies pool
      ensures Happened(old(pool.Here()), call, pool.Here(), req, id, begunAt) && pool.Here() == call.after
      ensures SameRow(old(pool.db), call.before.db, req.auction)
      ensures var placed := S.FaultAt(old(pool.script), 0) == S.Runs && Takes(call.before.db, req, id, begunAt);
              var fault := S.FaultAt(old(pool.script), 1);
              (call.wrote <==> placed && fault != S.Fails) && (err <==> !(placed && fault == S.Runs))
      ensures call.wrote ==> pool.db == Tables.Write(call.before.db, RowOver(call.before.db, req, id, begunAt))
      ensures old(pool.script) == [] ==> pool.script == [] && call.before == old(pool.Here())
    {
      hide Consistent, S.SameOrReached, S.Reaches, UpdatedFrom, Commits, S.FoundAt;
      var fault := pool.NextTurnHolding(req.auction, []);
      call := Call(pool.Here(), pool.Here(), false);
      S.ReachedIsReflexive(pool.Here());
      var b := Bid(id, req.auction, req.user, req.amount, row.version + 1, KeyColumn(req.key), begunAt);
      if fault != S.Runs || !Consistent(pool.db.auctions, pool.db.bids + [b]) {
        return true, call;
      }

      ghost var here := pool.Here();
      fault := pool.NextTurnHolding(req.auction, [b]);
      S.ReachedIsTransitive(old(pool.Here()), here, pool.Here());
      S.ReachedIsReflexive(pool.Here());
      call := Call(pool.Here(), pool.Here(), false);
      if fault == S.Fails {
        return true, call;
      }
      pool.db := Tables.Write(pool.db, b);
      call := Call(call.before, pool.Here(), true);
      S.ReachedIsReflexive(pool.Here());
      err := fault == S.Misreported;
    }

    /** PlaceBid: begin, locked read, write, commit. What it decides on is the row that
        the locked read found, still there at the commit, since nobody else could move it.
        It is accepted, and answered with the bid it wrote, exactly where the four
        statements ran, the row is open, the amount is enough and the constraints take the
        bid; it is an error exactly where a statement that it came to failed or a constraint
        refused the bid; otherwise it has written nothing and the answer is true of the row. */
    method PlaceBid(req: Request, id: Uuid, begunAt: Time, readAt: Time) returns (reply: Reply, ghost call: Call)
      modifies pool
      ensures Happened(old(pool.Here()), call, pool.Here(), req, id, begunAt)
      ensures S.FaultAt(old(pool.script), 0) == S.FaultAt(old(pool.script), 1) == S.Runs ==>
                var begun := S.FoundAt(old(pool.Here()), old(pool.script), 0);
                SameRow(S.FoundAt(begun, Later(old(pool.script)), 0).db, call.before.db, req.auction)
      ensures var script := old(pool.script);
              var read := S.FaultAt(script, 0) == S.FaultAt(script, 1) == S.Runs;
              var enough := Enough(call.before.db, req, readAt);
              var placed := read && enough && S.FaultAt(script, 2) == S.Runs && Takes(call.before.db, req, id, begunAt);
              && (call.wrote <==> placed && S.FaultAt(script, 3) != S.Fails)
              && (IsAccepted(reply) <==> placed && S.FaultAt(script, 3) == S.Runs)
              && (reply.Error? <==> !read || (enough && !(placed && S.FaultAt(script, 3) == S.Runs)))
      ensures IsAccepted(reply) ==>
                reply == AcceptedAs(RowOver(call.before.db, req, id, begunAt),
                                    call.before.db.auctions[req.auction].increment)
      ensures reply.Decided? && !IsAccepted(reply) ==> IsVerdict(call.before.db, req, readAt, reply.result)
      ensures old(pool.script) == [] && begunAt == readAt ==>
                pool.script == [] && (pool.db, reply) == PessimisticBid(old(pool.db), req, id, begunAt)
    {
      hide Consistent, S.SameOrReached, S.Reaches, UpdatedFrom, Commits, S.FoundAt, WrapAdd;
      var fault := pool.NextTurn();
      S.ReachedIsReflexive(pool.Here());
      call := Call(pool.Here(), pool.Here(), false);
      if fault != S.Runs {
        return Error, call;
      }
      ghost var here := pool.Here();
      fault := pool.NextTurn();
      S.ReachedIsTransitive(old(pool.Here()), here, pool.Here());
      S.ReachedIsReflexive(pool.Here());
      call := Call(pool.Here(), pool.Here(), false);
      if fault != S.Runs {
        return Error, call;
      }
      if req.auction !in pool.db.auctions {
        return Rejected(NotFound, None), call;
      }
      var row := pool.db.auctions[req.auction];
      var st := row.State();
      if st.IsClosed(readAt) {
        return Rejected(Closed, Some(st)), call;
      }
      if req.amount < st.MinNextBid() {
        return Rejected(TooLow, Some(st)), call;
      }

      var err;
      here := pool.Here();
      err, call := Write(req, row, id, begunAt);
      S.ReachedIsTransitive(old(pool.Here()), here, call.before);
      if err {
        return Error, call;
      }
      reply := Decided(BidResult(Accepted, row.version + 1, id,
                                 Some(AuctionState(row.version + 1, req.amount, st.increment, StatusOpen, 0))));
    }
  }

  function Later(script: seq<S.Turn>): seq<S.Turn> {
    if script == [] then [] else script[1..]
  }

  predicate IsAccepted(reply: Reply) {
    reply.Decided? && reply.result.outcome == Accepted
  }

  /** The row is there, open on the clock of the read, and the amount reaches its minimum. */
  predicate Enough(db: Db, req: Request, readAt: Time) {
    && req.auction in db.auctions
    && var row := db.auctions[req.auction];
       row.status == StatusOpen && readAt < row.endsAt && req.amount >= WrapAdd(row.highestBid, row.increment)
  }

  predicate SameRow(db: Db, db': Db, a: Uuid) {
    if a in db.auctions then a in db'.auctions && db'.auctions[a] == db.auctions[a] else a !in db'.auctions
  }

  /** A rejection that is true of the row, and carries it. */
  predicate IsVerdict(db: Db, req: Request, readAt: Time, r: BidResult) {
    && r.seqNo == 0 && r.bidId == 0
    && if req.auction !in db.auctions then r.outcome == NotFound && r.current.None?
       else
         var row := db.auctions[req.auction];
         && r.current == Some(AuctionState(row.version, row.highestBid, row.increment, row.status, row.endsAt))
         && r.outcome == (if row.status == StatusClosed || readAt >= row.endsAt then Closed else TooLow)
         && (r.outcome == TooLow ==> req.amount < WrapAdd(row.highestBid, row.increment))
  }

  /** Why a rejected UPDATE matched nothing, and what the read found. */
  predicate TheReason(db: Db, db2: Db, req: Request, expected: nat, startedAt: Time, readAt: Time, outcome: Outcome) {
    && req.auction in db.auctions && req.auction in db2.auctions
    && var row, row2 := db.auctions[req.auction], db2.auctions[req.auction];
       && (outcome == TooLow ==>
             && row.version == expected && row.status == StatusOpen && startedAt < row.endsAt
             && req.amount < row.highestBid + row.increment)
       && (outcome == Conflict ==> row2.version != expected)
  }

  lemma TheReasonHolds(start: S.Found, before: S.Found, end: S.Found, req: Request, expected: nat, id: Uuid,
                       startedAt: Time, readAt: Time)
    requires Sound(start.open, start.db) && S.SameOrReached(start, before) && S.SameOrReached(before, end)
    requires !Matches(before.db, req, expected, startedAt) && !SumFails(before.db, req, expected, startedAt)
    requires startedAt <= readAt
    requires req.auction in before.db.auctions && expected <= before.db.auctions[req.auction].version
    ensures var reply := Classify(end.db, req, expected, readAt);
            reply.Decided? && TheReason(before.db, end.db, req, expected, startedAt, readAt, reply.result.outcome)
  {
    hide Consistent, RowAt, Valid;
    var a := req.auction;
    assert Sound(before.open, before.db);
    assert SoundAt(before.open, before.db, a);
    SoundTops(before, a);
    Safety.GrowsReflexive(before.open, before.db);
    assert a in end.db.auctions && GrowsAt(before.open, before.db, end.db, a);
    Optimism.TheReasonIsReal(before.open, before.db, end.db, req, expected, id, startedAt, readAt);
  }

  lemma SoundTops(x: S.Found, a: Uuid)
    requires Sound(x.open, x.db) && a in x.db.auctions
    ensures 0 <= x.db.auctions[a].highestBid && 0 < x.db.auctions[a].increment
  {
    assert SoundAt(x.open, x.db, a);
    var h, row := History(x.db.bids, a), x.db.auctions[a];
    if row.version > 0 {
      var j := HistoryPosition(x.db.bids, a, row.version - 1);
      assert Admissible(x.db.auctions, x.db.bids[j]);
    }
  }
}
