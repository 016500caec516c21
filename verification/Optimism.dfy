/** The optimistic engine under contention: one winner per snapshot, a rejection
    that names its real reason whatever happened between the two statements, and
    the engines of one call as runs of the step machine. */
module Optimism {
  import opened Contract
  import opened Tables
  import opened Ledger
  import opened Engines
  import W = World
  import Guarantees
  import Safety
  import Stuck

  /* ---- one winner per snapshot ---- */

  /** An attempt, with the instants its two statements read. */
  datatype Try = Try(req: Request, id: Uuid, startedAt: Time, readAt: Time)

  /** Its UPDATE, and, where that matched no row, its read of the reason. */
  datatype Event = Sends(x: Try) | Reads(x: Try)

  datatype Seen = Update(s: Statement) | Reason(reply: Reply)

  /** Attempts that all left with the same version, their statements in the order they
      reach the database. */
  function Race(db: Db, events: seq<Event>, expected: nat): (r: (Db, seq<Seen>))
    ensures |r.1| == |events|
    decreases |events|
  {
    if events == [] then (db, [])
    else
      var (db', seen) := match events[0]
        case Sends(x) =>
          var s := OptimisticUpdate(db, x.req, expected, x.id, x.startedAt);
          (if s.Wrote? then s.db else db, Update(s))
        case Reads(x) => (db, Reason(Classify(db, x.req, expected, x.readAt)));
      var (db'', rest) := Race(db', events[1..], expected);
      (db'', [seen] + rest)
  }

  /** An attempt that would win if it were alone, and reads before the end. */
  predicate Winning(db: Db, x: Try, a: Uuid, expected: nat) {
    && x.req.auction == a && a in db.auctions
    && W.OptimisticGuard(db.auctions[a], x.req, expected, x.startedAt)
    && x.readAt < db.auctions[a].endsAt
    && Consistent(db.auctions, db.bids + [W.DecidedRow(db.auctions[a].State(), x.req, x.id, x.startedAt)])
  }

  /** Of any number of attempts on one snapshot, each good enough to win alone, their
      statements interleaved in any order: the first UPDATE wins with the next seq, every
      other matches no row, and every read of a reason, whenever it comes, is a conflict
      that carries the new state. */
  lemma ExactlyOneWins(db: Db, events: seq<Event>, a: Uuid, expected: nat)
    requires events != [] && events[0].Sends? && events[0].x.req.auction == a
    requires forall i :: 0 <= i < |events| ==> Winning(db, events[i].x, a, expected)
    requires a in db.auctions && 0 <= db.auctions[a].highestBid && 0 < db.auctions[a].increment
    ensures var (db', seen) := Race(db, events, expected);
            var b := W.DecidedRow(db.auctions[a].State(), events[0].x.req, events[0].x.id, events[0].x.startedAt);
            && db' == Write(db, b) && b.seqNo == expected + 1
            && seen[0].Update? && seen[0].s.Wrote? && seen[0].s.row == b
            && forall i :: 0 < i < |events| ==> Loses(db', events[i], seen[i])
  {
    hide Consistent, Race;
    assert Winning(db, events[0].x, a, expected);
    var b := W.DecidedRow(db.auctions[a].State(), events[0].x.req, events[0].x.id, events[0].x.startedAt);
    var db', rest := Write(db, b), events[1..];
    FirstEvent(db, events, expected, a);
    forall i | 0 <= i < |rest|
      ensures rest[i].x.req.auction == a && rest[i].x.readAt < db'.auctions[a].endsAt
    {
      assert Winning(db, events[i + 1].x, a, expected);
    }
    StaleAllLose(db', rest, a, expected);
    assert forall i :: 0 < i < |events| ==> events[i] == rest[i - 1];
  }

  lemma FirstEvent(db: Db, events: seq<Event>, expected: nat, a: Uuid)
    requires events != [] && events[0].Sends? && Winning(db, events[0].x, a, expected)
    requires 0 <= db.auctions[a].highestBid && 0 < db.auctions[a].increment
    ensures var x := events[0].x;
            var b := W.DecidedRow(db.auctions[a].State(), x.req, x.id, x.startedAt);
            && Race(db, events, expected).0 == Race(Write(db, b), events[1..], expected).0
            && Race(db, events, expected).1
               == [Update(Wrote(Write(db, b), b, db.auctions[a].increment))]
                  + Race(Write(db, b), events[1..], expected).1
  {
    hide Consistent;
  }

  /** What the others see, on the tables the winner left. */
  predicate Loses(db: Db, e: Event, seen: Seen) {
    match e
    case Sends(_) => seen == Update(NoRows)
    case Reads(x) =>
      && x.req.auction in db.auctions
      && seen == Reason(Rejected(Conflict, Some(db.auctions[x.req.auction].State())))
  }

  lemma {:induction false} StaleAllLose(db: Db, events: seq<Event>, a: Uuid, expected: nat)
    requires a in db.auctions && db.auctions[a].version != expected && db.auctions[a].status == StatusOpen
    requires forall i :: 0 <= i < |events| ==>
               events[i].x.req.auction == a && events[i].x.readAt < db.auctions[a].endsAt
    ensures Race(db, events, expected).0 == db
    ensures forall i :: 0 <= i < |events| ==> Loses(db, events[i], Race(db, events, expected).1[i])
    decreases |events|
  {
    hide Consistent;
    if events != [] {
      StaleAllLose(db, events[1..], a, expected);
    }
  }

  /** And in any run of the whole system, whoever else acts in between: a version of an
      auction is taken by one optimistic statement at most. */
  lemma OneOptimisticWinnerPerVersion(run: seq<W.Step>, i: nat, j: nat)
    requires W.Possible(W.EMPTY, run) && i < |run| && j < |run| && run[i].Optimistic? && run[j].Optimistic?
    requires run[i].req.auction == run[j].req.auction && run[i].expected == run[j].expected
    ensures i == j
  {
    Guarantees.EmptyInv();
    if i < j {
      OneWinnerFrom(W.EMPTY, run, i, j);
    } else if j < i {
      OneWinnerFrom(W.EMPTY, run, j, i);
    }
  }

  lemma {:induction false} OneWinnerFrom(w: W.World, run: seq<W.Step>, i: nat, j: nat)
    requires W.Inv(w) && W.Possible(w, run) && i < j < |run| && run[i].Optimistic? && run[j].Optimistic?
    requires run[i].req.auction == run[j].req.auction
    ensures run[i].expected != run[j].expected
    decreases i
  {
    hide W.Inv, W.Enabled, W.Apply;
    var w' := W.Apply(w, run[0]);
    Safety.StepKeeps(w, run[0]);
    Safety.KeptInv(w, w');
    if i == 0 {
      VersionIsTaken(w, run[0]);
      NeverAgain(w', run[1..], j - 1, run[0].req.auction, run[0].expected);
    } else {
      OneWinnerFrom(w', run[1..], i - 1, j - 1);
    }
  }

  lemma VersionIsTaken(w: W.World, step: W.Step)
    requires W.Enabled(w, step) && step.Optimistic?
    ensures var after := W.Apply(w, step).db.auctions;
            step.req.auction in after && step.expected < after[step.req.auction].version
  {
    hide W.Free, Consistent;
  }

  lemma {:induction false} NeverAgain(w: W.World, run: seq<W.Step>, k: nat, a: Uuid, expected: nat)
    requires W.Inv(w) && W.Possible(w, run) && a in w.db.auctions && expected < w.db.auctions[a].version
    requires k < |run| && run[k].Optimistic? && run[k].req.auction == a
    ensures run[k].expected != expected
    decreases k
  {
    hide W.Inv, W.Free, Consistent;
    if k > 0 {
      var w' := W.Apply(w, run[0]);
      Guarantees.StepOnAuction(w, run[0], a);
      VersionGrows(w, run[0], a);
      Safety.StepKeeps(w, run[0]);
      Safety.KeptInv(w, w');
      NeverAgain(w', run[1..], k - 1, a, expected);
    }
  }

  lemma VersionGrows(w: W.World, step: W.Step, a: Uuid)
    requires W.Inv(w) && W.Enabled(w, step) && a in w.db.auctions
    ensures a in W.Apply(w, step).db.auctions && w.db.auctions[a].version <= W.Apply(w, step).db.auctions[a].version
  {
    hide W.ShardInv, SoundAt, W.TxsInv, Pending, W.Apply, W.Enabled;
    assert a in w.open;
    Safety.StepKeeps(w, step);
    assert GrowsAt(w.open, w.db, W.Apply(w, step).db, a);
  }

  /* ---- the reason, read one instant later ---- */

  /** Between the failed UPDATE and the read of its reason anything may have run.
      When the client's version had been published, the answer is still the real
      one: too low exactly when the version was right, the auction open and the
      amount short; and the default arm is never taken. */
  lemma TheReasonIsReal(open: map<Uuid, Auction>, db: Db, db2: Db, req: Request, expected: nat, id: Uuid,
                        startedAt: Time, readAt: Time)
    requires var a := req.auction;
             a in db.auctions && a in db2.auctions && GrowsAt(open, db, db2, a)
    requires startedAt <= readAt && expected <= db.auctions[req.auction].version
    requires 0 <= db.auctions[req.auction].highestBid && 0 < db.auctions[req.auction].increment
    requires OptimisticUpdate(db, req, expected, id, startedAt) == NoRows
    ensures var row, row2 := db.auctions[req.auction], db2.auctions[req.auction];
            var reply := Classify(db2, req, expected, readAt);
            && reply.Decided?
            && (reply.result.outcome == TooLow ==>
                  && row.version == expected && row.status == StatusOpen && startedAt < row.endsAt
                  && req.amount < row.highestBid + row.increment)
            && (reply.result.outcome == Conflict ==> row2.version != expected)
            && (reply.result.outcome == TooLow <==>
                  !row2.State().IsClosed(readAt) && row2.version == expected)
  {
    hide Consistent;
  }

  /** The default arm answers a bid whose version nobody had published when its UPDATE
      ran and the next commit made true: a conflict that carries that very version. */
  lemma TheDefaultArmNeedsAnUnpublishedVersion(open: map<Uuid, Auction>, db: Db, db2: Db, req: Request, expected: nat,
                                               id: Uuid, startedAt: Time, readAt: Time)
    requires var a := req.auction;
             a in db.auctions && a in db2.auctions && GrowsAt(open, db, db2, a)
    requires startedAt <= readAt
    requires 0 <= db.auctions[req.auction].highestBid && 0 < db.auctions[req.auction].increment
    requires OptimisticUpdate(db, req, expected, id, startedAt) == NoRows
    requires var st := db2.auctions[req.auction].State();
             !st.IsClosed(readAt) && st.version == expected && req.amount >= st.MinNextBid()
    ensures db.auctions[req.auction].version < expected
    ensures var reply := Classify(db2, req, expected, readAt);
            reply.Decided? && reply.result.outcome == Conflict
            && reply.result.current == Some(db2.auctions[req.auction].State())
  {
    hide Consistent;
  }

  /** Two steps apart is what the step machine gives. */
  lemma RunsGrow(w: W.World, run: seq<W.Step>, a: Uuid)
    requires W.Inv(w) && W.Possible(w, run) && a in w.db.auctions
    ensures a in W.Exec(w, run).db.auctions && GrowsAt(w.open, w.db, W.Exec(w, run).db, a)
    ensures w.clock <= W.Exec(w, run).clock
  {
    Guarantees.RunIsLater(w, run);
    ClockGrows(w, run);
  }

  lemma {:induction false} ClockGrows(w: W.World, run: seq<W.Step>)
    requires W.Possible(w, run)
    ensures w.clock <= W.Exec(w, run).clock
    decreases |run|
  {
    if run != [] {
      ClockStep(w, run[0]);
      ClockGrows(W.Apply(w, run[0]), run[1..]);
    }
  }

  lemma ClockStep(w: W.World, step: W.Step)
    requires W.Enabled(w, step)
    ensures w.clock <= W.Apply(w, step).clock
  {
    hide W.Free, Commits, Consistent;
  }

  /* ---- re-aiming ---- */

  /** What one of the three engines answered a request that it rejected as too low, or,
      from the optimistic one, as a conflict. */
  predicate RejectedBy(db: Db, cache: map<Uuid, S.Cached>, expected: nat, cmd: S.Command, at: Time, reply: Reply) {
    && reply.Decided? && reply.result.outcome in {Conflict, TooLow}
    && (|| reply == OptimisticBid(db, cmd.req, Some(expected), cmd.bidId, at).1
        || reply == PessimisticBid(db, cmd.req, cmd.bidId, at).1
        || reply == ShardBid(db, cache, cmd).2)
  }

  lemma RejectionCarriesTheRow(db: Db, cache: map<Uuid, S.Cached>, offset: int, expected: nat, cmd: S.Command, at: Time,
                               reply: Reply)
    requires Fresh(db, cache, offset) && RejectedBy(db, cache, expected, cmd, at, reply)
    ensures cmd.req.auction in db.auctions
    ensures reply.result.current == Some(db.auctions[cmd.req.auction].State())
    ensures db.auctions[cmd.req.auction].status == StatusOpen
  {
    hide Consistent;
  }

  /** The state a rejection carries is what the next attempt needs: with nothing in
      between, before the end, under a fresh id and a key nobody used, the minimum it
      names gets one answer from every engine, whichever engine had rejected; and that
      is an acceptance with the next seq exactly when the row is its history. */
  lemma ReAimingIsAcceptedIffRowAgrees(open: map<Uuid, Auction>, db: Db, cache: map<Uuid, S.Cached>, offset: int,
                                       expected: nat, cmd: S.Command, at: Time, reply: Reply,
                                       again: S.Command, at2: Time)
    requires Sound(open, db) && Roomy(db) && Fresh(db, cache, offset)
    requires RejectedBy(db, cache, expected, cmd, at, reply)
    requires reply.result.current.Some?
             && again.req == cmd.req.(amount := reply.result.current.value.MinNextBid()) && ReadsAt(again, offset, at2)
    requires cmd.req.auction in db.auctions
             && var row := db.auctions[cmd.req.auction];
                && at2 < row.endsAt
                && Stuck.KeyAndIdFree(db.bids, W.DecidedRow(row.State(), again.req, again.bidId, at2))
    ensures var st := reply.result.current.value;
            var (dbO, rO) := OptimisticBid(db, again.req, Some(st.version), again.bidId, at2);
            var (dbP, rP) := PessimisticBid(db, again.req, again.bidId, at2);
            var (dbS, _, rS) := ShardBid(db, cache, again);
            && dbO == dbP == dbS && SameAnswer(rO, rP) && SameAnswer(rS, rP)
            && (rO.Decided? && rO.result.outcome == Accepted && rO.result.seqNo == st.version + 1
                <==> db.auctions[cmd.req.auction].version == |History(db.bids, cmd.req.auction)|)
  {
    hide Consistent, ShardBid, ReadsAt, Fresh, RejectedBy, Sound, Stuck.KeyAndIdFree, SoundAt, Pending;
    RejectionCarriesTheRow(db, cache, offset, expected, cmd, at, reply);
    RoomyHasRoom(db);
    var b := W.DecidedRow(db.auctions[cmd.req.auction].State(), again.req, again.bidId, at2);
    NextBidFitsIffRowAgrees(open, db, b);
    ShardIsPessimistic(db, cache, again, offset, at2);
  }

  lemma NextBidFitsIffRowAgrees(open: map<Uuid, Auction>, db: Db, b: Bid)
    requires Sound(open, db) && b.auction in db.auctions && 0 < b.amount && Stuck.KeyAndIdFree(db.bids, b)
    requires b.seqNo == db.auctions[b.auction].version + 1
    requires b.amount >= db.auctions[b.auction].State().MinNextBid()
    ensures Consistent(db.auctions, db.bids + [b])
            <==> db.auctions[b.auction].version == |History(db.bids, b.auction)|
  {
    hide Consistent, Stuck.KeyAndIdFree, Pending, Linked, Dense;
    assert SoundAt(open, db, b.auction);
    DecidedOverRow(open, db, b);
    HistoryOfOne(b, b.auction);
    if db.auctions[b.auction].version < |History(db.bids, b.auction)| {
      StrictPrefixAborts(open, db, [b], b.auction);
    } else {
      Stuck.SeqIsFree(open, db, b);
    }
  }

  /* ---- one call, as steps ---- */

  lemma OptimisticCallIsOneStep(w: W.World, req: Request, expected: nat, id: Uuid, startedAt: Time)
    requires W.Enabled(w, W.Optimistic(req, expected, id, startedAt, true))
    requires 0 <= w.db.auctions[req.auction].highestBid && 0 < w.db.auctions[req.auction].increment
    ensures var (db', reply) := OptimisticBid(w.db, req, Some(expected), id, startedAt);
            var b := W.DecidedRow(w.db.auctions[req.auction].State(), req, id, startedAt);
            && W.Apply(w, W.Optimistic(req, expected, id, startedAt, true)).db == db'
            && W.Apply(w, W.Optimistic(req, expected, id, startedAt, true)).acks == w.acks + {b}
            && reply == AcceptedAs(b, w.db.auctions[req.auction].increment)
  {
    hide Consistent, W.Free;
  }

  /** Nobody holds the auction's row nor an entry that the bid repeats. */
  ghost predicate Uncontended(w: W.World, b: Bid) {
    W.Unlocked(w, b.auction) && forall u :: u in w.txs && w.txs[u].Written? ==> !Clash(b, w.txs[u].row)
  }

  /** Beside any other open transactions that do not hold its row or an entry it needs,
      the five statements of an accepted pessimistic transaction do what the one call
      says, and leave the others as they were. */
  lemma PessimisticCallIsFiveSteps(w: W.World, t: nat, req: Request, id: Uuid)
    requires t !in w.txs && req.auction in w.db.auctions
    requires Uncontended(w, W.DecidedRow(w.db.auctions[req.auction].State(), req, id, w.clock))
    requires var (_, reply) := PessimisticBid(w.db, req, id, w.clock);
             reply.Decided? && reply.result.outcome == Accepted
    ensures var run := [W.Begin(t, req, id), W.Lock(t, w.clock), W.Update(t), W.Insert(t), W.CommitTx(t, true)];
            && W.Possible(w, run)
            && W.Exec(w, run).db == PessimisticBid(w.db, req, id, w.clock).0
            && W.Exec(w, run).acks == w.acks + {W.DecidedRow(w.db.auctions[req.auction].State(), req, id, w.clock)}
            && W.Exec(w, run).txs == w.txs
  {
    hide Consistent, W.Enabled, W.Apply, W.Possible, W.Exec;
    var s4, s5 := W.Insert(t), W.CommitTx(t, true);
    var w3, prefix := LockedAndUpdated(w, t, req, id);
    InsertedAndCommitted(w3, t, W.DecidedRow(w.db.auctions[req.auction].State(), req, id, w.clock));
    assert w3.txs - {t} == w.txs;
    Stuck.Append(w, prefix, [s4, s5]);
    assert prefix + [s4, s5] == [W.Begin(t, req, id), W.Lock(t, w.clock), W.Update(t), s4, s5];
  }

  lemma InsertedAndCommitted(w: W.World, t: nat, b: Bid)
    requires t in w.txs && w.txs[t] == W.Inserting(b) && b.auction in w.db.auctions
    requires Consistent(w.db.auctions, w.db.bids + [b])
    requires forall u :: u in w.txs && w.txs[u].Written? ==> !Clash(b, w.txs[u].row)
    ensures var run := [W.Insert(t), W.CommitTx(t, true)];
            && W.Possible(w, run) && W.Exec(w, run).db == Write(w.db, b) && W.Exec(w, run).txs == w.txs - {t}
            && W.Exec(w, run).acks == w.acks + {b}
  {
    hide Consistent, Clash, Commits;
    var w1 := W.Apply(w, W.Insert(t));
    assert w1.txs - {t} == w.txs - {t};
    Stuck.OneMore(w1, W.CommitTx(t, true), []);
    Stuck.OneMore(w, W.Insert(t), [W.CommitTx(t, true)]);
    assert [W.Insert(t)] + [W.CommitTx(t, true)] == [W.Insert(t), W.CommitTx(t, true)];
  }

  lemma UpToTheUpdate(w: W.World, t: nat, req: Request, id: Uuid) returns (w1: W.World, w2: W.World, w3: W.World)
    requires t !in w.txs && req.auction in w.db.auctions && W.Unlocked(w, req.auction)
    requires var st := w.db.auctions[req.auction].State(); !st.IsClosed(w.clock) && req.amount >= st.MinNextBid()
    ensures W.Enabled(w, W.Begin(t, req, id)) && w1 == W.Apply(w, W.Begin(t, req, id))
    ensures W.Enabled(w1, W.Lock(t, w.clock)) && w2 == W.Apply(w1, W.Lock(t, w.clock))
    ensures W.Enabled(w2, W.Update(t)) && w3 == W.Apply(w2, W.Update(t))
    ensures w3.db == w.db && w3.acks == w.acks
    ensures w3.txs == w.txs[t := W.Inserting(W.DecidedRow(w.db.auctions[req.auction].State(), req, id, w.clock))]
    ensures W.Possible(w3, []) && W.Exec(w3, []) == w3
  {
    hide Consistent, Commits, Clash, W.Free;
    w1 := W.Apply(w, W.Begin(t, req, id));
    assert W.Unlocked(w1, req.auction);
    w2 := W.Apply(w1, W.Lock(t, w.clock));
    w3 := W.Apply(w2, W.Update(t));
  }

  lemma LockedAndUpdated(w: W.World, t: nat, req: Request, id: Uuid) returns (w3: W.World, run: seq<W.Step>)
    requires t !in w.txs && req.auction in w.db.auctions && W.Unlocked(w, req.auction)
    requires var st := w.db.auctions[req.auction].State(); !st.IsClosed(w.clock) && req.amount >= st.MinNextBid()
    ensures run == [W.Begin(t, req, id), W.Lock(t, w.clock), W.Update(t)]
    ensures W.Possible(w, run) && W.Exec(w, run) == w3
    ensures var b := W.DecidedRow(w.db.auctions[req.auction].State(), req, id, w.clock);
            w3.db == w.db && w3.acks == w.acks && w3.txs == w.txs[t := W.Inserting(b)]
  {
    hide W.Possible, W.Exec, W.Enabled, W.Apply;
    var s1, s2, s3 := W.Begin(t, req, id), W.Lock(t, w.clock), W.Update(t);
    var w1, w2;
    w1, w2, w3 := UpToTheUpdate(w, t, req, id);
    Stuck.OneMore(w2, s3, []);
    assert [s3] + [] == [s3] && [s2] + [s3] == [s2, s3] && [s1] + [s2, s3] == [s1, s2, s3];
    Stuck.OneMore(w1, s2, [s3]);
    Stuck.OneMore(w, s1, [s2, s3]);
    run := [s1, s2, s3];
  }
}
