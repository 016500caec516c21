/** Why each command of a shard was answered as it was: the statement behind every error,
    every 404 and every 201, whatever the rest of the system did to the tables. */
module ShardCauses {
  import opened Contract
  import opened Tables
  import opened Ledger
  import opened ShardEngine
  import opened ShardBooks
  import W = World

  /** A statement of the shard: a hydration for a command or the write of a batch, what
      became of it and the tables it found. */
  datatype Event =
    | Read(cmd: Command, fault: Fault, found: Found)
    | Wrote(batch: seq<Pending>, fault: Fault, found: Found)

  predicate Carries(batch: seq<Pending>, cmd: Command) {
    exists j :: 0 <= j < |batch| && batch[j].cmd == cmd
  }

  predicate Refused(e: Event)
    requires e.Wrote?
  {
    !Consistent(e.found.db.auctions, e.found.db.bids + Rows(e.batch))
  }

  /** The statement is why the command failed: its own hydration or the write of its batch
      did not run, or the constraints refused that batch over the tables it found. */
  predicate FailedIt(e: Event, cmd: Command) {
    match e
    case Read(c, fault, _) => c == cmd && fault != Runs
    case Wrote(batch, fault, _) => Carries(batch, cmd) && (fault != Runs || Refused(e))
  }

  predicate MissedIt(e: Event, cmd: Command) {
    e.Read? && e.cmd == cmd && e.fault == Runs && cmd.req.auction !in e.found.db.auctions
  }

  predicate PlacedIt(e: Event, cmd: Command) {
    e.Wrote? && Carries(e.batch, cmd) && e.fault == Runs && !Refused(e)
  }

  /** The state carried says why the amount was not enough. */
  predicate Short(current: Option<AuctionState>, cmd: Command) {
    && current.Some? && current.value.status == StatusOpen
    && cmd.req.amount < WrapAdd(current.value.highestBid, current.value.increment)
  }

  /** first are the tables before the first command, db those after the last. */
  ghost predicate Explained(first: Db, db: Db, cmd: Command, reply: Reply, log: seq<Event>) {
    match reply
    case Failed => exists e :: e in log && FailedIt(e, cmd)
    case Answer(r) =>
      if r.outcome == NotFound then
        r.current.None? && cmd.req.auction !in first.auctions && exists e :: e in log && MissedIt(e, cmd)
      else
        && cmd.req.auction in db.auctions
        && (r.outcome == Accepted ==> exists e :: e in log && PlacedIt(e, cmd))
        && (r.outcome == TooLow ==> Short(r.current, cmd))
        && (r.outcome == Closed ==> r.current.Some?)
        && r.outcome in {Accepted, TooLow, Closed}
  }

  ghost predicate Causes(first: Db, taken: seq<Command>, k: Book, log: seq<Event>) {
    && first.auctions.Keys <= k.db.auctions.Keys && k.cache.Keys <= k.db.auctions.Keys
    && (forall i :: 0 <= i < |taken| && taken[i].tag in k.replies ==>
          Explained(first, k.db, taken[i], k.replies[taken[i].tag], log))
    && (forall j :: 0 <= j < |k.batch| ==>
          k.batch[j].cmd.req.auction == k.batch[j].row.auction && k.batch[j].row.auction in k.db.auctions)
  }

  /** The statements so far had the fates of the script, in order, and the rest is left. */
  predicate Scripted(script: seq<Turn>, log: seq<Event>, rest: seq<Turn>) {
    && (forall i :: 0 <= i < |log| ==> log[i].fault == FaultAt(script, i))
    && rest == if |log| <= |script| then script[|log|..] else []
  }

  lemma OneMoreStatement(script: seq<Turn>, log: seq<Event>, rest: seq<Turn>, e: Event)
    requires Scripted(script, log, rest) && e.fault == FaultAt(rest, 0)
    ensures Scripted(script, log + [e], if rest == [] then [] else rest[1..])
  {
  }

  lemma StillExplained(first: Db, db: Db, cmd: Command, reply: Reply, log: seq<Event>, db': Db, more: seq<Event>)
    requires Explained(first, db, cmd, reply, log) && db.auctions.Keys <= db'.auctions.Keys
    ensures Explained(first, db', cmd, reply, log + more)
  {
    hide FailedIt, MissedIt, PlacedIt, Short;
    assert forall e :: e in log ==> e in log + more;
  }

  /** Tables that only grew, and one more statement. */
  lemma LaterCauses(first: Db, taken: seq<Command>, k: Book, log: seq<Event>, db': Db, more: seq<Event>)
    requires Causes(first, taken, k, log) && k.db.auctions.Keys <= db'.auctions.Keys
    ensures Causes(first, taken, k.(db := db'), log + more)
  {
    hide Explained;
    forall i | 0 <= i < |taken| && taken[i].tag in k.replies
      ensures Explained(first, db', taken[i], k.replies[taken[i].tag], log + more)
    {
      StillExplained(first, k.db, taken[i], k.replies[taken[i].tag], log, db', more);
    }
  }

  lemma FoundKeys(x: Found, y: Found)
    requires SameOrReached(x, y)
    ensures x.db.auctions.Keys <= y.db.auctions.Keys
  {
    hide Sound, GrowsAt;
  }

  lemma CommittedKeys(db: Db, rows: seq<Bid>, db': Db)
    requires Commits(db, rows, db')
    ensures db'.auctions.Keys == db.auctions.Keys
  {
    hide Consistent;
  }

  /** The decision of a command, with the hydration it needed. */
  lemma EnteredCauses(first: Db, taken: seq<Command>, k: Book, log: seq<Event>, cmd: Command, fault: bool, e: Event)
    requires Causes(first, taken, k, log)
    requires cmd.tag !in k.replies && forall i :: 0 <= i < |taken| ==> taken[i].tag != cmd.tag
    requires cmd.req.auction !in k.cache ==>
               e in log && e.Read? && e.cmd == cmd && (fault <==> e.fault != Runs) && e.found.db == k.db
    ensures Causes(first, taken + [cmd], Entered(k, cmd, DecideOn(k.cache, k.db.auctions, fault, cmd)), log)
  {
    hide Explained;
    var d := DecideOn(k.cache, k.db.auctions, fault, cmd);
    if d.Replied? {
      AnswerExplained(first, k, log, cmd, fault, e);
    }
  }

  lemma AnswerExplained(first: Db, k: Book, log: seq<Event>, cmd: Command, fault: bool, e: Event)
    requires first.auctions.Keys <= k.db.auctions.Keys && k.cache.Keys <= k.db.auctions.Keys
    requires cmd.req.auction !in k.cache ==>
               e in log && e.Read? && e.cmd == cmd && (fault <==> e.fault != Runs) && e.found.db == k.db
    requires DecideOn(k.cache, k.db.auctions, fault, cmd).Replied?
    ensures Explained(first, k.db, cmd, DecideOn(k.cache, k.db.auctions, fault, cmd).reply, log)
  {
    if cmd.req.auction !in k.cache {
      assert fault ==> FailedIt(e, cmd);
      assert !fault && cmd.req.auction !in k.db.auctions ==> MissedIt(e, cmd);
    }
  }

  /** The answers to a batch: 201s after a write that ran, errors after one that did not. */
  lemma AnsweredCauses(r0: Reference, taken: seq<Command>, k: Book, log: seq<Event>, k': Book, e: Event)
    requires Causes(r0.db, taken, k, log) && e in log && e.Wrote? && e.batch == k.batch
    requires Accounted(r0, taken, k) && Honest(r0, taken, k) && DistinctTags(taken)
    requires k'.batch == [] && k'.cache.Keys <= k.cache.Keys && k'.db.auctions.Keys == k.db.auctions.Keys
    requires k'.replies == if e.fault == Runs && !Refused(e) then AckAll(k.replies, k.batch)
                           else FailAll(k.replies, k.batch)
    ensures Causes(r0.db, taken, k', log)
  {
    hide Explained, Consistent, Recorded;
    AckAllKeys(k.replies, k.batch);
    forall i | 0 <= i < |taken| && taken[i].tag in k'.replies
      ensures Explained(r0.db, k'.db, taken[i], k'.replies[taken[i].tag], log)
    {
      if taken[i].tag in Tags(k.batch) {
        var j := TagPosition(k.batch, taken[i].tag);
        AckAllAt(k.replies, k.batch, j);
        SameTagSameCommand(taken, k.batch[j].cmd, i);
        BatchExplained(r0.db, k'.db, taken[i], k.batch[j], log, e);
      } else {
        StillExplained(r0.db, k.db, taken[i], k.replies[taken[i].tag], log, k'.db, []);
        assert log + [] == log;
      }
    }
  }

  lemma BatchExplained(first: Db, db: Db, cmd: Command, p: Pending, log: seq<Event>, e: Event)
    requires e in log && e.Wrote? && p in e.batch && p.cmd == cmd && cmd.req.auction in db.auctions
    ensures Explained(first, db, cmd, if e.fault == Runs && !Refused(e) then AckOf(p) else Failed, log)
  {
    hide Refused;
    assert Carries(e.batch, cmd);
    assert if e.fault == Runs && !Refused(e) then PlacedIt(e, cmd) else FailedIt(e, cmd);
  }
}
