/** One shard goroutine, statement for statement: receive, decide, accumulate,
    commit, evict on failure. Whatever the database does to its statements, it
    answers every command once; and when nothing fails, how the inbox was cut into
    batches cannot be seen in the answers or in the bids. */
module ShardLoop {
  import opened Contract
  import opened Tables
  import opened Ledger
  import opened ShardEngine
  import opened ShardBooks
  import opened ShardCauses
  import W = World

  class Shard {
    const pool: Pool
    var auctions: map<Uuid, Cached>
    var inbox: seq<Command>
    var replies: map<nat, Reply>  // what each command's channel has received
    ghost var log: seq<Event>     // the statements of the run

    constructor (pool: Pool, inbox: seq<Command>)
      ensures this.pool == pool && auctions == map[] && this.inbox == inbox && replies == map[]
    {
      this.pool, this.auctions, this.inbox, this.replies, log := pool, map[], inbox, map[], [];
    }

    function Page(batch: seq<Pending>): Book
      reads this, pool
    {
      Book(auctions, replies, pool.db, batch)
    }

    /** The channel has capacity one: a second answer would block the shard. */
    method Answer(cmd: Command, reply: Reply)
      requires cmd.tag !in replies
      modifies this`replies
      ensures replies == old(replies)[cmd.tag := reply]
    {
      replies := replies[cmd.tag := reply];
    }

    method Decide(cmd: Command) returns (p: Option<Pending>, ghost fault: bool)
      requires cmd.tag !in replies
      modifies this`auctions, this`replies, this`log, pool
      ensures SameOrReached(old(pool.Here()), pool.Here())
      ensures old(pool.script) == [] ==> !fault && pool.script == [] && pool.Here() == old(pool.Here())
      ensures fault <==> cmd.req.auction !in old(auctions) && FaultAt(old(pool.script), 0) != Runs
      ensures cmd.req.auction in old(auctions) ==> unchanged(pool) && log == old(log)
      ensures cmd.req.auction !in old(auctions) ==>
                && pool.Here() == FoundAt(old(pool.Here()), old(pool.script), 0)
                && pool.script == (if old(pool.script) == [] then [] else old(pool.script)[1..])
                && log == old(log) + [Read(cmd, FaultAt(old(pool.script), 0), pool.Here())]
      ensures cmd.tag in replies && replies[cmd.tag] == Failed <==>
                cmd.req.auction !in old(auctions) && FaultAt(old(pool.script), 0) != Runs
      ensures cmd.tag in replies && replies[cmd.tag] == Reply.Answer(BidResult(NotFound, 0, 0, None)) <==>
                && cmd.req.auction !in old(auctions) && FaultAt(old(pool.script), 0) == Runs
                && cmd.req.auction !in pool.db.auctions
      ensures var d := DecideOn(old(auctions), pool.db.auctions, fault, cmd);
              && auctions == d.cache
              && replies == (if d.Replied? then old(replies)[cmd.tag := d.reply] else old(replies))
              && p == (if d.Accepts? then Some(d.p) else None)
    {
      hide Reaches;
      p, fault := None, false;
      var a := cmd.req.auction;
      if a !in auctions {
        var err, row := pool.ReadAuction(a);
        fault, log := err, log + [Read(cmd, FaultAt(old(pool.script), 0), pool.Here())];
        if err {
          Answer(cmd, Failed);
          return;
        }
        if row.None? {
          // absence is never cached
          Answer(cmd, Rejection(NotFound, None));
          return;
        }
        auctions := auctions[a := Hydrated(row.value, cmd)];
      }
      var c := auctions[a];
      if c.st.IsClosed(c.Now(cmd.guardAt)) {
        Answer(cmd, Rejection(Closed, Some(c.st)));
        return;
      }
      if cmd.req.amount < c.st.MinNextBid() {
        Answer(cmd, Rejection(TooLow, Some(c.st)));
        return;
      }
      var st := c.st.(version := c.st.version + 1, highestBid := cmd.req.amount);
      auctions := auctions[a := c.(st := st, highestBidder := Some(cmd.req.user))];
      p := Some(Pending(cmd, W.DecidedRow(c.st, cmd.req, cmd.bidId, c.Now(cmd.stampAt)), st));
    }

    /** 201 for the whole batch, or an error for the whole batch and its auctions forgotten. */
    method Tell(batch: seq<Pending>, err: bool)
      requires DistinctPending(batch) && Tags(batch) !! replies.Keys
      modifies this`auctions, this`replies
      ensures auctions == if err then EvictAll(old(auctions), batch) else old(auctions)
      ensures replies == if err then FailAll(old(replies), batch) else AckAll(old(replies), batch)
    {
      for i := 0 to |batch|
        invariant err ==> auctions == EvictAll(old(auctions), batch[..i])
        invariant !err ==> auctions == old(auctions)
        invariant replies == if err then FailAll(old(replies), batch[..i]) else AckAll(old(replies), batch[..i])
      {
        var p := batch[i];
        assert batch[..i + 1][..i] == batch[..i];
        AckAllKeys(old(replies), batch[..i]);
        assert p.cmd.tag !in Tags(batch[..i]) by {
          assert forall q :: q in batch[..i] ==> q.cmd.tag != p.cmd.tag;
        }
        assert p in batch;
        if err {
          auctions := auctions - {p.row.auction};
          Answer(p.cmd, Failed);
        } else {
          Answer(p.cmd, AckOf(p));
        }
      }
      assert batch[..|batch|] == batch;
    }

    /** Answers only after the statement returned: 201 for all or an error for
        all, and on an error the touched auctions are forgotten. */
    method Commit(batch: seq<Pending>) returns (ghost found: Found)
      requires 1 <= |batch| <= W.BATCH_MAX
      requires DistinctPending(batch) && Tags(batch) !! replies.Keys
      modifies this`auctions, this`replies, this`log, pool
      ensures SameOrReached(old(pool.Here()), found) && pool.open == found.open
      ensures found == FoundAt(old(pool.Here()), old(pool.script), 0)
      ensures pool.script == if old(pool.script) == [] then [] else old(pool.script)[1..]
      ensures old(pool.script) == [] ==> found == old(pool.Here())
      ensures log == old(log) + [Wrote(batch, FaultAt(old(pool.script), 0), found)]
      ensures var fault := FaultAt(old(pool.script), 0);
              var takes := Consistent(found.db.auctions, found.db.bids + Rows(batch));
              && (if fault == Runs && takes then
                    auctions == old(auctions) && replies == AckAll(old(replies), batch)
                  else
                    auctions == EvictAll(old(auctions), batch) && replies == FailAll(old(replies), batch))
              && if fault != Fails && takes then Commits(found.db, Rows(batch), pool.db) else pool.db == found.db
    {
      hide Consistent, UpdatedFrom, Admissible, SameOrReached, FoundAt, FaultAt, Commits;
      var rows: seq<Bid> := [];
      for i := 0 to |batch|
        invariant rows == Rows(batch[..i])
      {
        rows := rows + [batch[i].row];
      }
      assert batch[..|batch|] == batch;

      var err;
      err, found := pool.CommitBatch(rows);
      log := log + [Wrote(batch, FaultAt(old(pool.script), 0), found)];
      Tell(batch, err);
    }

    /** Where the loop stands: the account, the causes of the answers so far, and what is
        left of the script. */
    ghost predicate Kept(r0: Reference, script: seq<Turn>, taken: seq<Command>, calm: bool, sync: Option<Sync>,
                         batch: seq<Pending>)
      reads this, pool
    {
      && Books(pool.open, r0, taken, calm, sync, Page(batch)) && Causes(r0.db, taken, Page(batch), log)
      && Scripted(script, log, pool.script) && (calm ==> pool.script == [])
      && AllTimed(inbox, sync) && CommandTags(taken + inbox) !! r0.replies.Keys && DistinctTags(taken + inbox)
    }

    /** Take one command off the inbox into the account. */
    method Take(ghost r0: Reference, ghost script: seq<Turn>, ghost taken: seq<Command>, ghost calm: bool,
                ghost sync: Option<Sync>, batch: seq<Pending>)
      returns (p: Option<Pending>)
      requires inbox != [] && |batch| < W.BATCH_MAX && Kept(r0, script, taken, calm, sync, batch)
      modifies this`inbox, this`auctions, this`replies, this`log, pool
      ensures inbox == old(inbox)[1..]
      ensures Kept(r0, script, taken + [old(inbox)[0]], calm, sync, if p.Some? then batch + [p.value] else batch)
    {
      hide Books, Causes, Scripted, SameOrReached, DecideOn, Timed, DistinctTags, CommandTags, FoundAt, FaultAt;
      var cmd := inbox[0];
      inbox := inbox[1..];
      assert (taken + [cmd]) + inbox == taken + old(inbox);
      NewTag(taken, old(inbox), r0.replies.Keys);
      ghost var here, k := pool.Here(), Page(batch);
      NotAnswered(pool.open, r0, taken, calm, sync, k, cmd);
      ghost var fault;
      p, fault := Decide(cmd);
      ghost var k' := k.(db := pool.db);
      FoundBooks(here, pool.Here(), r0, taken, calm, sync, k);
      FoundKeys(here, pool.Here());
      ghost var e := Read(cmd, FaultAt(old(pool.script), 0), pool.Here());
      if cmd.req.auction !in k.cache {
        LaterCauses(r0.db, taken, k, old(log), pool.db, [e]);
        OneMoreStatement(script, old(log), old(pool.script), e);
      } else {
        assert k' == k;
      }
      EnteredBooks(pool.open, r0, taken, calm, sync, k', cmd, fault);
      EnteredCauses(r0.db, taken, k', log, cmd, fault, e);
      assert Page(if p.Some? then batch + [p.value] else batch)
             == Entered(k', cmd, DecideOn(k.cache, pool.db.auctions, fault, cmd));
    }

    /** The accumulation loop. The two nondeterministic breaks are the inbox being
        empty at that instant and the linger having passed. */
    method Accumulate(ghost r0: Reference, ghost script: seq<Turn>, ghost taken: seq<Command>, ghost calm: bool,
                      ghost sync: Option<Sync>, first: Pending)
      returns (batch: seq<Pending>, ghost taken': seq<Command>)
      requires Kept(r0, script, taken, calm, sync, [first])
      modifies this`inbox, this`auctions, this`replies, this`log, pool
      ensures taken' + inbox == taken + old(inbox) && |inbox| <= |old(inbox)|
      ensures 1 <= |batch| <= W.BATCH_MAX && Kept(r0, script, taken', calm, sync, batch)
    {
      hide Kept;
      batch, taken' := [first], taken;
      while |batch| < W.BATCH_MAX && inbox != []
        invariant taken' + inbox == taken + old(inbox) && |inbox| <= |old(inbox)|
        invariant 1 <= |batch| <= W.BATCH_MAX && Kept(r0, script, taken', calm, sync, batch)
        decreases |inbox|
      {
        if * {
          break;
        }
        ghost var before := inbox;
        var next := Take(r0, script, taken', calm, sync, batch);
        taken' := taken' + [before[0]];
        if next.Some? {
          batch := batch + [next.value];
        }
        if * {
          break;
        }
      }
    }

    /** Commit the open batch and close its account. */
    method Settle(ghost r0: Reference, ghost script: seq<Turn>, ghost taken: seq<Command>, ghost calm: bool,
                  ghost sync: Option<Sync>, batch: seq<Pending>)
      requires 1 <= |batch| <= W.BATCH_MAX && Kept(r0, script, taken, calm, sync, batch)
      requires calm ==> Consistent(OneByOne(r0, taken).db.auctions, OneByOne(r0, taken).db.bids)
      modifies this`auctions, this`replies, this`log, pool
      ensures Kept(r0, script, taken, calm, sync, [])
    {
      hide Books, Causes, Scripted, SameOrReached, Consistent, UpdatedFrom, FoundAt, DistinctTags, CommandTags,
           AckAll, FailAll, EvictAll, Rows, Memory;
      ghost var here, k := pool.Here(), Page(batch);
      DistinctPrefix(taken + inbox, |taken|);
      assert (taken + inbox)[..|taken|] == taken;
      OpenBatch(pool.open, r0, taken, calm, sync, k);
      ghost var found := Commit(batch);
      ghost var e := Wrote(batch, FaultAt(old(pool.script), 0), found);
      OneMoreStatement(script, old(log), old(pool.script), e);
      SettledBooks(here, r0, taken, calm, sync, k, Page([]), e);
      SettledCauses(here, r0, taken, calm, sync, k, Page([]), old(log), e);
    }

    /** The goroutine over a finite inbox, on tables that anybody else may be writing.
        Every answer has its cause among the statements of the run, whose fates are those
        of the script. When the commands are timed against the database's clock, so is
        every answer, however long before it the skew was measured. */
    method Run(ghost sync: Sync)
      requires Coherent(pool.open, Page([]))
      requires DistinctTags(inbox) && CommandTags(inbox) !! replies.Keys
      modifies this, pool
      ensures inbox == []
      ensures replies.Keys == old(replies.Keys) + CommandTags(old(inbox))
      ensures forall t :: t in old(replies) ==> replies[t] == old(replies)[t]
      ensures Coherent(pool.open, Page([]))
      ensures forall i :: 0 <= i < |old(inbox)| ==>
                && Recorded(pool.db.bids, old(inbox)[i], replies[old(inbox)[i].tag])
                && Explained(old(pool.db), pool.db, old(inbox)[i], replies[old(inbox)[i].tag], log)
      ensures Scripted(old(pool.script), log, pool.script)
      ensures InSync(old(auctions), old(pool.db), sync) && AllTimed(old(inbox), Some(sync)) ==>
                && InSync(auctions, pool.db, sync)
                && forall i :: 0 <= i < |old(inbox)| ==>
                     && OnTime(pool.open, pool.db, old(inbox)[i], replies[old(inbox)[i].tag], sync)
                     && StampedIn(pool.db.bids, old(inbox)[i], replies[old(inbox)[i].tag], sync)
      ensures var r := OneByOne(Reference(old(pool.db), old(auctions), old(replies)), old(inbox));
              old(pool.script) == [] && Consistent(r.db.auctions, r.db.bids) ==>
                replies == r.replies && pool.db.bids == r.db.bids && auctions == r.cache
    {
      hide Kept, OneByOne, Consistent, Recorded, Coherent, DistinctTags, CommandTags, InSync, AllTimed, OnTime,
           Scripted, Explained, StampedIn;
      ghost var script, cmds, taken: seq<Command> := pool.script, inbox, [];
      ghost var r0 := Reference(pool.db, auctions, replies);
      ghost var r := OneByOne(r0, cmds);
      ghost var calm := pool.script == [] && Consistent(r.db.auctions, r.db.bids);
      ghost var timed := if InSync(auctions, pool.db, sync) && AllTimed(inbox, Some(sync)) then Some(sync) else None;
      log := [];
      assert AllTimed(inbox, timed) by { NotTimed(inbox); }
      Opened(r0, calm, timed);

      while inbox != []
        invariant cmds == taken + inbox && Kept(r0, script, taken, calm, timed, [])
        decreases |inbox|
      {
        ghost var before := inbox;
        var first := Take(r0, script, taken, calm, timed, []);
        taken := taken + [before[0]];
        assert taken + inbox == cmds;
        if first.None? {
          continue;
        }

        assert [] + [first.value] == [first.value];
        var batch;
        batch, taken := Accumulate(r0, script, taken, calm, timed, first.value);
        assert taken == cmds[..|taken|];
        if calm {
          ConsistentBefore(r0, cmds, |taken|);
        }
        Settle(r0, script, taken, calm, timed, batch);
      }
      assert taken == cmds;
      Finished(r0, script, taken, calm, timed);
    }

    lemma Finished(r0: Reference, script: seq<Turn>, cmds: seq<Command>, calm: bool, sync: Option<Sync>)
      requires Kept(r0, script, cmds, calm, sync, [])
      ensures replies.Keys == r0.replies.Keys + CommandTags(cmds) && Coherent(pool.open, Page([]))
      ensures Scripted(script, log, pool.script)
      ensures forall t :: t in r0.replies ==> t in replies && replies[t] == r0.replies[t]
      ensures forall i :: 0 <= i < |cmds| ==>
                && cmds[i].tag in replies && Recorded(pool.db.bids, cmds[i], replies[cmds[i].tag])
                && Explained(r0.db, pool.db, cmds[i], replies[cmds[i].tag], log)
      ensures sync.Some? ==>
                && InSync(auctions, pool.db, sync.value)
                && forall i :: 0 <= i < |cmds| ==>
                     && OnTime(pool.open, pool.db, cmds[i], replies[cmds[i].tag], sync.value)
                     && StampedIn(pool.db.bids, cmds[i], replies[cmds[i].tag], sync.value)
      ensures var r := OneByOne(r0, cmds);
              calm ==> replies == r.replies && pool.db.bids == r.db.bids && auctions == r.cache
    {
      hide Books, Causes, Scripted, Coherent, CommandTags, DistinctTags, Explained, Recorded, InSync, OnTime, StampedIn;
      CloseBooks(pool.open, r0, cmds, calm, sync, Page([]), log);
    }

    lemma Opened(r0: Reference, calm: bool, sync: Option<Sync>)
      requires Coherent(pool.open, Page([])) && r0 == Reference(pool.db, auctions, replies) && log == []
      requires AllTimed(inbox, sync) && DistinctTags(inbox) && CommandTags(inbox) !! replies.Keys
      requires (calm ==> pool.script == []) && (sync.Some? ==> InSync(auctions, pool.db, sync.value))
      ensures Kept(r0, pool.script, [], calm, sync, [])
    {
      hide Coherent, DistinctTags, CommandTags, InSync, AllTimed;
      OpenBooks(pool.open, r0, calm, sync);
      assert [] + inbox == inbox;
    }
  }

  ghost predicate AllTimed(cmds: seq<Command>, sync: Option<Sync>) {
    sync.Some? ==> forall i :: 0 <= i < |cmds| ==> Timed(cmds[i], sync.value)
  }

  lemma NotTimed(cmds: seq<Command>)
    ensures AllTimed(cmds, None)
  {
  }

  lemma NewTag(taken: seq<Command>, inbox: seq<Command>, replied: set<nat>)
    requires inbox != [] && DistinctTags(taken + inbox) && CommandTags(taken + inbox) !! replied
    ensures inbox[0].tag !in replied && forall i :: 0 <= i < |taken| ==> taken[i].tag != inbox[0].tag
  {
    assert (taken + inbox)[|taken|] == inbox[0] && inbox[0] in taken + inbox;
    assert inbox[0].tag in CommandTags(taken + inbox);
    forall i | 0 <= i < |taken| ensures taken[i].tag != inbox[0].tag {
      assert (taken + inbox)[i] == taken[i];
    }
  }

  lemma NotAnswered(open: map<Uuid, Auction>, r0: Reference, taken: seq<Command>, calm: bool, sync: Option<Sync>,
                    k: Book, cmd: Command)
    requires Books(open, r0, taken, calm, sync, k) && cmd.tag !in r0.replies
    requires forall i :: 0 <= i < |taken| ==> taken[i].tag != cmd.tag
    ensures cmd.tag !in k.replies
  {
    assert cmd.tag !in r0.replies.Keys + CommandTags(taken);
    assert cmd.tag !in k.replies.Keys + Tags(k.batch);
  }

  lemma DistinctPrefix(cmds: seq<Command>, n: nat)
    requires DistinctTags(cmds) && n <= |cmds|
    ensures DistinctTags(cmds[..n])
  {
  }

  lemma OpenBooks(open: map<Uuid, Auction>, r0: Reference, calm: bool, sync: Option<Sync>)
    requires Coherent(open, Book(r0.cache, r0.replies, r0.db, []))
    requires sync.Some? ==> InSync(r0.cache, r0.db, sync.value)
    ensures Books(open, r0, [], calm, sync, Book(r0.cache, r0.replies, r0.db, []))
    ensures Causes(r0.db, [], Book(r0.cache, r0.replies, r0.db, []), [])
  {
    var k := Book(r0.cache, r0.replies, r0.db, []);
    assert r0.db.bids + Rows([]) == r0.db.bids;
    forall a | a in r0.cache ensures a in r0.db.auctions {
      assert a in Memory(k).cache;
    }
  }

  lemma OpenBatch(open: map<Uuid, Auction>, r0: Reference, taken: seq<Command>, calm: bool, sync: Option<Sync>, k: Book)
    requires Books(open, r0, taken, calm, sync, k)
    ensures DistinctPending(k.batch) && Tags(k.batch) !! k.replies.Keys
  {
  }

  /** What the write of the batch makes of the book, over the tables it found. */
  ghost predicate Settles(k: Book, k': Book, e: Event)
    requires e.Wrote?
  {
    && k'.batch == []
    && (if e.fault == Runs && !Refused(e) then
          k'.cache == k.cache && k'.replies == AckAll(k.replies, k.batch)
        else
          k'.cache == EvictAll(k.cache, k.batch) && k'.replies == FailAll(k.replies, k.batch))
    && if e.fault != Fails && !Refused(e) then Commits(e.found.db, Rows(k.batch), k'.db) else k'.db == e.found.db
  }

  lemma SettledBooks(here: Found, r0: Reference, taken: seq<Command>, calm: bool, sync: Option<Sync>, k: Book, k': Book,
                     e: Event)
    requires Books(here.open, r0, taken, calm, sync, k) && DistinctTags(taken) && here.db == k.db
    requires e.Wrote? && e.batch == k.batch && SameOrReached(here, e.found) && Settles(k, k', e)
    requires calm ==> e.found == here && e.fault == Runs
                      && Consistent(OneByOne(r0, taken).db.auctions, OneByOne(r0, taken).db.bids)
    ensures Books(e.found.open, r0, taken, calm, sync, k')
  {
    hide SameOrReached, Consistent, UpdatedFrom, Coherent, Accounted, Honest, Punctual, DistinctTags;
    FoundBooks(here, e.found, r0, taken, calm, sync, k);
    if calm {
      SameKeys(OneByOne(r0, taken).db.auctions, k.db.auctions, OneByOne(r0, taken).db.bids);
    }
    if e.fault == Runs && !Refused(e) {
      AckedBooks(e.found.open, r0, taken, calm, sync, k.(db := e.found.db), k'.db);
    } else {
      FailedBooks(e.found.open, r0, taken, sync, k.(db := e.found.db), k'.db);
    }
  }

  lemma SettledCauses(here: Found, r0: Reference, taken: seq<Command>, calm: bool, sync: Option<Sync>, k: Book,
                      k': Book, log: seq<Event>, e: Event)
    requires Books(here.open, r0, taken, calm, sync, k) && DistinctTags(taken) && here.db == k.db
    requires Causes(r0.db, taken, k, log)
    requires e.Wrote? && e.batch == k.batch && SameOrReached(here, e.found) && Settles(k, k', e)
    ensures Causes(r0.db, taken, k', log + [e])
  {
    hide SameOrReached, Consistent, UpdatedFrom, Coherent, Accounted, Honest, Punctual, DistinctTags, Causes, Mirrors;
    FoundKeys(here, e.found);
    LaterCauses(r0.db, taken, k, log, e.found.db, [e]);
    if k'.db != e.found.db {
      CommittedKeys(e.found.db, Rows(k.batch), k'.db);
    }
    EvictAllKeeps(k.cache, k.batch);
    FoundBooks(here, e.found, r0, taken, false, None, k);
    AnsweredCauses(r0, taken, k.(db := e.found.db), log + [e], k', e);
  }

  lemma CloseBooks(open: map<Uuid, Auction>, r0: Reference, cmds: seq<Command>, calm: bool, sync: Option<Sync>, k: Book,
                   log: seq<Event>)
    requires Books(open, r0, cmds, calm, sync, k) && k.batch == [] && Causes(r0.db, cmds, k, log)
    ensures k.replies.Keys == r0.replies.Keys + CommandTags(cmds) && Coherent(open, k)
    ensures forall t :: t in r0.replies ==> t in k.replies && k.replies[t] == r0.replies[t]
    ensures forall i :: 0 <= i < |cmds| ==>
              && cmds[i].tag in k.replies && Recorded(k.db.bids, cmds[i], k.replies[cmds[i].tag])
              && Explained(r0.db, k.db, cmds[i], k.replies[cmds[i].tag], log)
    ensures sync.Some? ==>
              && InSync(k.cache, k.db, sync.value)
              && forall i :: 0 <= i < |cmds| ==>
                   && OnTime(open, k.db, cmds[i], k.replies[cmds[i].tag], sync.value)
                   && StampedIn(k.db.bids, cmds[i], k.replies[cmds[i].tag], sync.value)
    ensures var r := OneByOne(r0, cmds);
            calm ==> k.replies == r.replies && k.db.bids == r.db.bids && k.cache == r.cache
  {
    assert Tags(k.batch) == {};
    assert k.db.bids + Rows(k.batch) == k.db.bids;
    forall i | 0 <= i < |cmds| ensures cmds[i].tag in CommandTags(cmds) {
      assert cmds[i] in cmds;
    }
  }
}
