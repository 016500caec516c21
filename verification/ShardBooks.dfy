/** What the shard's loop keeps at every point, whatever becomes of its commits,
    and how far it is from the same commands decided and committed one by one. */
module ShardBooks {
  import opened Contract
  import opened Tables
  import opened Ledger
  import opened ShardEngine
  import W = World
  import Safety

  /** A point of the loop: the map, the answers sent, the tables, the open batch. */
  datatype Book = Book(
    cache: map<Uuid, Cached>,
    replies: map<nat, Reply>,
    db: Db,
    batch: seq<Pending>)

  /** Commands taken are answers sent plus the open batch, and no answer is sent
      twice. */
  ghost predicate Accounted(r0: Reference, taken: seq<Command>, k: Book) {
    && DistinctPending(k.batch)
    && Tags(k.batch) !! k.replies.Keys
    && k.replies.Keys + Tags(k.batch) == r0.replies.Keys + CommandTags(taken)
    && forall t :: t in r0.replies ==> t in k.replies && k.replies[t] == r0.replies[t]
  }

  function Memory(k: Book): W.Shard {
    W.Shard(map a | a in k.cache :: k.cache[a].st, Rows(k.batch))
  }

  ghost predicate Coherent(open: map<Uuid, Auction>, k: Book) {
    Sound(open, k.db) && W.ShardInv(open, k.db, Memory(k))
  }

  predicate RowOf(b: Bid, cmd: Command, seqNo: nat) {
    && b.id == cmd.bidId && b.auction == cmd.req.auction && b.user == cmd.req.user
    && b.amount == cmd.req.amount && b.key == KeyColumn(cmd.req.key) && b.seqNo == seqNo
  }

  /** A pending bid of its command, with the state its 201 will carry. */
  predicate Made(p: Pending, cmd: Command) {
    && p.cmd == cmd && RowOf(p.row, cmd, p.row.seqNo)
    && p.current.version == p.row.seqNo && p.current.highestBid == p.row.amount
  }

  ghost predicate Recorded(bids: seq<Bid>, cmd: Command, reply: Reply) {
    reply.Answer? && reply.result.outcome == Accepted ==>
      && reply.result.bidId == cmd.bidId
      && reply.result.current.Some?
      && reply.result.current.value.version == reply.result.seqNo
      && reply.result.current.value.highestBid == cmd.req.amount
      && exists i :: 0 <= i < |bids| && RowOf(bids[i], cmd, reply.result.seqNo)
  }

  /** Every acceptance answered so far names a row that is in bids, and carries the
      state that row left. */
  ghost predicate Honest(r0: Reference, taken: seq<Command>, k: Book) {
    && (forall i :: 0 <= i < |taken| && taken[i].tag in k.replies ==>
          Recorded(k.db.bids, taken[i], k.replies[taken[i].tag]))
    && (forall j :: 0 <= j < |k.batch| ==>
          k.batch[j].cmd in taken && Made(k.batch[j], k.batch[j].cmd))
  }

  /** The same map and the same answers as one at a time; the same bids once the
      open batch is in; and the rows of auctions nobody touched. */
  ghost predicate Mirrors(r: Reference, k: Book) {
    && k.cache == r.cache
    && k.db.bids + Rows(k.batch) == r.db.bids
    && AckAll(k.replies, k.batch) == r.replies
    && k.db.auctions.Keys == r.db.auctions.Keys
    && k.cache.Keys <= k.db.auctions.Keys
    && (forall a :: a in k.db.auctions && a !in k.cache ==> k.db.auctions[a] == r.db.auctions[a])
    && (forall j :: 0 <= j < |k.batch| ==> k.batch[j].row.auction in k.cache)
  }

  /** An answer against the database's own clock at the guard: what was not over was not
      over for longer than d, and what was over was closed or at most d from its end. */
  ghost predicate OnTime(open: map<Uuid, Auction>, db: Db, cmd: Command, reply: Reply, sync: Sync) {
    reply.Answer? && reply.result.outcome != NotFound ==>
      && cmd.req.auction in open && cmd.req.auction in db.auctions
      && if reply.result.outcome == Closed then
           || db.auctions[cmd.req.auction].status == StatusClosed
           || open[cmd.req.auction].endsAt <= GuardedAt(cmd, sync) + sync.d
         else GuardedAt(cmd, sync) < open[cmd.req.auction].endsAt + sync.d
  }

  /** The map's skews are within bounds, and what it has as closed is. */
  ghost predicate InSync(cache: map<Uuid, Cached>, db: Db, sync: Sync) {
    && Steady(cache, sync)
    && forall a :: a in cache && cache[a].st.status == StatusClosed ==>
         a in db.auctions && db.auctions[a].status == StatusClosed
  }

  /** So the map, the answers sent and those to come keep the time. */
  ghost predicate Punctual(open: map<Uuid, Auction>, taken: seq<Command>, k: Book, sync: Sync) {
    && InSync(k.cache, k.db, sync)
    && (forall i :: 0 <= i < |taken| && taken[i].tag in k.replies ==>
          OnTime(open, k.db, taken[i], k.replies[taken[i].tag], sync))
    && (forall j :: 0 <= j < |k.batch| ==> OnTime(open, k.db, k.batch[j].cmd, AckOf(k.batch[j]), sync))
  }

  /** The row is stamped with the database's own clock, give or take d. */
  predicate StampedNear(b: Bid, cmd: Command, sync: Sync) {
    cmd.stampAt + sync.offset - sync.d <= b.createdAt <= cmd.stampAt + sync.offset + sync.d
  }

  ghost predicate StampedIn(bids: seq<Bid>, cmd: Command, reply: Reply, sync: Sync) {
    reply.Answer? && reply.result.outcome == Accepted ==>
      exists i :: 0 <= i < |bids| && RowOf(bids[i], cmd, reply.result.seqNo) && StampedNear(bids[i], cmd, sync)
  }

  ghost predicate Stamped(taken: seq<Command>, k: Book, sync: Sync) {
    && (forall i :: 0 <= i < |taken| && taken[i].tag in k.replies ==>
          StampedIn(k.db.bids, taken[i], k.replies[taken[i].tag], sync))
    && (forall j :: 0 <= j < |k.batch| ==> StampedNear(k.batch[j].row, k.batch[j].cmd, sync))
  }

  /** calm: nothing fails and nobody else acts. sync: the commands are timed against it. */
  ghost predicate Books(open: map<Uuid, Auction>, r0: Reference, taken: seq<Command>, calm: bool, sync: Option<Sync>,
                        k: Book)
  {
    && Accounted(r0, taken, k)
    && Coherent(open, k)
    && Honest(r0, taken, k)
    && (calm ==> Mirrors(OneByOne(r0, taken), k))
    && (sync.Some? ==> Punctual(open, taken, k, sync.value) && Stamped(taken, k, sync.value))
  }

  /* ---- taking one command ---- */

  /** The book after a decision: an answer sent, or one more bid in the batch. */
  function Entered(k: Book, cmd: Command, d: Decision): Book {
    match d
    case Replied(cache, reply) => k.(cache := cache, replies := k.replies[cmd.tag := reply])
    case Accepts(cache, p) => k.(cache := cache, batch := k.batch + [p])
  }

  lemma OneByOneSnoc(r0: Reference, taken: seq<Command>, cmd: Command)
    ensures OneByOne(r0, taken + [cmd]) == OneMore(OneByOne(r0, taken), cmd)
  {
    assert (taken + [cmd])[..|taken|] == taken;
  }

  lemma RowsSnoc(batch: seq<Pending>, p: Pending)
    ensures Rows(batch + [p]) == Rows(batch) + [p.row]
  {
  }

  lemma EnteredAccounted(r0: Reference, taken: seq<Command>, k: Book, cmd: Command, d: Decision)
    requires Accounted(r0, taken, k)
    requires cmd.tag !in k.replies && cmd.tag !in Tags(k.batch)
    requires d.Accepts? ==> d.p.cmd == cmd
    ensures Accounted(r0, taken + [cmd], Entered(k, cmd, d))
  {
    var k' := Entered(k, cmd, d);
    assert CommandTags(taken + [cmd]) == CommandTags(taken) + {cmd.tag} by {
      assert forall c :: c in taken + [cmd] <==> c in taken || c == cmd;
    }
    if d.Accepts? {
      assert forall p :: p in k'.batch <==> p in k.batch || p == d.p;
      assert Tags(k'.batch) == Tags(k.batch) + {cmd.tag};
      forall i, j | 0 <= i < j < |k'.batch| ensures k'.batch[i].cmd.tag != k'.batch[j].cmd.tag {
        if j == |k.batch| {
          assert k.batch[i] in k.batch;
        }
      }
    }
  }

  lemma EnteredHonest(r0: Reference, taken: seq<Command>, k: Book, cmd: Command, d: Decision)
    requires Honest(r0, taken, k) && cmd.tag !in k.replies
    requires d.Accepts? ==> Made(d.p, cmd)
    requires d.Replied? && d.reply.Answer? ==> d.reply.result.outcome != Accepted
    requires forall i :: 0 <= i < |taken| ==> taken[i].tag != cmd.tag
    ensures Honest(r0, taken + [cmd], Entered(k, cmd, d))
  {
  }

  lemma HydratedCoherent(open: map<Uuid, Auction>, k: Book, cmd: Command)
    requires Coherent(open, k) && cmd.req.auction !in k.cache && cmd.req.auction in k.db.auctions
    ensures Coherent(open, k.(cache := k.cache[cmd.req.auction := Hydrated(k.db.auctions[cmd.req.auction], cmd)]))
  {
    hide Sound, W.ShardInv;
    var a := cmd.req.auction;
    var k' := k.(cache := k.cache[a := Hydrated(k.db.auctions[a], cmd)]);
    Safety.HydratedShard(open, k.db, Memory(k), a);
    assert Memory(k').cache == Memory(k).cache[a := k.db.auctions[a].State()];
  }

  lemma CachedDecisionCoherent(open: map<Uuid, Auction>, k: Book, cmd: Command)
    requires Coherent(open, k) && |k.batch| < W.BATCH_MAX && cmd.req.auction in k.cache
    ensures Coherent(open, Entered(k, cmd, DecideCached(k.cache, cmd)))
  {
    hide Sound, W.ShardInv;
    var d := DecideCached(k.cache, cmd);
    var k' := Entered(k, cmd, d);
    if d.Accepts? {
      Safety.DecidedShard(open, k.db, Memory(k), d.p.row);
      RowsSnoc(k.batch, d.p);
      assert Memory(k').cache == W.WithDecided(Memory(k), d.p.row).cache;
    } else {
      assert Memory(k') == Memory(k);
    }
  }

  lemma EnteredCoherent(open: map<Uuid, Auction>, k: Book, cmd: Command, fault: bool)
    requires Coherent(open, k) && |k.batch| < W.BATCH_MAX
    ensures Coherent(open, Entered(k, cmd, DecideOn(k.cache, k.db.auctions, fault, cmd)))
  {
    hide Sound, W.ShardInv;
    var a := cmd.req.auction;
    if a in k.cache {
      CachedDecisionCoherent(open, k, cmd);
    } else if !fault && a in k.db.auctions {
      HydratedCoherent(open, k, cmd);
      CachedDecisionCoherent(open, k.(cache := k.cache[a := Hydrated(k.db.auctions[a], cmd)]), cmd);
    } else {
      assert Memory(Entered(k, cmd, DecideOn(k.cache, k.db.auctions, fault, cmd))) == Memory(k);
    }
  }

  lemma {:induction false} AckAllAround(replies: map<nat, Reply>, batch: seq<Pending>, tag: nat, reply: Reply)
    requires tag !in Tags(batch)
    ensures AckAll(replies[tag := reply], batch) == AckAll(replies, batch)[tag := reply]
  {
    if batch != [] {
      var last := batch[|batch| - 1];
      assert last in batch;
      forall p | p in batch[..|batch| - 1] ensures p.cmd.tag != tag {
        assert p in batch;
      }
      AckAllAround(replies, batch[..|batch| - 1], tag, reply);
    }
  }

  lemma SameDecision(r: Reference, k: Book, cmd: Command)
    requires Mirrors(r, k)
    ensures DecideOn(k.cache, k.db.auctions, false, cmd) == DecideOn(r.cache, r.db.auctions, false, cmd)
  {
    hide Rows, AckAll;
  }

  lemma AcceptedMirrors(r: Reference, k: Book, cmd: Command, d: Decision)
    requires Mirrors(r, k) && d.Accepts? && d.p.cmd == cmd
    requires d.cache.Keys == k.cache.Keys + {d.p.row.auction} && d.p.row.auction in k.db.auctions
    ensures Mirrors(Reference(Write(r.db, d.p.row), d.cache, r.replies[cmd.tag := AckOf(d.p)]), Entered(k, cmd, d))
  {
    RowsSnoc(k.batch, d.p);
    assert (k.batch + [d.p])[..|k.batch|] == k.batch;
    assert k.db.bids + (Rows(k.batch) + [d.p.row]) == (k.db.bids + Rows(k.batch)) + [d.p.row];
  }

  lemma AcceptKeys(k: Book, cmd: Command)
    requires k.cache.Keys <= k.db.auctions.Keys
    ensures var d := DecideOn(k.cache, k.db.auctions, false, cmd);
            && k.cache.Keys <= d.cache.Keys <= k.db.auctions.Keys
            && (d.Accepts? ==> d.p.cmd == cmd && d.cache.Keys == k.cache.Keys + {d.p.row.auction})
  {
  }

  lemma EnteredMirrors(r: Reference, k: Book, cmd: Command)
    requires Mirrors(r, k) && cmd.tag !in Tags(k.batch)
    ensures Mirrors(OneMore(r, cmd), Entered(k, cmd, DecideOn(k.cache, k.db.auctions, false, cmd)))
  {
    hide DecideOn, Rows, AckAll;
    var d := DecideOn(k.cache, k.db.auctions, false, cmd);
    SameDecision(r, k, cmd);
    AcceptKeys(k, cmd);
    match d
    case Replied(cache, reply) => AckAllAround(k.replies, k.batch, cmd.tag, reply);
    case Accepts(cache, p) => AcceptedMirrors(r, k, cmd, d);
  }

  lemma CachedEnds(open: map<Uuid, Auction>, k: Book, a: Uuid)
    requires Coherent(open, k)
    ensures a in k.cache ==> a in open && a in k.db.auctions && k.cache[a].st.endsAt == open[a].endsAt
    ensures a in k.db.auctions ==> a in open && k.db.auctions[a].endsAt == open[a].endsAt
  {
    hide Consistent, Valid;
    if a in k.cache {
      assert a in Memory(k).cache;
    }
    if a in k.db.auctions {
      assert SoundAt(open, k.db, a);
    }
  }

  lemma EnteredInSync(k: Book, cmd: Command, fault: bool, sync: Sync)
    requires InSync(k.cache, k.db, sync) && Timed(cmd, sync)
    ensures InSync(Entered(k, cmd, DecideOn(k.cache, k.db.auctions, fault, cmd)).cache, k.db, sync)
  {
    hide Steady;
    ClosingAgreesAwayFromTheEnd(k.cache, k.db.auctions, fault, cmd, sync);
  }

  lemma DecisionIsOnTime(open: map<Uuid, Auction>, k: Book, cmd: Command, fault: bool, sync: Sync)
    requires Coherent(open, k) && InSync(k.cache, k.db, sync) && Timed(cmd, sync)
    ensures var d := DecideOn(k.cache, k.db.auctions, fault, cmd);
            && (d.Replied? ==> OnTime(open, k.db, cmd, d.reply, sync))
            && (d.Accepts? ==> OnTime(open, k.db, d.p.cmd, AckOf(d.p), sync))
  {
    hide Coherent, Steady, Timed;
    ClosingAgreesAwayFromTheEnd(k.cache, k.db.auctions, fault, cmd, sync);
    CachedEnds(open, k, cmd.req.auction);
  }

  lemma EnteredPunctual(open: map<Uuid, Auction>, taken: seq<Command>, k: Book, cmd: Command, fault: bool, sync: Sync)
    requires Coherent(open, k) && Punctual(open, taken, k, sync) && Timed(cmd, sync)
    requires cmd.tag !in k.replies && forall i :: 0 <= i < |taken| ==> taken[i].tag != cmd.tag
    ensures Punctual(open, taken + [cmd], Entered(k, cmd, DecideOn(k.cache, k.db.auctions, fault, cmd)), sync)
  {
    hide Coherent, InSync, OnTime, DecideOn, Timed;
    EnteredInSync(k, cmd, fault, sync);
    DecisionIsOnTime(open, k, cmd, fault, sync);
  }

  lemma EnteredStamped(taken: seq<Command>, k: Book, cmd: Command, fault: bool, sync: Sync)
    requires Stamped(taken, k, sync) && InSync(k.cache, k.db, sync) && Timed(cmd, sync)
    requires cmd.tag !in k.replies && forall i :: 0 <= i < |taken| ==> taken[i].tag != cmd.tag
    ensures Stamped(taken + [cmd], Entered(k, cmd, DecideOn(k.cache, k.db.auctions, fault, cmd)), sync)
  {
    hide StampedIn, Timed;
    var d := DecideOn(k.cache, k.db.auctions, fault, cmd);
    if cmd.req.auction in k.db.auctions {
      HydratedIsSteady(k.db.auctions[cmd.req.auction], cmd, sync);
    }
    if d.Replied? {
      RejectionsHaveNoStamp(k.db.bids, k.cache, k.db.auctions, fault, cmd, sync);
    }
  }

  lemma PunctualIsInSync(open: map<Uuid, Auction>, taken: seq<Command>, k: Book, sync: Sync)
    requires Punctual(open, taken, k, sync)
    ensures InSync(k.cache, k.db, sync)
  {
  }

  lemma RejectionsHaveNoStamp(bids: seq<Bid>, cache: map<Uuid, Cached>, auctions: map<Uuid, Auction>, fault: bool,
                              cmd: Command, sync: Sync)
    requires DecideOn(cache, auctions, fault, cmd).Replied?
    ensures StampedIn(bids, cmd, DecideOn(cache, auctions, fault, cmd).reply, sync)
  {
  }

  /** Stamps stay while bids are only appended. */
  lemma StillStamped(taken: seq<Command>, k: Book, db': Db, sync: Sync)
    requires Stamped(taken, k, sync) && k.db.bids <= db'.bids
    ensures Stamped(taken, k.(db := db'), sync)
  {
    hide StampedNear, RowOf;
    forall i | 0 <= i < |taken| && taken[i].tag in k.replies
      ensures StampedIn(db'.bids, taken[i], k.replies[taken[i].tag], sync)
    {
      StampStays(k.db.bids, db'.bids, taken[i], k.replies[taken[i].tag], sync);
    }
  }

  lemma StampStays(bids: seq<Bid>, bids': seq<Bid>, cmd: Command, reply: Reply, sync: Sync)
    requires StampedIn(bids, cmd, reply, sync) && bids <= bids'
    ensures StampedIn(bids', cmd, reply, sync)
  {
    hide StampedNear, RowOf;
    if reply.Answer? && reply.result.outcome == Accepted {
      var i :| 0 <= i < |bids| && RowOf(bids[i], cmd, reply.result.seqNo) && StampedNear(bids[i], cmd, sync);
      assert bids'[i] == bids[i];
    }
  }

  /** A turn of the loop that takes one command. */
  lemma EnteredBooks(open: map<Uuid, Auction>, r0: Reference, taken: seq<Command>, calm: bool, sync: Option<Sync>,
                     k: Book, cmd: Command, fault: bool)
    requires Books(open, r0, taken, calm, sync, k) && |k.batch| < W.BATCH_MAX
    requires sync.Some? ==> Timed(cmd, sync.value)
    requires cmd.tag !in r0.replies && forall i :: 0 <= i < |taken| ==> taken[i].tag != cmd.tag
    requires calm ==> !fault
    ensures cmd.tag !in k.replies && cmd.tag !in Tags(k.batch)
    ensures Books(open, r0, taken + [cmd], calm, sync, Entered(k, cmd, DecideOn(k.cache, k.db.auctions, fault, cmd)))
  {
    hide Coherent, Mirrors, OneByOne, Punctual, Timed, Stamped, InSync;
    var d := DecideOn(k.cache, k.db.auctions, fault, cmd);
    assert cmd.tag !in r0.replies.Keys + CommandTags(taken);
    assert cmd.tag !in k.replies.Keys + Tags(k.batch);
    RepliesAreRejections(k.cache, k.db.auctions, fault, cmd);
    EnteredAccounted(r0, taken, k, cmd, d);
    EnteredHonest(r0, taken, k, cmd, d);
    EnteredCoherent(open, k, cmd, fault);
    if sync.Some? {
      EnteredPunctual(open, taken, k, cmd, fault, sync.value);
      EnteredStamped(taken, k, cmd, fault, sync.value) by {
        PunctualIsInSync(open, taken, k, sync.value);
      }
    }
    if calm {
      OneByOneSnoc(r0, taken, cmd);
      EnteredMirrors(OneByOne(r0, taken), k, cmd);
    }
  }

  lemma RepliesAreRejections(cache: map<Uuid, Cached>, auctions: map<Uuid, Auction>, fault: bool, cmd: Command)
    ensures var d := DecideOn(cache, auctions, fault, cmd);
            && (d.Replied? && d.reply.Answer? ==> d.reply.result.outcome != Accepted)
            && (d.Accepts? ==> Made(d.p, cmd))
  {
  }

  /* ---- what the rest of the system does meanwhile ---- */

  lemma ShardFound(x: Found, y: Found, sh: W.Shard)
    requires W.ShardInv(x.open, x.db, sh) && Sound(x.open, x.db) && Reaches(x, y)
    ensures W.ShardInv(y.open, y.db, sh)
  {
    hide SoundAt, W.Tracks;
    forall a | a in sh.cache
      ensures a in y.open && W.Tracks(y.open[a], History(y.db.bids, a), History(sh.batch, a), sh.cache[a])
    {
      assert a in x.open && a in x.db.auctions && a in y.db.auctions;
      assert GrowsAt(x.open, x.db, y.db, a);
      W.TracksSurvives(x.open[a], History(x.db.bids, a), History(y.db.bids, a), History(sh.batch, a), sh.cache[a]);
    }
  }

  lemma HonestFound(r0: Reference, taken: seq<Command>, k: Book, db': Db)
    requires Honest(r0, taken, k) && k.db.bids <= db'.bids
    ensures Honest(r0, taken, k.(db := db'))
  {
    hide Recorded;
    var more := db'.bids[|k.db.bids|..];
    assert db'.bids == k.db.bids + more;
    forall i | 0 <= i < |taken| && taken[i].tag in k.replies
      ensures Recorded(db'.bids, taken[i], k.replies[taken[i].tag])
    {
      RecordedStays(k.db.bids, more, taken[i], k.replies[taken[i].tag]);
    }
  }

  /** What was true of the time stays true while auctions only close. */
  lemma StillOnTime(open: map<Uuid, Auction>, db: Db, open': map<Uuid, Auction>, db': Db, cmd: Command, reply: Reply,
                    sync: Sync)
    requires OnTime(open, db, cmd, reply, sync) && OnlyCloses(open, db, open', db')
    ensures OnTime(open', db', cmd, reply, sync)
  {
  }

  predicate OnlyCloses(open: map<Uuid, Auction>, db: Db, open': map<Uuid, Auction>, db': Db) {
    && (forall a :: a in open ==> a in open' && open'[a] == open[a])
    && forall a :: a in db.auctions ==>
         a in db'.auctions && (db.auctions[a].status == StatusClosed ==> db'.auctions[a].status == StatusClosed)
  }

  lemma StillPunctual(open: map<Uuid, Auction>, open': map<Uuid, Auction>, taken: seq<Command>, k: Book, db': Db,
                      sync: Sync)
    requires Punctual(open, taken, k, sync) && OnlyCloses(open, k.db, open', db')
    ensures Punctual(open', taken, k.(db := db'), sync)
  {
    hide OnTime, Steady;
    forall i | 0 <= i < |taken| && taken[i].tag in k.replies
      ensures OnTime(open', db', taken[i], k.replies[taken[i].tag], sync)
    {
      StillOnTime(open, k.db, open', db', taken[i], k.replies[taken[i].tag], sync);
    }
    forall j | 0 <= j < |k.batch| ensures OnTime(open', db', k.batch[j].cmd, AckOf(k.batch[j]), sync) {
      StillOnTime(open, k.db, open', db', k.batch[j].cmd, AckOf(k.batch[j]), sync);
    }
  }

  lemma FoundOnlyCloses(x: Found, y: Found)
    requires Sound(x.open, x.db) && Reaches(x, y)
    ensures OnlyCloses(x.open, x.db, y.open, y.db)
  {
    hide SoundAt, Consistent;
    forall a | a in x.db.auctions
      ensures a in y.db.auctions
      ensures x.db.auctions[a].status == StatusClosed ==> y.db.auctions[a].status == StatusClosed
    {
      assert a in x.open;
      assert GrowsAt(x.open, x.db, y.db, a);
    }
  }

  /** Other writers and late landings leave the account as it was. */
  lemma FoundBooks(x: Found, y: Found, r0: Reference, taken: seq<Command>, calm: bool, sync: Option<Sync>, k: Book)
    requires Books(x.open, r0, taken, calm, sync, k) && x.db == k.db && SameOrReached(x, y) && (calm ==> x == y)
    ensures Books(y.open, r0, taken, calm, sync, k.(db := y.db))
  {
    hide Accounted, Honest, Mirrors, Punctual, Stamped, Sound, W.ShardInv, Grows;
    if x == y {
      assert k.(db := y.db) == k;
    } else {
      ShardFound(x, y, Memory(k));
      HonestFound(r0, taken, k, y.db);
      if sync.Some? {
        FoundOnlyCloses(x, y);
        StillPunctual(x.open, y.open, taken, k, y.db, sync.value);
        StillStamped(taken, k, y.db, sync.value);
      }
      SameAccount(r0, taken, k, y.db);
      assert Memory(k.(db := y.db)) == Memory(k);
    }
  }

  lemma SameAccount(r0: Reference, taken: seq<Command>, k: Book, db': Db)
    requires Accounted(r0, taken, k)
    ensures Accounted(r0, taken, k.(db := db'))
  {
  }

  /* ---- committing the batch ---- */

  lemma {:induction false} AckAllKeys(replies: map<nat, Reply>, batch: seq<Pending>)
    ensures AckAll(replies, batch).Keys == replies.Keys + Tags(batch)
    ensures FailAll(replies, batch).Keys == replies.Keys + Tags(batch)
    ensures forall t :: t in replies && t !in Tags(batch) ==>
              AckAll(replies, batch)[t] == replies[t] && FailAll(replies, batch)[t] == replies[t]
  {
    if batch != [] {
      var front, last := batch[..|batch| - 1], batch[|batch| - 1];
      AckAllKeys(replies, front);
      assert batch == front + [last];
      assert forall p :: p in batch <==> p in front || p == last;
      assert Tags(batch) == Tags(front) + {last.cmd.tag};
    } else {
      assert Tags(batch) == {};
    }
  }

  lemma {:induction false} AckAllAt(replies: map<nat, Reply>, batch: seq<Pending>, j: nat)
    requires DistinctPending(batch) && j < |batch|
    ensures batch[j].cmd.tag in AckAll(replies, batch) && AckAll(replies, batch)[batch[j].cmd.tag] == AckOf(batch[j])
    ensures batch[j].cmd.tag in FailAll(replies, batch) && FailAll(replies, batch)[batch[j].cmd.tag] == Failed
  {
    if j < |batch| - 1 {
      AckAllAt(replies, batch[..|batch| - 1], j);
    }
  }

  /** Answering the batch keeps the account, whichever answer it is. */
  lemma AnsweredAccounted(r0: Reference, taken: seq<Command>, k: Book, k': Book)
    requires Accounted(r0, taken, k) && k'.batch == []
    requires k'.replies == AckAll(k.replies, k.batch) || k'.replies == FailAll(k.replies, k.batch)
    ensures Accounted(r0, taken, k')
  {
    AckAllKeys(k.replies, k.batch);
    assert Tags(k'.batch) == {};
  }

  lemma RecordedStays(bids: seq<Bid>, more: seq<Bid>, cmd: Command, reply: Reply)
    requires Recorded(bids, cmd, reply)
    ensures Recorded(bids + more, cmd, reply)
  {
    if reply.Answer? && reply.result.outcome == Accepted {
      var i :| 0 <= i < |bids| && RowOf(bids[i], cmd, reply.result.seqNo);
      assert (bids + more)[i] == bids[i];
    }
  }

  /** The answer a command of the batch gets, against the bids after the commit. */
  lemma AckRecorded(k: Book, j: nat, bids: seq<Bid>)
    requires j < |k.batch| && Made(k.batch[j], k.batch[j].cmd)
    ensures Recorded(bids + Rows(k.batch), k.batch[j].cmd, AckOf(k.batch[j]))
  {
    assert (bids + Rows(k.batch))[|bids| + j] == k.batch[j].row;
  }

  lemma AckedHonest(r0: Reference, taken: seq<Command>, k: Book, k': Book)
    requires Accounted(r0, taken, k) && Honest(r0, taken, k) && k'.batch == [] && DistinctTags(taken)
    requires k'.replies == AckAll(k.replies, k.batch) && k'.db.bids == k.db.bids + Rows(k.batch)
    ensures Honest(r0, taken, k')
  {
    AckAllKeys(k.replies, k.batch);
    forall i | 0 <= i < |taken| && taken[i].tag in k'.replies
      ensures Recorded(k'.db.bids, taken[i], k'.replies[taken[i].tag])
    {
      if taken[i].tag in Tags(k.batch) {
        var j := TagPosition(k.batch, taken[i].tag);
        AckAllAt(k.replies, k.batch, j);
        SameTagSameCommand(taken, k.batch[j].cmd, i);
        AckRecorded(k, j, k.db.bids);
      } else {
        RecordedStays(k.db.bids, Rows(k.batch), taken[i], k.replies[taken[i].tag]);
      }
    }
  }

  lemma TagPosition(batch: seq<Pending>, tag: nat) returns (j: nat)
    requires tag in Tags(batch)
    ensures j < |batch| && batch[j].cmd.tag == tag
  {
    var p :| p in batch && p.cmd.tag == tag;
    j :| 0 <= j < |batch| && batch[j] == p;
  }

  lemma SameTagSameCommand(taken: seq<Command>, cmd: Command, i: nat)
    requires DistinctTags(taken) && cmd in taken && i < |taken| && taken[i].tag == cmd.tag
    ensures taken[i] == cmd
  {
    var j :| 0 <= j < |taken| && taken[j] == cmd;
  }

  lemma FailedHonest(r0: Reference, taken: seq<Command>, k: Book, k': Book)
    requires Accounted(r0, taken, k) && Honest(r0, taken, k) && k'.batch == []
    requires k'.replies == FailAll(k.replies, k.batch)
    requires k'.db.bids == k.db.bids || k'.db.bids == k.db.bids + Rows(k.batch)
    ensures Honest(r0, taken, k')
  {
    AckAllKeys(k.replies, k.batch);
    forall i | 0 <= i < |taken| && taken[i].tag in k'.replies
      ensures Recorded(k'.db.bids, taken[i], k'.replies[taken[i].tag])
    {
      if taken[i].tag in Tags(k.batch) {
        var j := TagPosition(k.batch, taken[i].tag);
        AckAllAt(k.replies, k.batch, j);
      } else {
        RecordedStays(k.db.bids, Rows(k.batch), taken[i], k.replies[taken[i].tag]);
      }
    }
  }

  lemma CommittedCoherent(open: map<Uuid, Auction>, k: Book, db': Db, replies': map<nat, Reply>)
    requires Coherent(open, k) && Commits(k.db, Rows(k.batch), db')
    ensures Coherent(open, Book(k.cache, replies', db', []))
    ensures Coherent(open, k.(db := db'))
  {
    Safety.CommittedShard(open, k.db, Memory(k), db');
    W.TrackedIsPending(open, k.db, Memory(k));
    CommitKeepsSound(open, k.db, Rows(k.batch), db');
    W.ShardSurvives(open, k.db, db', Memory(k));
    assert Memory(Book(k.cache, replies', db', [])) == Memory(k).(batch := []);
  }

  lemma {:induction false} EvictAllKeeps(cache: map<Uuid, Cached>, batch: seq<Pending>)
    ensures forall a :: a in EvictAll(cache, batch) <==>
              a in cache && forall j :: 0 <= j < |batch| ==> batch[j].row.auction != a
    ensures forall a :: a in EvictAll(cache, batch) ==> EvictAll(cache, batch)[a] == cache[a]
  {
    if batch != [] {
      EvictAllKeeps(cache, batch[..|batch| - 1]);
    }
  }

  lemma EvictedCoherent(open: map<Uuid, Auction>, k: Book, replies': map<nat, Reply>)
    requires Coherent(open, k)
    ensures Coherent(open, Book(EvictAll(k.cache, k.batch), replies', k.db, []))
  {
    hide Sound, W.ShardInv;
    var k' := Book(EvictAll(k.cache, k.batch), replies', k.db, []);
    EvictAllKeeps(k.cache, k.batch);
    Safety.EvictedKeeps(open, k.db, Memory(k));
    forall a | a in k'.cache ensures History(Rows(k.batch), a) == [] {
      Safety.NoRowsElsewhere(Rows(k.batch), a);
    }
    Subcache(open, k.db, W.Evicted(Memory(k)), Memory(k'));
  }

  lemma Subcache(open: map<Uuid, Auction>, db: Db, sh: W.Shard, sh': W.Shard)
    requires W.ShardInv(open, db, sh) && sh.batch == [] && sh'.batch == []
    requires forall a :: a in sh'.cache ==> a in sh.cache && sh'.cache[a] == sh.cache[a]
    ensures W.ShardInv(open, db, sh')
  {
  }

  lemma CommittedMirrors(r: Reference, k: Book, db': Db)
    requires Mirrors(r, k) && Commits(k.db, Rows(k.batch), db')
    ensures Mirrors(r, Book(k.cache, AckAll(k.replies, k.batch), db', []))
  {
    hide Consistent;
    assert db'.bids + Rows([]) == db'.bids;
    forall a | a in db'.auctions && a !in k.cache ensures db'.auctions[a] == k.db.auctions[a] {
      assert forall j :: 0 <= j < |k.batch| ==> Rows(k.batch)[j].auction != a;
    }
  }

  /** One at a time, the tables only grow: what is consistent at the end was
      consistent all along. */
  lemma {:induction false} OneByOneGrows(r0: Reference, cmds: seq<Command>, n: nat)
    requires n <= |cmds|
    ensures OneByOne(r0, cmds[..n]).db.bids <= OneByOne(r0, cmds).db.bids
    ensures OneByOne(r0, cmds[..n]).db.auctions.Keys == OneByOne(r0, cmds).db.auctions.Keys
    decreases |cmds|
  {
    if n == |cmds| {
      assert cmds[..n] == cmds;
    } else {
      OneByOneGrows(r0, cmds[..|cmds| - 1], n);
      assert cmds[..|cmds| - 1][..n] == cmds[..n];
    }
  }

  lemma ConsistentBefore(r0: Reference, cmds: seq<Command>, n: nat)
    requires n <= |cmds|
    requires Consistent(OneByOne(r0, cmds).db.auctions, OneByOne(r0, cmds).db.bids)
    ensures Consistent(OneByOne(r0, cmds[..n]).db.auctions, OneByOne(r0, cmds[..n]).db.bids)
  {
    var r, rn := OneByOne(r0, cmds), OneByOne(r0, cmds[..n]);
    OneByOneGrows(r0, cmds, n);
    var rest := r.db.bids[|rn.db.bids|..];
    assert r.db.bids == rn.db.bids + rest;
    ConsistentPrefix(r.db.auctions, rn.db.bids, rest);
    SameKeys(r.db.auctions, rn.db.auctions, rn.db.bids);
  }

  lemma SameKeys(auctions: map<Uuid, Auction>, auctions': map<Uuid, Auction>, bids: seq<Bid>)
    requires Consistent(auctions, bids) && auctions.Keys == auctions'.Keys
    ensures Consistent(auctions', bids)
  {
    W.SameKeysSameConsistency(auctions, auctions', bids);
  }

  lemma CommitOnlyCloses(open: map<Uuid, Auction>, db: Db, rows: seq<Bid>, db': Db)
    requires Commits(db, rows, db')
    ensures OnlyCloses(open, db, open, db')
  {
    hide Consistent;
  }

  /** The batch's answers were on time when they were decided. */
  lemma AckedPunctual(open: map<Uuid, Auction>, r0: Reference, taken: seq<Command>, k: Book, k': Book, sync: Sync)
    requires Accounted(r0, taken, k) && Honest(r0, taken, k) && DistinctTags(taken) && Punctual(open, taken, k, sync)
    requires k'.batch == [] && k'.cache == k.cache && k'.db == k.db && k'.replies == AckAll(k.replies, k.batch)
    ensures Punctual(open, taken, k', sync)
  {
    hide OnTime, InSync, AckOf, Recorded;
    AckAllKeys(k.replies, k.batch);
    forall i | 0 <= i < |taken| && taken[i].tag in k'.replies
      ensures OnTime(open, k'.db, taken[i], k'.replies[taken[i].tag], sync)
    {
      if taken[i].tag in Tags(k.batch) {
        var j := TagPosition(k.batch, taken[i].tag);
        AckAllAt(k.replies, k.batch, j);
        SameTagSameCommand(taken, k.batch[j].cmd, i);
      }
    }
  }

  lemma FailedPunctual(open: map<Uuid, Auction>, r0: Reference, taken: seq<Command>, k: Book, k': Book, sync: Sync)
    requires Accounted(r0, taken, k) && Punctual(open, taken, k, sync)
    requires k'.batch == [] && k'.db == k.db
    requires k'.cache == EvictAll(k.cache, k.batch) && k'.replies == FailAll(k.replies, k.batch)
    ensures Punctual(open, taken, k', sync)
  {
    hide Steady;
    AckAllKeys(k.replies, k.batch);
    EvictAllIsSteady(k.cache, k.batch, sync);
    EvictAllKeeps(k.cache, k.batch);
    forall i | 0 <= i < |taken| && taken[i].tag in k'.replies
      ensures OnTime(open, k'.db, taken[i], k'.replies[taken[i].tag], sync)
    {
      if taken[i].tag in Tags(k.batch) {
        var j := TagPosition(k.batch, taken[i].tag);
        AckAllAt(k.replies, k.batch, j);
      }
    }
  }

  lemma AckedStamped(r0: Reference, taken: seq<Command>, k: Book, k': Book, sync: Sync)
    requires Accounted(r0, taken, k) && Honest(r0, taken, k) && DistinctTags(taken) && Stamped(taken, k, sync)
    requires k'.batch == [] && k'.replies == AckAll(k.replies, k.batch) && k'.db.bids == k.db.bids + Rows(k.batch)
    ensures Stamped(taken, k', sync)
  {
    hide StampedIn, StampedNear, Recorded;
    AckAllKeys(k.replies, k.batch);
    forall i | 0 <= i < |taken| && taken[i].tag in k'.replies
      ensures StampedIn(k'.db.bids, taken[i], k'.replies[taken[i].tag], sync)
    {
      if taken[i].tag in Tags(k.batch) {
        var j := TagPosition(k.batch, taken[i].tag);
        AckAllAt(k.replies, k.batch, j);
        SameTagSameCommand(taken, k.batch[j].cmd, i);
        AckStamped(k, j, k.db.bids, sync);
      } else {
        StampStays(k.db.bids, k'.db.bids, taken[i], k.replies[taken[i].tag], sync);
      }
    }
  }

  lemma AckStamped(k: Book, j: nat, bids: seq<Bid>, sync: Sync)
    requires j < |k.batch| && Made(k.batch[j], k.batch[j].cmd) && StampedNear(k.batch[j].row, k.batch[j].cmd, sync)
    ensures StampedIn(bids + Rows(k.batch), k.batch[j].cmd, AckOf(k.batch[j]), sync)
  {
    assert (bids + Rows(k.batch))[|bids| + j] == k.batch[j].row;
  }

  lemma FailedStamped(r0: Reference, taken: seq<Command>, k: Book, k': Book, sync: Sync)
    requires Accounted(r0, taken, k) && Stamped(taken, k, sync)
    requires k'.batch == [] && k'.replies == FailAll(k.replies, k.batch) && k.db.bids <= k'.db.bids
    ensures Stamped(taken, k', sync)
  {
    hide StampedNear;
    AckAllKeys(k.replies, k.batch);
    forall i | 0 <= i < |taken| && taken[i].tag in k'.replies
      ensures StampedIn(k'.db.bids, taken[i], k'.replies[taken[i].tag], sync)
    {
      if taken[i].tag in Tags(k.batch) {
        var j := TagPosition(k.batch, taken[i].tag);
        AckAllAt(k.replies, k.batch, j);
      } else {
        StampStays(k.db.bids, k'.db.bids, taken[i], k.replies[taken[i].tag], sync);
      }
    }
  }

  /** A commit that was answered with 201s. */
  lemma AckedBooks(open: map<Uuid, Auction>, r0: Reference, taken: seq<Command>, calm: bool, sync: Option<Sync>,
                   k: Book, db': Db)
    requires Books(open, r0, taken, calm, sync, k) && DistinctTags(taken)
    requires Commits(k.db, Rows(k.batch), db')
    ensures Books(open, r0, taken, calm, sync, Book(k.cache, AckAll(k.replies, k.batch), db', []))
  {
    hide Coherent, Mirrors, OneByOne, Consistent, UpdatedFrom, Punctual, Stamped, Accounted, Honest, OnlyCloses;
    var k' := Book(k.cache, AckAll(k.replies, k.batch), db', []);
    AnsweredAccounted(r0, taken, k, k');
    AckedHonest(r0, taken, k, k');
    CommittedCoherent(open, k, db', k'.replies);
    if sync.Some? {
      CommitOnlyCloses(open, k.db, Rows(k.batch), db');
      AckedPunctual(open, r0, taken, k, k'.(db := k.db), sync.value);
      StillPunctual(open, open, taken, k'.(db := k.db), db', sync.value);
      AckedStamped(r0, taken, k, k', sync.value);
    }
    if calm {
      CommittedMirrors(OneByOne(r0, taken), k, db');
    }
  }

  /** A commit that was answered with errors, whether or not it took effect. */
  lemma FailedBooks(open: map<Uuid, Auction>, r0: Reference, taken: seq<Command>, sync: Option<Sync>, k: Book, db': Db)
    requires Books(open, r0, taken, false, sync, k)
    requires db' == k.db || Commits(k.db, Rows(k.batch), db')
    ensures Books(open, r0, taken, false, sync, Book(EvictAll(k.cache, k.batch), FailAll(k.replies, k.batch), db', []))
  {
    hide Coherent, Consistent, UpdatedFrom, Mirrors, EvictAll, Punctual, Stamped, Accounted, Honest, OnlyCloses;
    var k' := Book(EvictAll(k.cache, k.batch), FailAll(k.replies, k.batch), db', []);
    AnsweredAccounted(r0, taken, k, k');
    FailedHonest(r0, taken, k, k');
    if db' != k.db {
      CommittedCoherent(open, k, db', k.replies);
    }
    EvictedCoherent(open, k.(db := db'), k'.replies);
    if sync.Some? {
      FailedPunctual(open, r0, taken, k, k'.(db := k.db), sync.value);
      FailedStamped(r0, taken, k, k', sync.value);
      if db' != k.db {
        CommitOnlyCloses(open, k.db, Rows(k.batch), db');
        StillPunctual(open, open, taken, k'.(db := k.db), db', sync.value);
      }
    }
  }
}
