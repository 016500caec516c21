/** Eight shards over one database, each cutting its own inbox into batches at
    will: with no failed commit the interleaving shows in nothing a client or a
    reader of one auction can see. */
module Slicing {
  import opened Contract
  import opened Tables
  import opened Ledger
  import opened ShardEngine
  import opened ShardBooks
  import W = World
  import Safety

  const NUM_SHARDS: nat := 8

  /** shardFor: a pure function of the auction's id. */
  type Route = Uuid -> nat

  /** One shard's map, the answers it sent, its open batch, and how many commands
      it has taken off its inbox. */
  datatype Desk = Desk(cache: map<Uuid, Cached>, replies: map<nat, Reply>, batch: seq<Pending>, taken: nat)

  datatype Engine = Engine(db: Db, desks: seq<Desk>)

  datatype Move = Take(i: nat) | Commit(i: nat, after: map<Uuid, Auction>)

  ghost predicate Routed(route: Route, inboxes: seq<seq<Command>>) {
    && |inboxes| == NUM_SHARDS
    && (forall i, j :: 0 <= i < NUM_SHARDS && 0 <= j < |inboxes[i]| ==> route(inboxes[i][j].req.auction) == i)
    && (forall i :: 0 <= i < NUM_SHARDS ==> DistinctTags(inboxes[i]))
  }

  ghost predicate CanMove(inboxes: seq<seq<Command>>, e: Engine, move: Move) {
    && |e.desks| == |inboxes| == NUM_SHARDS
    && match move
       case Take(i) => i < NUM_SHARDS && e.desks[i].taken < |inboxes[i]| && |e.desks[i].batch| < W.BATCH_MAX
       case Commit(i, after) =>
         && i < NUM_SHARDS && e.desks[i].batch != []
         && Commits(e.db, Rows(e.desks[i].batch), Db(after, e.db.bids + Rows(e.desks[i].batch)))
  }

  function Page(e: Engine, i: nat): Book
    requires i < |e.desks|
  {
    Book(e.desks[i].cache, e.desks[i].replies, e.db, e.desks[i].batch)
  }

  ghost function Moved(inboxes: seq<seq<Command>>, e: Engine, move: Move): Engine
    requires CanMove(inboxes, e, move)
  {
    var desk := e.desks[move.i];
    match move
    case Take(i) =>
      var cmd := inboxes[i][desk.taken];
      var k := Entered(Page(e, i), cmd, DecideOn(desk.cache, e.db.auctions, false, cmd));
      e.(desks := e.desks[i := Desk(k.cache, k.replies, k.batch, desk.taken + 1)])
    case Commit(i, after) =>
      Engine(Db(after, e.db.bids + Rows(desk.batch)),
             e.desks[i := desk.(replies := AckAll(desk.replies, desk.batch), batch := [])])
  }

  ghost predicate CanDrive(inboxes: seq<seq<Command>>, e: Engine, moves: seq<Move>)
    decreases |moves|
  {
    moves == [] || (CanMove(inboxes, e, moves[0]) && CanDrive(inboxes, Moved(inboxes, e, moves[0]), moves[1..]))
  }

  ghost function Driven(inboxes: seq<seq<Command>>, e: Engine, moves: seq<Move>): Engine
    requires CanDrive(inboxes, e, moves)
    decreases |moves|
  {
    if moves == [] then e else Driven(inboxes, Moved(inboxes, e, moves[0]), moves[1..])
  }

  /** What shard i shows against its own commands taken one at a time: the map, the
      answers and, for the auctions routed to it, the bids and the untouched rows. */
  ghost predicate Shows(route: Route, i: nat, r: Reference, k: Book) {
    && k.cache == r.cache
    && AckAll(k.replies, k.batch) == r.replies
    && k.db.auctions.Keys == r.db.auctions.Keys
    && k.cache.Keys <= k.db.auctions.Keys
    && (forall a :: a in k.cache ==> route(a) == i)
    && (forall a :: a in k.db.auctions && route(a) == i && a !in k.cache ==> k.db.auctions[a] == r.db.auctions[a])
    && (forall a :: route(a) == i ==>
          History(k.db.bids, a) + History(Rows(k.batch), a) == History(r.db.bids, a))
    && (forall j :: 0 <= j < |k.batch| ==> k.batch[j].row.auction in k.cache)
  }

  function Alone(db: Db, inbox: seq<Command>, n: nat): Reference
    requires n <= |inbox|
  {
    OneByOne(Reference(db, map[], map[]), inbox[..n])
  }

  ghost predicate DeskInv(route: Route, db0: Db, inbox: seq<Command>, i: nat, e: Engine)
    requires i < |e.desks|
  {
    && e.desks[i].taken <= |inbox|
    && (forall p :: p in e.desks[i].batch ==> p.cmd in inbox[..e.desks[i].taken])
    && Shows(route, i, Alone(db0, inbox, e.desks[i].taken), Page(e, i))
  }

  ghost predicate EngineInv(route: Route, db0: Db, inboxes: seq<seq<Command>>, e: Engine) {
    && |e.desks| == |inboxes| == NUM_SHARDS
    && forall i :: 0 <= i < NUM_SHARDS ==> DeskInv(route, db0, inboxes[i], i, e)
  }

  lemma TakenAccepted(route: Route, i: nat, r: Reference, k: Book, cmd: Command, d: Decision)
    requires Shows(route, i, r, k) && d.Accepts? && d.p.cmd == cmd
    requires d.cache.Keys == k.cache.Keys + {d.p.row.auction} && d.p.row.auction in k.db.auctions
    requires route(d.p.row.auction) == i
    ensures Shows(route, i, Reference(Write(r.db, d.p.row), d.cache, r.replies[cmd.tag := AckOf(d.p)]),
                  Entered(k, cmd, d))
  {
    hide Commits, Consistent, History;
    assert (k.batch + [d.p])[..|k.batch|] == k.batch;
    forall a | route(a) == i
      ensures History(k.db.bids, a) + History(Rows(k.batch + [d.p]), a) == History(r.db.bids + [d.p.row], a)
    {
      OneMoreBid(r.db.bids, k, d.p, a);
    }
  }

  lemma OneMoreBid(bids: seq<Bid>, k: Book, p: Pending, a: Uuid)
    requires History(k.db.bids, a) + History(Rows(k.batch), a) == History(bids, a)
    ensures History(k.db.bids, a) + History(Rows(k.batch + [p]), a) == History(bids + [p.row], a)
  {
    RowsSnoc(k.batch, p);
    HistoryConcat(Rows(k.batch), [p.row], a);
    HistoryConcat(bids, [p.row], a);
  }

  lemma TakenShows(route: Route, i: nat, r: Reference, k: Book, cmd: Command)
    requires Shows(route, i, r, k) && cmd.tag !in Tags(k.batch) && route(cmd.req.auction) == i
    ensures Shows(route, i, OneMore(r, cmd), Entered(k, cmd, DecideOn(k.cache, k.db.auctions, false, cmd)))
  {
    hide Rows, AckAll;
    var d := DecideOn(k.cache, k.db.auctions, false, cmd);
    assert d == DecideOn(r.cache, r.db.auctions, false, cmd);
    AcceptKeys(k, cmd);
    OnlyItsAuction(k, cmd);
    match d
    case Replied(cache, reply) => AckAllAround(k.replies, k.batch, cmd.tag, reply);
    case Accepts(cache, p) => TakenAccepted(route, i, r, k, cmd, d);
  }

  lemma OnlyItsAuction(k: Book, cmd: Command)
    ensures var d := DecideOn(k.cache, k.db.auctions, false, cmd);
            && d.cache.Keys <= k.cache.Keys + {cmd.req.auction}
            && (d.Accepts? ==> d.p.row.auction == cmd.req.auction)
  {
  }

  /** Somebody else's commit is about other auctions. */
  lemma OthersCommitShows(route: Route, i: nat, r: Reference, k: Book, rows: seq<Bid>, db': Db)
    requires Shows(route, i, r, k) && Commits(k.db, rows, db')
    requires forall j :: 0 <= j < |rows| ==> route(rows[j].auction) != i
    ensures Shows(route, i, r, k.(db := db'))
  {
    hide Consistent, Rows, AckAll;
    forall a | route(a) == i ensures History(db'.bids, a) == History(k.db.bids, a) {
      HistoryConcat(k.db.bids, rows, a);
      Safety.NoRowsElsewhere(rows, a);
      assert History(k.db.bids, a) + [] == History(k.db.bids, a);
    }
  }

  lemma OwnCommitShows(route: Route, i: nat, r: Reference, k: Book, db': Db)
    requires Shows(route, i, r, k) && Commits(k.db, Rows(k.batch), db')
    ensures Shows(route, i, r, Book(k.cache, AckAll(k.replies, k.batch), db', []))
  {
    hide Consistent;
    assert Rows([]) == [];
    forall a | route(a) == i ensures History(db'.bids, a) + [] == History(k.db.bids, a) + History(Rows(k.batch), a) {
      HistoryConcat(k.db.bids, Rows(k.batch), a);
    }
    forall a | a in db'.auctions && a !in k.cache ensures db'.auctions[a] == k.db.auctions[a] {
      assert forall j :: 0 <= j < |k.batch| ==> Rows(k.batch)[j].auction != a;
    }
  }

  lemma TakeKeeps(route: Route, db0: Db, inboxes: seq<seq<Command>>, e: Engine, i: nat)
    requires Routed(route, inboxes) && EngineInv(route, db0, inboxes, e) && CanMove(inboxes, e, Take(i))
    ensures EngineInv(route, db0, inboxes, Moved(inboxes, e, Take(i)))
  {
    hide Shows;
    var e', desk := Moved(inboxes, e, Take(i)), e.desks[i];
    var inbox, cmd := inboxes[i], inboxes[i][desk.taken];
    assert DeskInv(route, db0, inbox, i, e);
    FreshTag(inbox, desk);
    TakenShows(route, i, Alone(db0, inbox, desk.taken), Page(e, i), cmd);
    OneByOneSnoc(Reference(db0, map[], map[]), inbox[..desk.taken], cmd);
    assert inbox[..desk.taken] + [cmd] == inbox[..desk.taken + 1];
    RepliesAreRejections(desk.cache, e.db.auctions, false, cmd);
    assert DeskInv(route, db0, inbox, i, e');
    forall x | 0 <= x < NUM_SHARDS && x != i ensures DeskInv(route, db0, inboxes[x], x, e') {
      assert DeskInv(route, db0, inboxes[x], x, e);
      assert Page(e', x) == Page(e, x);
    }
  }

  lemma FreshTag(inbox: seq<Command>, desk: Desk)
    requires DistinctTags(inbox) && desk.taken < |inbox|
    requires forall p :: p in desk.batch ==> p.cmd in inbox[..desk.taken]
    ensures inbox[desk.taken].tag !in Tags(desk.batch)
  {
    forall p | p in desk.batch ensures p.cmd.tag != inbox[desk.taken].tag {
      var j :| 0 <= j < desk.taken && inbox[..desk.taken][j] == p.cmd;
    }
  }

  lemma CommitKeeps(route: Route, db0: Db, inboxes: seq<seq<Command>>, e: Engine, i: nat, after: map<Uuid, Auction>)
    requires Routed(route, inboxes) && EngineInv(route, db0, inboxes, e) && CanMove(inboxes, e, Commit(i, after))
    ensures EngineInv(route, db0, inboxes, Moved(inboxes, e, Commit(i, after)))
  {
    hide Shows, Commits;
    var e', desk := Moved(inboxes, e, Commit(i, after)), e.desks[i];
    assert DeskInv(route, db0, inboxes[i], i, e);
    OwnCommitShows(route, i, Alone(db0, inboxes[i], desk.taken), Page(e, i), e'.db);
    BatchIsRouted(route, i, Alone(db0, inboxes[i], desk.taken), Page(e, i));
    forall x | 0 <= x < NUM_SHARDS && x != i ensures DeskInv(route, db0, inboxes[x], x, e') {
      assert DeskInv(route, db0, inboxes[x], x, e);
      OthersCommitShows(route, x, Alone(db0, inboxes[x], e.desks[x].taken), Page(e, x), Rows(desk.batch), e'.db);
      assert Page(e', x) == Page(e, x).(db := e'.db);
    }
  }

  lemma BatchIsRouted(route: Route, i: nat, r: Reference, k: Book)
    requires Shows(route, i, r, k)
    ensures forall j :: 0 <= j < |Rows(k.batch)| ==> route(Rows(k.batch)[j].auction) == i
  {
  }

  lemma {:induction false} DriveKeeps(route: Route, db0: Db, inboxes: seq<seq<Command>>, e: Engine, moves: seq<Move>)
    requires Routed(route, inboxes) && EngineInv(route, db0, inboxes, e) && CanDrive(inboxes, e, moves)
    ensures EngineInv(route, db0, inboxes, Driven(inboxes, e, moves))
    decreases |moves|
  {
    hide EngineInv, Routed;
    if moves != [] {
      match moves[0] {
        case Take(i) => TakeKeeps(route, db0, inboxes, e, i);
        case Commit(i, after) => CommitKeeps(route, db0, inboxes, e, i, after);
      }
      DriveKeeps(route, db0, inboxes, Moved(inboxes, e, moves[0]), moves[1..]);
    }
  }

  function Boot(db: Db): Engine {
    Engine(db, seq(NUM_SHARDS, i => Desk(map[], map[], [], 0)))
  }

  /** Any slicing of the inboxes into batches and any interleaving of the shards:
      once everything is taken and committed, each command has the answer and each
      auction the bids of its shard's commands taken one at a time. */
  lemma SlicingIsInvisible(route: Route, db0: Db, inboxes: seq<seq<Command>>, moves: seq<Move>, i: nat, a: Uuid)
    requires Routed(route, inboxes) && CanDrive(inboxes, Boot(db0), moves)
    requires i < NUM_SHARDS && route(a) == i
    requires var e := Driven(inboxes, Boot(db0), moves);
             |e.desks| == NUM_SHARDS && e.desks[i].taken == |inboxes[i]| && e.desks[i].batch == []
    ensures var e := Driven(inboxes, Boot(db0), moves);
            var r := OneByOne(Reference(db0, map[], map[]), inboxes[i]);
            && e.desks[i].replies == r.replies
            && e.desks[i].cache == r.cache
            && History(e.db.bids, a) == History(r.db.bids, a)
  {
    hide Routed, CanDrive, Driven;
    var e := Driven(inboxes, Boot(db0), moves);
    BootInv(route, db0, inboxes);
    DriveKeeps(route, db0, inboxes, Boot(db0), moves);
    assert DeskInv(route, db0, inboxes[i], i, e);
    assert inboxes[i][..|inboxes[i]|] == inboxes[i];
    assert Rows([]) == [];
    assert History(e.db.bids, a) + [] == History(e.db.bids, a);
  }

  lemma BootInv(route: Route, db0: Db, inboxes: seq<seq<Command>>)
    requires Routed(route, inboxes)
    ensures EngineInv(route, db0, inboxes, Boot(db0))
  {
    assert Rows([]) == [];
    forall i | 0 <= i < NUM_SHARDS ensures DeskInv(route, db0, inboxes[i], i, Boot(db0)) {
      assert inboxes[i][..0] == [];
      assert forall a :: History(db0.bids, a) + [] == History(db0.bids, a);
    }
  }
}
