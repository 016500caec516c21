/** What the tables are for: per auction a replayable history, and an auctions
    row that is the state after some prefix of it. Here are the facts about one
    insertion that every engine, and every late or repeated commit, rests on. */
module Ledger {
  import opened Contract
  import opened Tables

  /** The bids of one auction, in the order they were inserted. */
  function History(bids: seq<Bid>, a: Uuid): (h: seq<Bid>)
    ensures forall i :: 0 <= i < |h| ==> h[i].auction == a
  {
    if bids == [] then []
    else
      var last := bids[|bids| - 1];
      History(bids[..|bids| - 1], a) + (if last.auction == a then [last] else [])
  }

  lemma {:induction false} HistoryConcat(bids: seq<Bid>, rows: seq<Bid>, a: Uuid)
    ensures History(bids + rows, a) == History(bids, a) + History(rows, a)
  {
    if rows == [] {
      assert bids + rows == bids;
    } else {
      var n := |rows| - 1;
      HistoryConcat(bids, rows[..n], a);
      assert (bids + rows)[..|bids| + n] == bids + rows[..n];
    }
  }

  lemma {:induction false} HistoryPosition(bids: seq<Bid>, a: Uuid, i: nat) returns (j: nat)
    requires i < |History(bids, a)|
    ensures j < |bids| && bids[j] == History(bids, a)[i]
  {
    var n := |bids| - 1;
    if i < |History(bids[..n], a)| {
      j := HistoryPosition(bids[..n], a, i);
    } else {
      j := n;
    }
  }

  lemma {:induction false} PositionInHistory(bids: seq<Bid>, j: nat) returns (i: nat)
    requires j < |bids|
    ensures i < |History(bids, bids[j].auction)| && History(bids, bids[j].auction)[i] == bids[j]
  {
    var n := |bids| - 1;
    if j < n {
      i := PositionInHistory(bids[..n], j);
    } else {
      i := |History(bids[..n], bids[n].auction)|;
    }
  }

  lemma HistoryOfOne(b: Bid, a: Uuid)
    ensures History([b], a) == if b.auction == a then [b] else []
  {
    assert [b][..0] == [];
  }

  /** seq is 1, 2, 3, ... with no hole. */
  predicate Dense(h: seq<Bid>) {
    forall i :: 0 <= i < |h| ==> h[i].seqNo == i + 1
  }

  /** The top and the winner after the first n bids of an auction opened as o. */
  function TopAt(o: Auction, h: seq<Bid>, n: nat): Int64
    requires n <= |h|
  {
    if n == 0 then o.highestBid else h[n - 1].amount
  }

  function BidderAt(o: Auction, h: seq<Bid>, n: nat): Option<Uuid>
    requires n <= |h|
  {
    if n == 0 then o.highestBidder else Some(h[n - 1].user)
  }

  /** Every bid passed the minimum that the bid before it left. */
  predicate Linked(o: Auction, h: seq<Bid>) {
    forall i {:trigger TopAt(o, h, i)} :: 0 <= i < |h| ==> h[i].amount >= WrapAdd(TopAt(o, h, i), o.increment)
  }

  predicate Valid(o: Auction, h: seq<Bid>) {
    Dense(h) && Linked(o, h)
  }

  /** The row is the state after the first row.version bids of h. */
  predicate RowAt(o: Auction, h: seq<Bid>, row: Auction) {
    && row.version <= |h|
    && row.highestBid == TopAt(o, h, row.version)
    && row.highestBidder == BidderAt(o, h, row.version)
    && row.increment == o.increment
    && row.endsAt == o.endsAt
    && (row.status == StatusClosed <==> row.closedAt.Some?)
    && (row.closedAt.Some? ==> row.endsAt <= row.closedAt.value)
  }

  /** A row as POST /auctions or the seed inserts it. */
  predicate Opening(o: Auction) {
    && o.status == StatusOpen && o.closedAt.None?
    && o.version == 0 && o.highestBidder.None?
    && 0 <= o.highestBid && 0 < o.increment
  }

  predicate Sound(open: map<Uuid, Auction>, db: Db) {
    && Consistent(db.auctions, db.bids)
    && open.Keys == db.auctions.Keys
    && forall a :: a in open ==> SoundAt(open, db, a)
  }

  predicate SoundAt(open: map<Uuid, Auction>, db: Db, a: Uuid)
    requires a in open && a in db.auctions
  {
    && Opening(open[a])
    && Valid(open[a], History(db.bids, a))
    && RowAt(open[a], History(db.bids, a), db.auctions[a])
  }

  /** The rows p were decided over the first Base(p) bids of the history. */
  function Base(p: seq<Bid>): int
    requires p != []
  {
    p[0].seqNo - 1
  }

  predicate OnPrefix(o: Auction, h: seq<Bid>, p: seq<Bid>) {
    && p != []
    && 0 <= Base(p) <= |h|
    && Valid(o, h[..Base(p)] + p)
  }

  /** What is decided and not yet durable, or durable and not yet known to be:
      each auction it touches was decided over some durable prefix. */
  ghost predicate Pending(open: map<Uuid, Auction>, db: Db, rows: seq<Bid>) {
    && (forall i :: 0 <= i < |rows| ==> rows[i].auction in open)
    && forall a :: a in open && History(rows, a) != [] ==>
         OnPrefix(open[a], History(db.bids, a), History(rows, a))
  }

  /** Whoever decided from a strict prefix computed a seq that is already taken:
      the statement aborts and leaves nothing behind. */
  lemma StrictPrefixAborts(open: map<Uuid, Auction>, db: Db, rows: seq<Bid>, a: Uuid)
    requires Sound(open, db) && Pending(open, db, rows)
    requires a in open && History(rows, a) != []
    requires Base(History(rows, a)) < |History(db.bids, a)|
    ensures !Consistent(db.auctions, db.bids + rows)
  {
    hide Consistent, History, Linked, RowAt;
    var p := History(rows, a);
    var i := HistoryPosition(db.bids, a, Base(p));
    var j := HistoryPosition(rows, a, 0);
    assert SoundAt(open, db, a) && OnPrefix(open[a], History(db.bids, a), p);
    ClashAborts(db.auctions, db.bids, rows, i, j);
  }

  /** A commit extends each history by exactly the batch's rows, keeps it valid,
      and leaves a touched row on one of the batch's own bids. */
  lemma CommitExtends(open: map<Uuid, Auction>, db: Db, rows: seq<Bid>, db': Db, a: Uuid)
    requires Sound(open, db) && Pending(open, db, rows) && Commits(db, rows, db')
    requires a in open
    ensures History(db'.bids, a) == History(db.bids, a) + History(rows, a)
    ensures History(rows, a) != [] ==>
              && Base(History(rows, a)) == |History(db.bids, a)|
              && |History(db.bids, a)| < db'.auctions[a].version <= |History(db'.bids, a)|
    ensures History(rows, a) == [] ==> db'.auctions[a] == db.auctions[a]
    ensures SoundAt(open, db', a)
  {
    HistoryConcat(db.bids, rows, a);
    if History(rows, a) == [] {
      UntouchedRow(db, rows, db', a);
      assert History(db'.bids, a) == History(db.bids, a);
      assert SoundAt(open, db, a);
    } else {
      CommitBase(open, db, rows, a);
      var k := TouchedRow(db, rows, db', a);
      RowOnExtension(open[a], History(db.bids, a), History(rows, a), k, db.auctions[a]);
    }
  }

  lemma CommitBase(open: map<Uuid, Auction>, db: Db, rows: seq<Bid>, a: Uuid)
    requires Sound(open, db) && Pending(open, db, rows) && Consistent(db.auctions, db.bids + rows)
    requires a in open && History(rows, a) != []
    ensures SoundAt(open, db, a)
    ensures Base(History(rows, a)) == |History(db.bids, a)|
    ensures Valid(open[a], History(db.bids, a) + History(rows, a))
  {
    hide Consistent, History, Dense, Linked, RowAt;
    var h, p := History(db.bids, a), History(rows, a);
    assert OnPrefix(open[a], h, p);
    if Base(p) < |h| {
      StrictPrefixAborts(open, db, rows, a);
    }
    assert h[..Base(p)] == h;
  }

  lemma RowOnExtension(o: Auction, h: seq<Bid>, p: seq<Bid>, k: nat, row: Auction)
    requires Valid(o, h + p) && RowAt(o, h, row) && k < |p|
    ensures RowAt(o, h + p, Stamp(row, p[k]))
    ensures Stamp(row, p[k]).version == |h| + k + 1
  {
    assert (h + p)[|h| + k] == p[k];
  }

  lemma NoneInTheBatch(rows: seq<Bid>, a: Uuid)
    requires History(rows, a) == []
    ensures forall i :: 0 <= i < |rows| ==> rows[i].auction != a
  {
    forall i | 0 <= i < |rows| ensures rows[i].auction != a {
      if rows[i].auction == a {
        var k := PositionInHistory(rows, i);
      }
    }
  }

  lemma UntouchedRow(db: Db, rows: seq<Bid>, db': Db, a: Uuid)
    requires Commits(db, rows, db') && a in db.auctions && History(rows, a) == []
    ensures a in db'.auctions && db'.auctions[a] == db.auctions[a]
  {
    NoneInTheBatch(rows, a);
  }

  lemma TouchedRow(db: Db, rows: seq<Bid>, db': Db, a: Uuid) returns (k: nat)
    requires Commits(db, rows, db') && a in db.auctions && History(rows, a) != []
    ensures k < |History(rows, a)| && a in db'.auctions
    ensures db'.auctions[a] == Stamp(db.auctions[a], History(rows, a)[k])
  {
    var j := HistoryPosition(rows, a, 0);
    assert rows[j].auction == a;
    var i :| 0 <= i < |rows| && rows[i].auction == a && db'.auctions[a] == Stamp(db.auctions[a], rows[i]);
    k := PositionInHistory(rows, i);
  }

  lemma CommitKeepsSound(open: map<Uuid, Auction>, db: Db, rows: seq<Bid>, db': Db)
    requires Sound(open, db) && Pending(open, db, rows) && Commits(db, rows, db')
    ensures Sound(open, db') && Grows(open, db, db')
  {
    forall a | a in open ensures SoundAt(open, db', a) && GrowsAt(open, db, db', a) {
      CommitExtends(open, db, rows, db', a);
    }
    assert forall i :: 0 <= i < |db'.bids| ==> Admissible(db.auctions, db'.bids[i]);
  }

  /** One outcome of the UPDATE: of the batch's bids of a it takes the k-th, of those of
      any other auction the first. */
  function Picking(db: Db, rows: seq<Bid>, a: Uuid, k: nat): (auctions: map<Uuid, Auction>)
    ensures auctions.Keys == db.auctions.Keys
  {
    map x | x in db.auctions :: Picked(db.auctions[x], History(rows, x), if x == a then k else 0)
  }

  function Picked(row: Auction, p: seq<Bid>, k: nat): Auction {
    if p == [] then row else Stamp(row, p[if k < |p| then k else 0])
  }

  /** Whichever bid of the batch is named, Postgres may take that one. */
  lemma PickingCommits(db: Db, rows: seq<Bid>, a: Uuid, k: nat)
    requires Consistent(db.auctions, db.bids + rows)
    ensures Commits(db, rows, Db(Picking(db, rows, a, k), db.bids + rows))
  {
    hide Consistent, Admissible;
    var after := Picking(db, rows, a, k);
    forall x | x in db.auctions
      ensures || (after[x] == db.auctions[x] && forall i :: 0 <= i < |rows| ==> rows[i].auction != x)
              || (exists i :: 0 <= i < |rows| && rows[i].auction == x && after[x] == Stamp(db.auctions[x], rows[i]))
    {
      var p, n := History(rows, x), if x == a then k else 0;
      if p == [] {
        NoneInTheBatch(rows, x);
      } else {
        var i := HistoryPosition(rows, x, if n < |p| then n else 0);
        assert rows[i].auction == x;
      }
    }
  }

  /** What a commit may leave in the version of an auction it touches: the seq of any of
      the batch's bids of it, and nothing else. */
  lemma AnyOfItsBidsMayBeTaken(open: map<Uuid, Auction>, db: Db, rows: seq<Bid>, a: Uuid, version: nat)
    requires Sound(open, db) && Pending(open, db, rows) && Consistent(db.auctions, db.bids + rows)
    requires a in open && History(rows, a) != []
    ensures (exists db' :: Commits(db, rows, db') && a in db'.auctions && db'.auctions[a].version == version)
            <==> |History(db.bids, a)| < version <= |History(db.bids, a)| + |History(rows, a)|
  {
    hide Commits, Consistent, SoundAt, Picking;
    var h, p := History(db.bids, a), History(rows, a);
    forall db' | Commits(db, rows, db') && a in db'.auctions && db'.auctions[a].version == version
      ensures |h| < version <= |h| + |p|
    {
      CommitExtends(open, db, rows, db', a);
    }
    if |h| < version <= |h| + |p| {
      var k := version - |h| - 1;
      PickingCommits(db, rows, a, k);
      PickedVersion(open, db, rows, a, k);
    }
  }

  lemma PickedVersion(open: map<Uuid, Auction>, db: Db, rows: seq<Bid>, a: Uuid, k: nat)
    requires Sound(open, db) && Pending(open, db, rows) && Consistent(db.auctions, db.bids + rows)
    requires a in open && k < |History(rows, a)|
    ensures a in Picking(db, rows, a, k)
    ensures Picking(db, rows, a, k)[a].version == |History(db.bids, a)| + k + 1
  {
    hide Consistent, History, Linked, SoundAt;
    var h, p := History(db.bids, a), History(rows, a);
    CommitBase(open, db, rows, a);
    assert (h + p)[|h| + k] == p[k];
  }

  /** The row is sure to end on its auction's last bid exactly when the batch holds one
      bid of it. */
  lemma RowIsItsHistoryIffOneBid(open: map<Uuid, Auction>, db: Db, rows: seq<Bid>, a: Uuid)
    requires Sound(open, db) && Pending(open, db, rows) && Consistent(db.auctions, db.bids + rows)
    requires a in open && History(rows, a) != []
    ensures (forall db' :: Commits(db, rows, db') ==>
               a in db'.auctions && db'.auctions[a].version == |History(db'.bids, a)|)
            <==> |History(rows, a)| == 1
  {
    hide Commits, Consistent, SoundAt, Picking, Pending, Sound;
    var h, p := History(db.bids, a), History(rows, a);
    forall db' | Commits(db, rows, db')
      ensures a in db'.auctions && |h| < db'.auctions[a].version <= |History(db'.bids, a)| == |h| + |p|
    {
      KnownAfter(open, db, rows, db', a);
      CommitExtends(open, db, rows, db', a);
    }
    if |p| > 1 {
      AnyOfItsBidsMayBeTaken(open, db, rows, a, |h| + 1);
    }
  }

  lemma KnownAfter(open: map<Uuid, Auction>, db: Db, rows: seq<Bid>, db': Db, a: Uuid)
    requires Sound(open, db) && Commits(db, rows, db') && a in open
    ensures a in db.auctions && a in db'.auctions
  {
  }

  /** Histories are only ever extended; an auction's version never goes back, and
      at the same version the published top and winner are the same. */
  predicate Grows(open: map<Uuid, Auction>, db: Db, db': Db) {
    && db.auctions.Keys <= db'.auctions.Keys
    && forall a :: a in open && a in db.auctions && a in db'.auctions ==> GrowsAt(open, db, db', a)
  }

  predicate GrowsAt(open: map<Uuid, Auction>, db: Db, db': Db, a: Uuid)
    requires a in db.auctions && a in db'.auctions
  {
    var row, row' := db.auctions[a], db'.auctions[a];
    && History(db.bids, a) <= History(db'.bids, a)
    && row.version <= row'.version
    && (row.version == row'.version ==>
          row.highestBid == row'.highestBid && row.highestBidder == row'.highestBidder)
    && row.increment == row'.increment && row.endsAt == row'.endsAt
    && (row.status == StatusClosed ==> row'.status == StatusClosed && row'.closedAt == row.closedAt)
  }

  /** What was decided over a durable prefix still is after the history grows. */
  lemma PendingSurvives(open: map<Uuid, Auction>, db: Db, db': Db, rows: seq<Bid>)
    requires Pending(open, db, rows) && Grows(open, db, db')
    requires open.Keys == db.auctions.Keys && open.Keys == db'.auctions.Keys
    ensures Pending(open, db', rows)
  {
    forall a | a in open && History(rows, a) != []
      ensures OnPrefix(open[a], History(db'.bids, a), History(rows, a))
    {
      PrefixSurvives(open[a], History(db.bids, a), History(db'.bids, a), History(rows, a));
    }
  }

  lemma PrefixSurvives(o: Auction, h: seq<Bid>, h': seq<Bid>, p: seq<Bid>)
    requires OnPrefix(o, h, p) && h <= h'
    ensures OnPrefix(o, h', p)
  {
    assert h[..Base(p)] == h'[..Base(p)];
  }

  /** One bid decided over the row as it stands. */
  lemma DecidedOverRow(open: map<Uuid, Auction>, db: Db, b: Bid)
    requires Sound(open, db) && b.auction in open
    requires b.seqNo == db.auctions[b.auction].version + 1
    requires b.amount >= db.auctions[b.auction].State().MinNextBid()
    ensures Pending(open, db, [b])
  {
    forall a | a in open && History([b], a) != []
      ensures OnPrefix(open[a], History(db.bids, a), History([b], a))
    {
      HistoryOfOne(b, a);
      assert SoundAt(open, db, a);
      OneOverPrefix(open[a], History(db.bids, a), db.auctions[a].version, b);
    }
  }

  lemma OneOverPrefix(o: Auction, h: seq<Bid>, n: nat, b: Bid)
    requires Valid(o, h) && n <= |h| && b.seqNo == n + 1
    requires b.amount >= WrapAdd(TopAt(o, h, n), o.increment)
    ensures OnPrefix(o, h, [b])
  {
    ValidPrefix(o, h, n);
    ValidSnoc(o, h[..n], b);
  }

  lemma ValidPrefix(o: Auction, h: seq<Bid>, n: nat)
    requires Valid(o, h) && n <= |h|
    ensures Valid(o, h[..n]) && TopAt(o, h[..n], n) == TopAt(o, h, n)
  {
    forall i | 0 <= i < n ensures h[..n][i].amount >= WrapAdd(TopAt(o, h[..n], i), o.increment) {
      assert h[i].amount >= WrapAdd(TopAt(o, h, i), o.increment);
    }
  }

  lemma ValidSnoc(o: Auction, h: seq<Bid>, b: Bid)
    requires Valid(o, h) && b.seqNo == |h| + 1
    requires b.amount >= WrapAdd(TopAt(o, h, |h|), o.increment)
    ensures Valid(o, h + [b]) && TopAt(o, h + [b], |h| + 1) == b.amount
  {
    forall i | 0 <= i <= |h| ensures (h + [b])[i].amount >= WrapAdd(TopAt(o, h + [b], i), o.increment) {
      assert TopAt(o, h + [b], i) == TopAt(o, h, i);
    }
  }
}
