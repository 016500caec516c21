/** The two Postgres tables and the statements the engines run on them. A
    statement either commits whole or leaves the tables as they were; it aborts
    exactly when the rows it would leave break a constraint of the migration. */
module Tables {
  import opened Contract

  datatype Bid = Bid(
    id: Uuid,
    auction: Uuid,
    user: Uuid,
    amount: Int64,
    seqNo: nat,
    key: Option<Key>,
    createdAt: Time)

  datatype Auction = Auction(
    status: Status,
    highestBid: Int64,
    highestBidder: Option<Uuid>,
    increment: Int64,
    version: nat,
    endsAt: Time,
    closedAt: Option<Time>)
  {
    /** The columns every engine reads before it decides. */
    function State(): AuctionState {
      AuctionState(version, highestBid, increment, status, endsAt)
    }
  }

  datatype Db = Db(auctions: map<Uuid, Auction>, bids: seq<Bid>)

  /** PRIMARY KEY, UNIQUE (auction_id, seq) and the partial unique key index. */
  predicate Clash(x: Bid, y: Bid) {
    || x.id == y.id
    || (x.auction == y.auction && x.seqNo == y.seqNo)
    || (x.key.Some? && x.key == y.key)
  }

  predicate NoClash(bids: seq<Bid>) {
    forall i, j {:trigger Clash(bids[i], bids[j])} :: 0 <= i < j < |bids| ==> !Clash(bids[i], bids[j])
  }

  predicate Admissible(auctions: map<Uuid, Auction>, b: Bid) {
    b.auction in auctions && 0 < b.amount
  }

  /** Every constraint the migration declares on bids. */
  predicate Consistent(auctions: map<Uuid, Auction>, bids: seq<Bid>) {
    && NoClash(bids)
    && forall i {:trigger Admissible(auctions, bids[i])} :: 0 <= i < |bids| ==> Admissible(auctions, bids[i])
  }

  /** SET highest_bid_cents, highest_bidder, version from one bid. */
  function Stamp(row: Auction, b: Bid): Auction {
    row.(highestBid := b.amount, highestBidder := Some(b.user), version := b.seqNo)
  }

  /** UPDATE ... FROM: an auction that several rows of the batch match takes one
      of them, and Postgres does not say which. */
  ghost predicate UpdatedFrom(before: map<Uuid, Auction>, rows: seq<Bid>, after: map<Uuid, Auction>) {
    && after.Keys == before.Keys
    && forall a :: a in before ==>
         || (after[a] == before[a] && forall i :: 0 <= i < |rows| ==> rows[i].auction != a)
         || (exists i :: 0 <= i < |rows| && rows[i].auction == a && after[a] == Stamp(before[a], rows[i]))
  }

  /** One committed INSERT of rows plus UPDATE of the auctions they touch: the
      shard's batch, and with a single row the write of the other two engines. */
  ghost predicate Commits(db: Db, rows: seq<Bid>, db': Db) {
    && Consistent(db.auctions, db.bids + rows)
    && db'.bids == db.bids + rows
    && UpdatedFrom(db.auctions, rows, db'.auctions)
  }

  /** The single-row write has one possible result. */
  function Write(db: Db, b: Bid): (db': Db)
    requires b.auction in db.auctions
    ensures Consistent(db.auctions, db.bids + [b]) ==> Commits(db, [b], db')
  {
    var db' := Db(db.auctions[b.auction := Stamp(db.auctions[b.auction], b)], db.bids + [b]);
    assert [b][0].auction == b.auction;
    db'
  }

  lemma WriteIsTheOnlyOutcome(db: Db, b: Bid, db': Db)
    requires b.auction in db.auctions
    ensures Commits(db, [b], db') <==> Consistent(db.auctions, db.bids + [b]) && db' == Write(db, b)
  {
    hide Consistent;
    if Commits(db, [b], db') {
      assert [b][0].auction == b.auction;
      assert db'.auctions == Write(db, b).auctions;
    }
  }

  /** A table extended by rows is consistent when both extensions are and the
      two extensions do not clash with each other. */
  lemma ConsistentTogether(auctions: map<Uuid, Auction>, bids: seq<Bid>, rows: seq<Bid>, b: Bid)
    requires Consistent(auctions, bids + rows)
    requires Consistent(auctions, bids + [b])
    requires forall i :: 0 <= i < |rows| ==> !Clash(rows[i], b)
    ensures Consistent(auctions, (bids + rows) + [b])
  {
    var all := (bids + rows) + [b];
    forall i, j | 0 <= i < j < |all| ensures !Clash(all[i], all[j]) {
      if j < |bids| + |rows| {
        assert all[i] == (bids + rows)[i] && all[j] == (bids + rows)[j];
      } else if i < |bids| {
        assert all[i] == (bids + [b])[i] && all[j] == (bids + [b])[|bids|];
      }
    }
    forall i | 0 <= i < |all| ensures Admissible(auctions, all[i]) {
      if i < |bids| + |rows| {
        assert all[i] == (bids + rows)[i];
      } else {
        assert all[i] == (bids + [b])[|bids|];
      }
    }
  }

  lemma ConsistentPrefix(auctions: map<Uuid, Auction>, bids: seq<Bid>, rows: seq<Bid>)
    requires Consistent(auctions, bids + rows)
    ensures Consistent(auctions, bids)
  {
    forall i | 0 <= i < |bids| ensures bids[i] == (bids + rows)[i] {}
  }

  lemma ClashAborts(auctions: map<Uuid, Auction>, bids: seq<Bid>, rows: seq<Bid>, i: nat, j: nat)
    requires i < |bids| && j < |rows| && Clash(bids[i], rows[j])
    ensures !Consistent(auctions, bids + rows)
  {
    var all := bids + rows;
    assert all[i] == bids[i] && all[|bids| + j] == rows[j];
  }
}
