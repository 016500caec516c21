/** The checker's queries as predicates over the tables, what they amount to
    together, and that no run of the engines can fail them except in the ways the
    other modules name. */
module Checker {
  import opened Contract
  import opened Tables
  import opened Ledger
  import W = World
  import Guarantees
  import Stuck
  import Times

  /* ---- aggregates ---- */

  function MaxSeq(rows: seq<Bid>): (m: nat)
    ensures forall i :: 0 <= i < |rows| ==> rows[i].seqNo <= m
    ensures m == 0 || exists i :: 0 <= i < |rows| && rows[i].seqNo == m
  {
    if rows == [] then 0
    else
      var m, last := MaxSeq(rows[..|rows| - 1]), rows[|rows| - 1];
      if last.seqNo > m then last.seqNo else m
  }

  function MinSeq(rows: seq<Bid>): (m: nat)
    requires rows != []
    ensures forall i :: 0 <= i < |rows| ==> m <= rows[i].seqNo
    ensures exists i :: 0 <= i < |rows| && rows[i].seqNo == m
  {
    if |rows| == 1 then rows[0].seqNo
    else
      var m, last := MinSeq(rows[..|rows| - 1]), rows[|rows| - 1];
      if last.seqNo < m then last.seqNo else m
  }

  function MaxAmount(rows: seq<Bid>): (m: Int64)
    requires rows != []
    ensures forall i :: 0 <= i < |rows| ==> rows[i].amount <= m
    ensures exists i :: 0 <= i < |rows| && rows[i].amount == m
  {
    if |rows| == 1 then rows[0].amount
    else
      var m, last := MaxAmount(rows[..|rows| - 1]), rows[|rows| - 1];
      if last.amount > m then last.amount else m
  }

  predicate DistinctSeqs(rows: seq<Bid>) {
    forall i, j :: 0 <= i < j < |rows| ==> rows[i].seqNo != rows[j].seqNo
  }

  /** ORDER BY seq: the same rows, ascending. */
  predicate Ordered(rows: seq<Bid>, sorted: seq<Bid>) {
    && multiset(rows) == multiset(sorted)
    && forall i, j :: 0 <= i < j < |sorted| ==> sorted[i].seqNo <= sorted[j].seqNo
  }

  /* ---- the invariants, per auction ---- */

  /** HAVING count(*) <> max(seq) OR min(seq) <> 1 returns nothing. */
  predicate I1(rows: seq<Bid>) {
    rows != [] ==> |rows| == MaxSeq(rows) && MinSeq(rows) == 1
  }

  /** lag(amount_cents) over seq. */
  predicate I2(sorted: seq<Bid>, increment: Int64) {
    forall i :: 1 <= i < |sorted| ==> sorted[i].amount >= sorted[i - 1].amount + increment
  }

  predicate I3(sorted: seq<Bid>, row: Auction) {
    && row.version == |sorted|
    && (sorted != [] ==> row.highestBid == MaxAmount(sorted)
                         && row.highestBidder == Some(sorted[|sorted| - 1].user))
  }

  predicate I4(rows: seq<Bid>, row: Auction) {
    forall i :: 0 <= i < |rows| ==> rows[i].createdAt <= row.endsAt
  }

  /** count(*), count(key) and count(DISTINCT key) agree. */
  predicate I7(bids: seq<Bid>) {
    && (forall i :: 0 <= i < |bids| ==> bids[i].key.Some?)
    && |set b | b in bids :: b.key| == |bids|
  }

  predicate I8(row: Auction) {
    && (row.status == StatusClosed <==> row.closedAt.Some?)
    && (row.closedAt.Some? ==> row.endsAt <= row.closedAt.value)
  }

  /* ---- I1 is density ---- */

  function Seqs(rows: seq<Bid>): set<nat> {
    set b | b in rows :: b.seqNo
  }

  function UpTo(n: nat): (ks: set<nat>)
    ensures forall k :: k in ks <==> 1 <= k <= n
    ensures |ks| == n
  {
    if n == 0 then {} else UpTo(n - 1) + {n}
  }

  lemma SeqsSnoc(front: seq<Bid>, last: Bid)
    ensures Seqs(front + [last]) == Seqs(front) + {last.seqNo}
  {
    assert forall b :: b in front + [last] <==> b in front || b == last;
  }

  lemma {:induction false} DistinctSeqsCount(rows: seq<Bid>)
    requires DistinctSeqs(rows)
    ensures |Seqs(rows)| == |rows|
  {
    if rows != [] {
      var front, last := rows[..|rows| - 1], rows[|rows| - 1];
      assert last.seqNo !in Seqs(front);
      DistinctSeqsCount(front);
      SeqsSnoc(front, last);
      assert rows == front + [last];
    }
  }

  lemma SubsetOfSameSize(xs: set<nat>, ys: set<nat>)
    requires xs <= ys && |xs| == |ys|
    ensures xs == ys
  {
    assert |ys - xs| == |ys| - |xs|;
    assert ys == xs + (ys - xs);
  }

  /** With no repeated seq, count = max and min = 1 say exactly that the seqs are
      1..n: n different numbers within 1..n leave no hole. */
  lemma I1IsDensity(rows: seq<Bid>)
    requires DistinctSeqs(rows)
    ensures I1(rows) <==> Seqs(rows) == UpTo(|rows|)
  {
    DistinctSeqsCount(rows);
    if rows != [] {
      if I1(rows) {
        assert Seqs(rows) <= UpTo(|rows|);
        SubsetOfSameSize(Seqs(rows), UpTo(|rows|));
      }
      if Seqs(rows) == UpTo(|rows|) {
        assert 1 in UpTo(|rows|) && |rows| in UpTo(|rows|);
        assert forall i :: 0 <= i < |rows| ==> rows[i].seqNo in Seqs(rows);
      }
    }
  }

  /** So a confirmed seq within the watermark cannot be missing. */
  lemma ConfirmedSeqIsPresent(rows: seq<Bid>, k: nat)
    requires DistinctSeqs(rows) && I1(rows) && 1 <= k <= MaxSeq(rows)
    ensures exists i :: 0 <= i < |rows| && rows[i].seqNo == k
  {
    I1IsDensity(rows);
    assert rows != [];
    assert k in UpTo(|rows|);
    var b :| b in rows && b.seqNo == k;
  }

  /* ---- the three together are the replay ---- */

  lemma OrderedSame(rows: seq<Bid>, sorted: seq<Bid>)
    requires Ordered(rows, sorted) && DistinctSeqs(rows)
    ensures |rows| == |sorted| && Seqs(rows) == Seqs(sorted)
    ensures forall b :: b in rows <==> b in sorted
    ensures DistinctSeqs(sorted)
  {
    assert |multiset(rows)| == |rows| && |multiset(sorted)| == |sorted|;
    forall b ensures b in rows <==> b in sorted {
      assert b in multiset(rows) <==> b in multiset(sorted);
    }
    assert Seqs(rows) == Seqs(sorted);
    DistinctSeqsCount(rows);
    SameSizeDistinct(sorted);
  }

  lemma {:induction false} SameSizeDistinct(rows: seq<Bid>)
    requires |Seqs(rows)| == |rows|
    ensures DistinctSeqs(rows)
  {
    if rows != [] {
      var front, last := rows[..|rows| - 1], rows[|rows| - 1];
      assert rows == front + [last];
      SeqsSnoc(front, last);
      SeqsAtMost(front);
      SameSizeDistinct(front);
      forall i | 0 <= i < |front| ensures front[i].seqNo != last.seqNo {
        assert front[i].seqNo in Seqs(front);
      }
    }
  }

  lemma {:induction false} SeqsAtMost(rows: seq<Bid>)
    ensures |Seqs(rows)| <= |rows|
  {
    if rows != [] {
      var front, last := rows[..|rows| - 1], rows[|rows| - 1];
      SeqsAtMost(front);
      assert rows == front + [last];
      SeqsSnoc(front, last);
    }
  }

  predicate Climbs(sorted: seq<Bid>) {
    forall i :: 1 <= i < |sorted| ==> sorted[i - 1].seqNo < sorted[i].seqNo
  }

  lemma {:induction false} ClimbsFromOne(sorted: seq<Bid>, i: nat)
    requires Climbs(sorted) && i < |sorted| && 1 <= sorted[0].seqNo
    ensures i + 1 <= sorted[i].seqNo
  {
    if i > 0 {
      ClimbsFromOne(sorted, i - 1);
    }
  }

  lemma {:induction false} ClimbsToTheCount(sorted: seq<Bid>, i: nat)
    requires Climbs(sorted) && i < |sorted| && sorted[|sorted| - 1].seqNo <= |sorted|
    ensures sorted[i].seqNo <= i + 1
    decreases |sorted| - i
  {
    if i < |sorted| - 1 {
      ClimbsToTheCount(sorted, i + 1);
      assert sorted[i + 1 - 1].seqNo < sorted[i + 1].seqNo;
    }
  }

  /** Ascending, distinct and within 1..n is 1, 2, ..., n. */
  lemma AscendingIsDense(sorted: seq<Bid>)
    requires Climbs(sorted) && forall i :: 0 <= i < |sorted| ==> 1 <= sorted[i].seqNo <= |sorted|
    ensures Dense(sorted)
  {
    forall i | 0 <= i < |sorted| ensures sorted[i].seqNo == i + 1 {
      ClimbsFromOne(sorted, i);
      ClimbsToTheCount(sorted, i);
    }
  }

  lemma OrderedWithin(rows: seq<Bid>, sorted: seq<Bid>)
    requires DistinctSeqs(rows) && Ordered(rows, sorted) && Seqs(rows) == UpTo(|rows|)
    ensures Climbs(sorted) && forall i :: 0 <= i < |sorted| ==> 1 <= sorted[i].seqNo <= |sorted|
  {
    OrderedSame(rows, sorted);
    forall i | 0 <= i < |sorted| ensures sorted[i].seqNo in UpTo(|rows|) {
      assert sorted[i] in sorted;
    }
    forall i | 1 <= i < |sorted| ensures sorted[i - 1].seqNo < sorted[i].seqNo {
      assert sorted[i - 1].seqNo != sorted[i].seqNo;
    }
  }

  lemma DenseIsAscending(sorted: seq<Bid>)
    requires Dense(sorted)
    ensures Seqs(sorted) == UpTo(|sorted|) && DistinctSeqs(sorted)
  {
    forall k ensures k in Seqs(sorted) <==> k in UpTo(|sorted|) {
      if k in UpTo(|sorted|) {
        assert sorted[k - 1] in sorted;
      }
    }
  }

  lemma {:induction false} TopIsLast(sorted: seq<Bid>, increment: Int64)
    requires sorted != [] && I2(sorted, increment) && 0 < increment
    ensures MaxAmount(sorted) == sorted[|sorted| - 1].amount
  {
    if |sorted| > 1 {
      TopIsLast(sorted[..|sorted| - 1], increment);
    }
  }

  /** The three pass exactly when the rows in order are bids 1..n, each above the
      one before by the increment, and the auctions row is what replaying them
      leaves. Only the first bid's floor is not checked. */
  lemma ChecksAreTheReplay(rows: seq<Bid>, sorted: seq<Bid>, row: Auction)
    requires DistinctSeqs(rows) && Ordered(rows, sorted) && 0 < row.increment
    ensures I1(rows) && I2(sorted, row.increment) && I3(sorted, row)
            <==>
            && Dense(sorted)
            && I2(sorted, row.increment)
            && row.version == |sorted|
            && (sorted != [] ==> row.highestBid == sorted[|sorted| - 1].amount
                                 && row.highestBidder == Some(sorted[|sorted| - 1].user))
  {
    OrderedSame(rows, sorted);
    I1IsDensity(rows);
    if I1(rows) {
      OrderedWithin(rows, sorted);
      AscendingIsDense(sorted);
    }
    if Dense(sorted) {
      DenseIsAscending(sorted);
    }
    if I2(sorted, row.increment) && sorted != [] {
      TopIsLast(sorted, row.increment);
    }
  }

  /** The conformance suite's replay: one pass over the rows in order. */
  method Replay(sorted: seq<Bid>, startingBid: Int64, minIncrement: Int64, accepted: nat, version: nat, highest: Int64)
    returns (ok: bool)
    ensures ok <==>
            && Dense(sorted)
            && I2(sorted, minIncrement)
            && |sorted| == accepted > 0
            && sorted[0].amount >= startingBid + minIncrement
            && version == |sorted|
            && highest == sorted[|sorted| - 1].amount
  {
    var count, prev: int := 0, startingBid;
    while count < |sorted|
      invariant 0 <= count <= |sorted|
      invariant prev == if count == 0 then startingBid else sorted[count - 1].amount
      invariant forall i :: 0 <= i < count ==> sorted[i].seqNo == i + 1
      invariant forall i :: 1 <= i < count ==> sorted[i].amount >= sorted[i - 1].amount + minIncrement
      invariant count > 0 ==> sorted[0].amount >= startingBid + minIncrement
    {
      var b := sorted[count];
      if b.seqNo != count + 1 {
        return false;
      }
      if b.amount < prev + minIncrement {
        return false;
      }
      prev := b.amount;
      count := count + 1;
    }
    ok := count == accepted && count != 0 && version == count && highest == prev;
  }

  /* ---- and every run passes ---- */

  lemma ReachableIsOrdered(h: seq<Bid>)
    requires Dense(h)
    ensures Ordered(h, h) && DistinctSeqs(h) && I1(h)
  {
    DenseIsAscending(h);
    I1IsDensity(h);
  }

  /** The minimum after every bid but the last fits in an int64. */
  predicate AmountsFit(h: seq<Bid>, increment: Int64) {
    forall i :: 0 <= i < |h| - 1 ==> h[i].amount + increment <= MAX_INT64
  }

  lemma LinkedPassesI2IffItFits(o: Auction, h: seq<Bid>)
    requires Linked(o, h) && 0 <= o.highestBid && 0 < o.increment
    ensures I2(h, o.increment) <==> AmountsFit(h, o.increment)
  {
    forall i | 1 <= i < |h|
      ensures h[i].amount >= h[i - 1].amount + o.increment <==> h[i - 1].amount + o.increment <= MAX_INT64
    {
      assert h[i].amount >= WrapAdd(TopAt(o, h, i), o.increment);
    }
    if I2(h, o.increment) {
      forall i | 0 <= i < |h| - 1 ensures h[i].amount + o.increment <= MAX_INT64 {
        assert h[i + 1].amount >= h[i + 1 - 1].amount + o.increment;
      }
    }
    if AmountsFit(h, o.increment) {
      forall i | 1 <= i < |h| ensures h[i].amount >= h[i - 1].amount + o.increment {
        assert h[i - 1].amount + o.increment <= MAX_INT64;
      }
    }
  }

  /** The row is a prefix of a history that climbs: it passes exactly when it is the
      whole of it. */
  lemma RowPassesI3IffWhole(o: Auction, h: seq<Bid>, row: Auction)
    requires RowAt(o, h, row) && I2(h, row.increment) && 0 < row.increment
    ensures I3(h, row) <==> row.version == |h|
  {
    if h != [] {
      TopIsLast(h, row.increment);
    }
  }

  /** What the checks say after any run. I1 and I8 always pass. I2 passes if and only if
      every minimum that was asked for fits an int64; then I3 passes if and only if the
      row is not behind; and I4 if and only if no bid of a straddling decision landed. */
  lemma TheChecksAfterAnyRun(run: seq<W.Step>, a: Uuid)
    requires W.Possible(W.EMPTY, run) && a in W.Exec(W.EMPTY, run).db.auctions
    ensures var w := W.Exec(W.EMPTY, run);
            var h, row := History(w.db.bids, a), w.db.auctions[a];
            && Ordered(h, h) && I1(h) && I8(row)
            && (I2(h, row.increment) <==> AmountsFit(h, row.increment))
            && (I2(h, row.increment) ==> (I3(h, row) <==> row.version == |h|))
            && (I4(h, row) <==> forall b :: b in h ==> b !in Times.Straddlers(W.EMPTY, run))
  {
    hide W.Possible, W.Exec, W.Inv, Times.Straddlers, AmountsFit, I1, I2, I3, Ordered;
    var w := W.Exec(W.EMPTY, run);
    var h, row := History(w.db.bids, a), w.db.auctions[a];
    Guarantees.EveryRunIsReplayable(run, a);
    IncrementIsPositive(run, a);
    ReachableIsOrdered(h);
    LinkedPassesI2IffItFits(w.open[a], h);
    if I2(h, row.increment) {
      RowPassesI3IffWhole(w.open[a], h, row);
    }
    I4IsNoStraddler(run, a);
  }

  lemma I4IsNoStraddler(run: seq<W.Step>, a: Uuid)
    requires W.Possible(W.EMPTY, run) && a in W.Exec(W.EMPTY, run).db.auctions
    ensures var w := W.Exec(W.EMPTY, run);
            var h := History(w.db.bids, a);
            I4(h, w.db.auctions[a]) <==> forall b :: b in h ==> b !in Times.Straddlers(W.EMPTY, run)
  {
    hide W.Possible, W.Exec, Times.Straddlers;
    var w := W.Exec(W.EMPTY, run);
    var h := History(w.db.bids, a);
    forall i | 0 <= i < |h|
      ensures h[i].createdAt <= w.db.auctions[a].endsAt <==> h[i] !in Times.Straddlers(W.EMPTY, run)
    {
      var j := HistoryPosition(w.db.bids, a, i);
      Times.OnlyStraddlersAreAfterTheEnd(run, j);
    }
    if I4(h, w.db.auctions[a]) {
      forall b | b in h ensures b !in Times.Straddlers(W.EMPTY, run) {
        var i :| 0 <= i < |h| && h[i] == b;
      }
    }
    if forall b :: b in h ==> b !in Times.Straddlers(W.EMPTY, run) {
      forall i | 0 <= i < |h| ensures h[i].createdAt <= w.db.auctions[a].endsAt {
        assert h[i] in h;
      }
    }
  }

  lemma IncrementIsPositive(run: seq<W.Step>, a: Uuid)
    requires W.Possible(W.EMPTY, run) && a in W.Exec(W.EMPTY, run).db.auctions
    ensures var w := W.Exec(W.EMPTY, run);
            a in w.open && 0 <= w.open[a].highestBid && 0 < w.db.auctions[a].increment
  {
    hide W.Possible, W.Exec, W.ShardInv, W.TxsInv, Pending;
    Guarantees.EmptyInv();
    Guarantees.RunIsLater(W.EMPTY, run);
    assert SoundAt(W.Exec(W.EMPTY, run).open, W.Exec(W.EMPTY, run).db, a);
  }

  predicate OneKeyPerRow(bids: seq<Bid>) {
    && (forall i :: 0 <= i < |bids| ==> bids[i].key.Some?)
    && forall i, j :: 0 <= i < j < |bids| ==> bids[i].key != bids[j].key
  }

  /** Comparing the three counts finds exactly the missing and the repeated keys. */
  lemma I7IsOneKeyPerRow(bids: seq<Bid>)
    ensures I7(bids) <==> OneKeyPerRow(bids)
  {
    if OneKeyPerRow(bids) {
      DistinctKeysCount(bids);
    }
    if I7(bids) {
      AsManyKeysAreDistinct(bids);
    }
  }

  function Keys(bids: seq<Bid>): set<Option<Key>> {
    set b | b in bids :: b.key
  }

  lemma KeysSnoc(front: seq<Bid>, last: Bid)
    ensures Keys(front + [last]) == Keys(front) + {last.key}
  {
    assert forall b :: b in front + [last] <==> b in front || b == last;
  }

  lemma {:induction false} DistinctKeysCount(bids: seq<Bid>)
    requires forall i, j :: 0 <= i < j < |bids| ==> bids[i].key != bids[j].key
    ensures |Keys(bids)| == |bids|
  {
    if bids != [] {
      var front, last := bids[..|bids| - 1], bids[|bids| - 1];
      assert last.key !in Keys(front);
      DistinctKeysCount(front);
      KeysSnoc(front, last);
      assert bids == front + [last];
    }
  }

  lemma {:induction false} KeysAtMost(bids: seq<Bid>)
    ensures |Keys(bids)| <= |bids|
  {
    if bids != [] {
      var front, last := bids[..|bids| - 1], bids[|bids| - 1];
      KeysAtMost(front);
      KeysSnoc(front, last);
      assert bids == front + [last];
    }
  }

  lemma {:induction false} AsManyKeysAreDistinct(bids: seq<Bid>)
    requires |Keys(bids)| == |bids|
    ensures forall i, j :: 0 <= i < j < |bids| ==> bids[i].key != bids[j].key
  {
    if bids != [] {
      var front, last := bids[..|bids| - 1], bids[|bids| - 1];
      assert bids == front + [last];
      KeysSnoc(front, last);
      KeysAtMost(front);
      AsManyKeysAreDistinct(front);
      forall i | 0 <= i < |front| ensures front[i].key != last.key {
        assert front[i].key in Keys(front);
      }
    }
  }

  /** So after any run I7 passes if and only if every bid came with a key. */
  lemma KeyedRunsPassI7(run: seq<W.Step>)
    requires W.Possible(W.EMPTY, run)
    ensures var bids := W.Exec(W.EMPTY, run).db.bids;
            I7(bids) <==> forall i :: 0 <= i < |bids| ==> bids[i].key.Some?
  {
    Guarantees.EmptyInv();
    Guarantees.RunIsLater(W.EMPTY, run);
    var bids := W.Exec(W.EMPTY, run).db.bids;
    I7IsOneKeyPerRow(bids);
    forall i, j | 0 <= i < j < |bids| && bids[i].key.Some? ensures bids[i].key != bids[j].key {
      assert !Clash(bids[i], bids[j]);
    }
  }

  /* ---- and what fails is seen ---- */

  /** The run that leaves a row behind its history fails I3. */
  lemma {:induction false} I3SeesTheWedgedAuction() returns (run: seq<W.Step>)
    ensures W.Possible(W.EMPTY, run)
    ensures var w := W.Exec(W.EMPTY, run);
            0 in w.db.auctions && !I3(History(w.db.bids, 0), w.db.auctions[0])
  {
    run := Stuck.TwoBidsInOneBatchCanWedgeAnAuction();
  }

  /** The run whose decision straddles the end fails I4. */
  lemma {:induction false} I4SeesTheStraggler(stampAt: Time) returns (run: seq<W.Step>)
    requires Stuck.OPENED.endsAt < stampAt
    ensures W.Possible(W.EMPTY, run)
    ensures var w := W.Exec(W.EMPTY, run);
            0 in w.db.auctions && !I4(History(w.db.bids, 0), w.db.auctions[0])
  {
    var prefix, commit := Times.AClosedAuctionCanStillGetAWinner(stampAt);
    Stuck.OneMore(W.Exec(W.EMPTY, prefix), commit, []);
    assert [commit] + [] == [commit];
    Stuck.Append(W.EMPTY, prefix, [commit]);
    run := prefix + [commit];
    HistoryOfOne(Times.Straggler(stampAt), 0);
  }
}
