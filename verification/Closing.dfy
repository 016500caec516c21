/** The closer: the guarded UPDATE and the classifying read, two statements with the
    rest of the system acting between them. */
module Closing {
  import opened Contract
  import opened Tables
  import Ledger
  import opened ShardEngine
  import W = World
  import G = Guarantees

  /** What a statement finds: the rows, the database clock, and every id ever drawn. */
  datatype Moment = Moment(auctions: map<Uuid, Auction>, clock: Time, used: set<Uuid>)

  /** What the rest of the system does up to a statement and what becomes of the
      statement: time passes, the table may be truncated, auctions are created and
      other closers close what is over. during is the time inside the statement. */
  datatype Move = Move(
    fault: Fault,
    passed: nat,
    during: nat,
    wiped: bool,
    created: map<Uuid, Auction>,
    closed: set<Uuid>)

  const STILL := Move(Runs, 0, 0, false, map[], {})

  /** status = 'open' AND ends_at <= clock_timestamp(). */
  predicate Due(m: Moment, a: Uuid) {
    a in m.auctions && m.auctions[a].status == StatusOpen && m.auctions[a].endsAt <= m.clock
  }

  function ClosedAt(row: Auction, at: Time): Auction {
    row.(status := StatusClosed, closedAt := Some(at))
  }

  function Elapse(m: Moment, v: Move): Moment {
    var clock := m.clock + v.passed;
    var kept := if v.wiped then map[] else
      map a | a in m.auctions ::
        if a in v.closed && Due(m.(clock := clock), a) then ClosedAt(m.auctions[a], clock) else m.auctions[a];
    var born := map a | a in v.created && a !in m.used && Ledger.Opening(v.created[a]) :: v.created[a];
    Moment(kept + born, clock, m.used + v.created.Keys)
  }

  function TryClose(m: Moment, a: Uuid, during: nat): Moment {
    if Due(m, a) then
      m.(clock := m.clock + during, auctions := m.auctions[a := ClosedAt(m.auctions[a], m.clock + during)])
    else m
  }

  predicate WellFormed(m: Moment) {
    && m.auctions.Keys <= m.used
    && forall a :: a in m.auctions ==>
         && (m.auctions[a].status == StatusClosed <==> m.auctions[a].closedAt.Some?)
         && (m.auctions[a].closedAt.Some? ==> m.auctions[a].endsAt <= m.auctions[a].closedAt.value <= m.clock)
  }

  /** A row is either untouched or was closed once, not before its end. */
  predicate RowAdvances(x: Auction, y: Auction, from: Time, to: Time) {
    || y == x
    || (x.status == StatusOpen && exists at {:trigger ClosedAt(x, at)} ::
          from <= at <= to && x.endsAt <= at && y == ClosedAt(x, at))
  }

  /** Between two moments: the clock does not go back, an id does not come back, and
      what was closed does not move. */
  predicate Advances(m: Moment, m': Moment) {
    && m.clock <= m'.clock && m.used <= m'.used
    && forall a :: a in m.used && a in m'.auctions ==>
         a in m.auctions && RowAdvances(m.auctions[a], m'.auctions[a], m.clock, m'.clock)
  }

  lemma AdvancesIsReflexive(m: Moment)
    requires WellFormed(m)
    ensures Advances(m, m)
  {
  }

  lemma AdvancesIsTransitive(m: Moment, m1: Moment, m2: Moment)
    requires Advances(m, m1) && Advances(m1, m2)
    ensures Advances(m, m2)
  {
    forall a | a in m.used && a in m2.auctions
      ensures a in m.auctions && RowAdvances(m.auctions[a], m2.auctions[a], m.clock, m2.clock)
    {
      assert a in m1.used && a in m1.auctions;
      assert RowAdvances(m1.auctions[a], m2.auctions[a], m1.clock, m2.clock);
    }
  }

  lemma ElapseAdvances(m: Moment, v: Move)
    requires WellFormed(m)
    ensures WellFormed(Elapse(m, v)) && Advances(m, Elapse(m, v))
  {
  }

  lemma TryCloseAdvances(m: Moment, a: Uuid, during: nat)
    requires WellFormed(m)
    ensures WellFormed(TryClose(m, a, during)) && Advances(m, TryClose(m, a, during))
    ensures !Due(TryClose(m, a, during), a)
    ensures Due(m, a) ==>
              && Reports(TryClose(m, a, during), a, Applied)
              && TryClose(m, a, during).auctions[a] == ClosedAt(m.auctions[a], m.clock + during)
              && TryClose(m, a, during).auctions[a].endsAt <= m.clock + during
  {
  }

  lemma NothingDue(m: Moment, a: Uuid, during: nat)
    ensures !Due(m, a) ==> TryClose(m, a, during) == m
  {
  }

  lemma NothingMoves(m: Moment)
    ensures Elapse(m, STILL) == m
  {
  }

  /* ---- what "still open and expired after an update that matched no row" means ---- */

  predicate Appears(m: Moment, v: Move, a: Uuid) {
    && a in v.created && a !in m.used && Ledger.Opening(v.created[a])
    && v.created[a].endsAt <= m.clock + v.passed
  }

  predicate CrossesItsEnd(m: Moment, v: Move, a: Uuid) {
    && a in m.auctions && m.auctions[a].status == StatusOpen
    && !v.wiped && a !in v.closed
    && m.clock < m.auctions[a].endsAt <= m.clock + v.passed
  }

  /** The UPDATE misses the row and the read finds it due exactly when the row
      appeared, or the clock crossed its end, between the two statements. A lock held
      by another transaction is not among the causes: the UPDATE waits for it. */
  lemma AMissedDueRowAppearedOrCrossedItsEnd(m: Moment, v: Move, a: Uuid)
    requires WellFormed(m)
    ensures !Due(m, a) && Due(Elapse(m, v), a) <==> Appears(m, v, a) || CrossesItsEnd(m, v, a)
  {
  }

  /** The same on the step machine of all the participants, over any steps they take
      between the two statements. */
  lemma AMissedDueRowInAnyRun(run: seq<W.Step>, between: seq<W.Step>, a: Uuid)
    requires W.Possible(W.EMPTY, run) && W.Possible(W.Exec(W.EMPTY, run), between)
    requires !DueIn(W.Exec(W.EMPTY, run), a) && DueIn(W.Exec(W.Exec(W.EMPTY, run), between), a)
    ensures var w, w' := W.Exec(W.EMPTY, run), W.Exec(W.Exec(W.EMPTY, run), between);
            a !in w.db.auctions || w.clock < w.db.auctions[a].endsAt <= w'.clock
  {
    hide W.ShardInv, W.TxsInv, Ledger.Pending, Consistent;
    G.EmptyInv();
    G.RunIsLater(W.EMPTY, run);
    var w := W.Exec(W.EMPTY, run);
    G.RunIsLater(w, between);
    if a in w.db.auctions {
      assert Ledger.SoundAt(w.open, w.db, a);
      assert Ledger.GrowsAt(w.open, w.db, W.Exec(w, between).db, a);
    }
  }

  predicate DueIn(w: W.World, a: Uuid) {
    a in w.db.auctions && w.db.auctions[a].status == StatusOpen && w.db.auctions[a].endsAt <= w.clock
  }

  /* ---- the database connection and the worker ---- */

  function Head(ahead: seq<Move>): Move {
    if ahead == [] then STILL else ahead[0]
  }

  function Tail(ahead: seq<Move>): seq<Move> {
    if ahead == [] then [] else ahead[1..]
  }

  class Connection {
    var now: Moment
    var ahead: seq<Move>

    constructor (now: Moment, ahead: seq<Move>)
      ensures this.now == now && this.ahead == ahead
    {
      this.now, this.ahead := now, ahead;
    }

    method Await() returns (v: Move)
      requires WellFormed(now)
      modifies this
      ensures v == Head(old(ahead)) && ahead == Tail(old(ahead)) && now == Elapse(old(now), v)
      ensures WellFormed(now) && Advances(old(now), now)
    {
      v, ahead := Head(ahead), Tail(ahead);
      ElapseAdvances(now, v);
      now := Elapse(now, v);
    }

    /** closeSQL, with the RETURNING. */
    method CloseDue(a: Uuid) returns (err: bool, row: Option<Auction>)
      requires WellFormed(now)
      modifies this
      ensures var v := Head(old(ahead));
              var m := Elapse(old(now), v);
              && ahead == Tail(old(ahead))
              && now == (if v.fault == Fails then m else TryClose(m, a, v.during))
              && (err <==> v.fault != Runs)
              && (!err ==> row == if Due(m, a) then Some(now.auctions[a]) else None)
      ensures WellFormed(now) && Advances(old(now), now)
    {
      hide Elapse, TryClose, Advances, WellFormed;
      var v := Await();
      err, row := v.fault != Runs, None;
      if v.fault == Fails {
        return;
      }
      if !err && Due(now, a) {
        row := Some(ClosedAt(now.auctions[a], now.clock + v.during));
      }
      TryCloseAdvances(now, a, v.during);
      AdvancesIsTransitive(old(now), now, TryClose(now, a, v.during));
      now := TryClose(now, a, v.during);
    }

    /** classifySQL. */
    method Classify(a: Uuid) returns (err: bool, row: Option<(bool, bool)>)
      requires WellFormed(now)
      modifies this
      ensures var v := Head(old(ahead));
              && ahead == Tail(old(ahead)) && now == Elapse(old(now), v)
              && (err <==> v.fault != Runs)
              && (!err ==> row == if a !in now.auctions then None else
                   Some((now.auctions[a].status == StatusClosed, now.auctions[a].endsAt > now.clock)))
      ensures WellFormed(now) && Advances(old(now), now)
    {
      var v := Await();
      err, row := v.fault != Runs, None;
      if !err && a in now.auctions {
        row := Some((now.auctions[a].status == StatusClosed, now.auctions[a].endsAt > now.clock));
      }
    }
  }

  datatype Result = Applied | AlreadyClosed | Gone | Early

  /** What a result reports of the row at the instant it is returned. */
  predicate Reports(m: Moment, a: Uuid, r: Result) {
    match r
    case Applied => a in m.auctions && m.auctions[a].status == StatusClosed
    case AlreadyClosed => a in m.auctions && m.auctions[a].status == StatusClosed
    case Gone => a !in m.auctions
    case Early => a in m.auctions && m.auctions[a].status == StatusOpen && m.clock < m.auctions[a].endsAt
  }

  /** Published while it was due, on the database's own clock. */
  predicate Ripe(m: Moment, a: Uuid) {
    a in m.used && (a in m.auctions ==> m.auctions[a].endsAt <= m.clock)
  }

  lemma DueStaysRipe(m: Moment, m': Moment, a: Uuid)
    requires WellFormed(m) && Advances(m, m')
    requires Due(m, a) || Ripe(m, a)
    ensures Ripe(m', a)
  {
    if a in m'.auctions {
      assert RowAdvances(m.auctions[a], m'.auctions[a], m.clock, m'.clock);
    }
  }

  /** Once an id was due, a row the UPDATE missed is not due at the next statement. */
  lemma RipeDoesNotComeDueAgain(m: Moment, v: Move, a: Uuid)
    requires Ripe(m, a)
    ensures !Appears(m, v, a) && !CrossesItsEnd(m, v, a)
  {
  }

  /** Where one attempt leaves the database and the moves ahead, and whether it came to a
      result: the UPDATE, and after one that ran and matched nothing the read. */
  datatype Attempt = Attempt(now: Moment, ahead: seq<Move>, settled: bool)

  function Try(now: Moment, ahead: seq<Move>, a: Uuid): Attempt {
    var v, v' := Head(ahead), Head(Tail(ahead));
    var m := Elapse(now, v);
    if v.fault == Fails then Attempt(m, Tail(ahead), false)
    else if v.fault == Misreported || Due(m, a) then Attempt(TryClose(m, a, v.during), Tail(ahead), v.fault == Runs)
    else
      var m' := Elapse(m, v');
      Attempt(m', Tail(Tail(ahead)), v'.fault == Runs && !Due(m', a))
  }

  lemma TryAdvances(now: Moment, ahead: seq<Move>, a: Uuid)
    requires WellFormed(now)
    ensures WellFormed(Try(now, ahead, a).now) && Advances(now, Try(now, ahead, a).now)
  {
    hide Elapse, TryClose, Advances, WellFormed;
    var v, v' := Head(ahead), Head(Tail(ahead));
    var m := Elapse(now, v);
    ElapseAdvances(now, v);
    ElapseAdvances(m, v');
    TryCloseAdvances(m, a, v.during);
    AdvancesIsTransitive(now, m, Elapse(m, v'));
    AdvancesIsTransitive(now, m, TryClose(m, a, v.during));
  }

  /** The UPDATE runs and closes the row; or it runs and misses it, the read runs, and the
      row has not come due in between. */
  predicate Settles(now: Moment, ahead: seq<Move>, a: Uuid) {
    var m := Elapse(now, Head(ahead));
    && Head(ahead).fault == Runs
    && (Due(m, a) || (Head(Tail(ahead)).fault == Runs && !Due(Elapse(m, Head(Tail(ahead))), a)))
  }

  /** Exactly then an attempt comes to a result, and leaves nothing to close. For an id that
      was due when published the row cannot come due in between, and there is never
      anything to close again. */
  lemma AnAttemptComesToAResultIff(now: Moment, ahead: seq<Move>, a: Uuid)
    requires WellFormed(now)
    ensures var t := Try(now, ahead, a);
            && (t.settled <==> Settles(now, ahead, a)) && (t.settled ==> !Due(t.now, a))
            && (Ripe(now, a) ==>
                  && Ripe(t.now, a)
                  && (Settles(now, ahead, a) <==>
                        && Head(ahead).fault == Runs
                        && (Due(Elapse(now, Head(ahead)), a) || Head(Tail(ahead)).fault == Runs)))
  {
    hide Elapse, TryClose, Advances, WellFormed, Appears, CrossesItsEnd, Ripe;
    var v, v' := Head(ahead), Head(Tail(ahead));
    var m := Elapse(now, v);
    ElapseAdvances(now, v);
    TryCloseAdvances(m, a, v.during);
    TryAdvances(now, ahead, a);
    if Ripe(now, a) {
      DueStaysRipe(now, m, a);
      DueStaysRipe(now, Try(now, ahead, a).now, a);
      RipeDoesNotComeDueAgain(m, v', a);
      AMissedDueRowAppearedOrCrossedItsEnd(m, v', a);
    }
  }

  /** Over and not due is for ever. */
  lemma DoneIsFinal(m: Moment, m': Moment, a: Uuid)
    requires WellFormed(m) && Advances(m, m') && Ripe(m, a) && !Due(m, a)
    ensures !Due(m', a)
  {
    if a in m'.auctions {
      assert RowAdvances(m.auctions[a], m'.auctions[a], m.clock, m'.clock);
    }
  }

  class Materializer {
    const db: Connection
    var counts: map<Result, nat>
    var lags: seq<int>

    constructor (db: Connection)
      ensures this.db == db && counts == map[Applied := 0, AlreadyClosed := 0, Gone := 0, Early := 0] && lags == []
    {
      this.db, counts, lags := db, map[Applied := 0, AlreadyClosed := 0, Gone := 0, Early := 0], [];
    }

    predicate Valid()
      reads this, db
    {
      WellFormed(db.now) && (forall r: Result :: r in counts) && forall i :: 0 <= i < |lags| ==> 0 <= lags[i]
    }

    method Count(r: Result)
      requires forall r: Result :: r in counts
      modifies this`counts
      ensures counts == old(counts)[r := old(counts)[r] + 1]
    {
      counts := counts[r := counts[r] + 1];
    }

    /** None is the error return: nothing is counted. A result is the truth about the
        row when it is returned and leaves nothing to do; an error is a statement that
        failed, or a row that came due between the two statements; and for an id that
        was due when published neither Early nor that last error can happen. */
    method Close(a: Uuid) returns (r: Option<Result>)
      requires Valid()
      modifies this, db
      ensures Valid() && Advances(old(db.now), db.now)
      ensures r.Some? ==> Reports(db.now, a, r.value) && !Due(db.now, a)
      ensures r == Some(Applied) <==>
                Head(old(db.ahead)).fault == Runs && Due(Elapse(old(db.now), Head(old(db.ahead))), a)
      ensures r == Some(Applied) ==> lags == old(lags) + [db.now.auctions[a].closedAt.value - db.now.auctions[a].endsAt]
      ensures r != Some(Applied) ==> lags == old(lags)
      ensures counts == if r.Some? then old(counts)[r.value := old(counts)[r.value] + 1] else old(counts)
      ensures var v := Head(old(db.ahead));
              var v' := Head(Tail(old(db.ahead)));
              var m := Elapse(old(db.now), v);
              r.None? <==> v.fault != Runs
                           || (!Due(m, a) && (v'.fault != Runs || Appears(m, v', a) || CrossesItsEnd(m, v', a)))
      ensures Ripe(old(db.now), a) && r.None? ==>
                Head(old(db.ahead)).fault != Runs || Head(Tail(old(db.ahead))).fault != Runs
      ensures Ripe(old(db.now), a) ==> r != Some(Early)
      ensures Attempt(db.now, db.ahead, r.Some?) == Try(old(db.now), old(db.ahead), a)
      ensures old(db.ahead) == [] ==> r.Some? && db.ahead == [] && db.now == TryClose(old(db.now), a, 0)
    {
      hide Elapse, TryClose, Advances, WellFormed, Appears, CrossesItsEnd;
      ghost var v, v' := Head(db.ahead), Head(Tail(db.ahead));
      ghost var m := Elapse(db.now, v);
      ElapseAdvances(db.now, v);
      TryCloseAdvances(m, a, v.during);
      if Ripe(db.now, a) {
        DueStaysRipe(db.now, m, a);
        RipeDoesNotComeDueAgain(m, v', a);
      }
      AMissedDueRowAppearedOrCrossedItsEnd(m, v', a);
      NothingMoves(db.now);
      NothingDue(m, a, v.during);
      var err, row := db.CloseDue(a);
      if !err && row.Some? {
        lags := lags + [row.value.closedAt.value - row.value.endsAt];
        Count(Applied);
        return Some(Applied);
      }
      if err {
        return None;
      }

      var err', seen := db.Classify(a);
      AdvancesIsTransitive(old(db.now), m, db.now);
      if Ripe(old(db.now), a) {
        DueStaysRipe(old(db.now), db.now, a);
      }
      if err' {
        return None;
      }
      if seen.None? {
        Count(Gone);
        return Some(Gone);
      }
      if seen.value.0 {
        Count(AlreadyClosed);
        return Some(AlreadyClosed);
      }
      if seen.value.1 {
        Count(Early);
        return Some(Early);
      }
      r := None;
    }
  }
}
