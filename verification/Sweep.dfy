/** The sweep: every second, the 500 oldest expired auctions still open are published,
    except those whose publication was heard of less than the suppression window ago.
    Nothing is stored between passes, so whatever is lost is published again; and because
    the query orders by ends_at, no expired auction is starved by newer ones. */
module Sweep {
  import opened Contract
  import opened Tables
  import opened ShardEngine
  import opened Closing
  import opened Delivery
  import opened Publishing
  import opened Worker

  const SWEEP_LIMIT: nat := 500

  function DueSet(m: Moment): set<Uuid> {
    set a | a in m.auctions && Due(m, a)
  }

  /** The expired auctions that were already over at t. */
  function OverdueBy(m: Moment, t: Time): set<Uuid> {
    set a | a in m.auctions && Due(m, a) && m.auctions[a].endsAt <= t
  }

  function Least(x: nat, y: nat): nat {
    if x < y then x else y
  }

  /** WHERE status = 'open' AND ends_at <= now() ORDER BY ends_at LIMIT 500. */
  ghost predicate Lists(m: Moment, ids: seq<Uuid>) {
    && NoRepeats(ids) && SetOf(ids) <= DueSet(m)
    && |ids| == Least(|DueSet(m)|, SWEEP_LIMIT)
    && forall a, b :: a in SetOf(ids) && b in DueSet(m) - SetOf(ids) ==> m.auctions[a].endsAt <= m.auctions[b].endsAt
  }

  lemma {:induction false} SizeOfSetOf(ids: seq<Uuid>)
    requires NoRepeats(ids)
    ensures |SetOf(ids)| == |ids|
  {
    if ids == [] {
      assert SetOf(ids) == {};
    } else {
      var front, last := ids[..|ids| - 1], ids[|ids| - 1];
      SizeOfSetOf(front);
      assert SetOf(ids) == SetOf(front) + {last};
      assert last !in SetOf(front);
    }
  }

  /* ---- one round closes the oldest ---- */

  /** Trying a list of due auctions closes exactly those. */
  lemma {:induction false} ClosingAListOfDue(m: Moment, ids: seq<Uuid>, from: nat)
    requires SetOf(ids) <= DueSet(m)
    ensures var m' := CloseAll(m, EntriesOf(ids, from));
            && m'.clock == m.clock && m'.used == m.used && m'.auctions.Keys == m.auctions.Keys
            && forall a :: a in m.auctions ==>
                 m'.auctions[a] == if a in SetOf(ids) then ClosedAt(m.auctions[a], m.clock) else m.auctions[a]
    decreases |ids|
  {
    if ids != [] {
      var front, last := ids[..|ids| - 1], ids[|ids| - 1];
      assert SetOf(ids) == SetOf(front) + {last};
      ClosingAListOfDue(m, front, from);
      assert EntriesOf(ids, from)[..|ids| - 1] == EntriesOf(front, from);
      assert last in SetOf(ids);
    }
  }

  lemma ClosingEmptiesTheSets(m: Moment, ids: seq<Uuid>, from: nat, t: Time)
    requires SetOf(ids) <= DueSet(m)
    ensures var m' := CloseAll(m, EntriesOf(ids, from));
            DueSet(m') == DueSet(m) - SetOf(ids) && OverdueBy(m', t) == OverdueBy(m, t) - SetOf(ids)
  {
    ClosingAListOfDue(m, ids, from);
  }

  /** ORDER BY ends_at: what was over at t is listed before anything that was not. */
  lemma ListedIsOverdueOrCoversIt(m: Moment, ids: seq<Uuid>, t: Time)
    requires Lists(m, ids)
    ensures OverdueBy(m, t) <= SetOf(ids) || (SetOf(ids) <= OverdueBy(m, t) && |ids| == SWEEP_LIMIT)
  {
    if b :| b in OverdueBy(m, t) && b !in SetOf(ids) {
      assert b in DueSet(m) - SetOf(ids);
      forall a | a in SetOf(ids) ensures a in OverdueBy(m, t) {
        assert a in DueSet(m);
      }
      SizeOfSetOf(ids);
      SizeOfDifference(DueSet(m), SetOf(ids));
    }
  }

  /** A round takes min(500, n) of the n due, and of those already over at an earlier
      instant as many as there are, up to 500. */
  lemma ARoundClosesTheOldest(m: Moment, ids: seq<Uuid>, from: nat, t: Time)
    requires Lists(m, ids)
    ensures var m' := CloseAll(m, EntriesOf(ids, from));
            && DueSet(m') == DueSet(m) - SetOf(ids)
            && |DueSet(m')| == |DueSet(m)| - Least(|DueSet(m)|, SWEEP_LIMIT)
            && OverdueBy(m', t) <= OverdueBy(m, t)
            && |OverdueBy(m', t)| == |OverdueBy(m, t)| - Least(|OverdueBy(m, t)|, SWEEP_LIMIT)
  {
    hide OverdueBy, DueSet, SetOf, CloseAll;
    var over, listed := OverdueBy(m, t), SetOf(ids);
    ClosingEmptiesTheSets(m, ids, from, t);
    ListedIsOverdueOrCoversIt(m, ids, t);
    SizeOfSetOf(ids);
    SizeOfDifference(DueSet(m), listed);
    if over <= listed {
      assert over - listed == {};
      SizeAtMost(over, listed);
    } else {
      SizeOfDifference(over, listed);
    }
  }

  lemma SizeOfDifference(xs: set<Uuid>, ys: set<Uuid>)
    requires ys <= xs
    ensures |xs - ys| == |xs| - |ys|
  {
    assert xs == (xs - ys) + ys;
  }

  lemma SizeAtMost(xs: set<Uuid>, ys: set<Uuid>)
    requires xs <= ys
    ensures |xs| <= |ys|
  {
    SizeOfDifference(ys, xs);
  }

  lemma NothingNewIsOverdue(m: Moment, v: Move, t: Time)
    requires WellFormed(m) && t <= m.clock
    requires forall a :: a in v.created ==> t < v.created[a].endsAt
    ensures OverdueBy(Elapse(m, v), t) <= OverdueBy(m, t)
  {
  }

  /* ---- the sweep itself ---- */

  lemma LeastExists(m: Moment, ids: set<Uuid>) returns (a: Uuid)
    requires ids != {} && ids <= m.auctions.Keys
    ensures a in ids && forall b :: b in ids ==> m.auctions[a].endsAt <= m.auctions[b].endsAt
    decreases |ids|
  {
    a :| a in ids;
    if ids != {a} {
      var rest := ids - {a};
      SizeOfDifference(ids, {a});
      var b := LeastExists(m, rest);
      if m.auctions[b].endsAt < m.auctions[a].endsAt {
        a := b;
      }
    }
  }

  /** The first ids in the order of ends_at, and what is left. */
  ghost predicate Picked(m: Moment, ids: seq<Uuid>, rest: set<Uuid>) {
    && NoRepeats(ids) && |ids| <= SWEEP_LIMIT
    && SetOf(ids) <= DueSet(m) && rest == DueSet(m) - SetOf(ids)
    && forall a, b :: a in SetOf(ids) && b in rest ==> m.auctions[a].endsAt <= m.auctions[b].endsAt
  }

  lemma PickedNone(m: Moment)
    ensures Picked(m, [], DueSet(m))
  {
  }

  lemma PickedIsDue(m: Moment, ids: seq<Uuid>, rest: set<Uuid>)
    requires Picked(m, ids, rest)
    ensures rest <= m.auctions.Keys
  {
  }

  lemma PickedOne(m: Moment, ids: seq<Uuid>, rest: set<Uuid>, a: Uuid)
    requires Picked(m, ids, rest) && a in rest && |ids| < SWEEP_LIMIT && rest <= m.auctions.Keys
    requires forall b :: b in rest ==> m.auctions[a].endsAt <= m.auctions[b].endsAt
    ensures Picked(m, ids + [a], rest - {a})
  {
    SetOfSnoc(ids, a);
    forall i | 0 <= i < |ids| ensures ids[i] != a {
      assert ids[i] in SetOf(ids);
    }
  }

  lemma PickedAll(m: Moment, ids: seq<Uuid>, rest: set<Uuid>)
    requires Picked(m, ids, rest) && (rest == {} || |ids| >= SWEEP_LIMIT)
    ensures Lists(m, ids) && NoRepeats(ids)
  {
    SizeOfSetOf(ids);
    SizeOfDifference(DueSet(m), SetOf(ids));
  }

  /** The local clock does not go back. */
  predicate Ascending(from: Time, ats: seq<Time>) {
    && (forall i :: 0 <= i < |ats| ==> from <= ats[i])
    && forall i, j :: 0 <= i < j < |ats| ==> ats[i] <= ats[j]
  }

  /** One pass: when, whether it failed, what it listed and over which moment, what was
      remembered and what was ahead when it began, and its share of the publications. */
  datatype Pass = Pass(
    at: Time,
    err: bool,
    ids: seq<Uuid>,
    now: Moment,
    known: map<Uuid, Time>,
    ahead: seq<Weather>,
    moves: seq<Move>,
    from: nat,
    to: nat)

  /** It fails with its group or its query and then sends nothing. Otherwise it sends what
      it listed but for the ids heard of within the window, each with its own fate. */
  ghost predicate Swept(p: Pass, sent: seq<Publication>) {
    && (p.err <==> Next(p.ahead).fault != Runs || Head(p.moves).fault != Runs)
    && p.from <= p.to <= |sent|
    && if p.err then p.to == p.from
       else
         && Lists(p.now, p.ids) && NoRepeats(p.ids)
         && (forall a :: a in Prune(p.known, p.at) <==> SentWithin(sent[..p.from], a, p.at, true))
         && sent[p.from..p.to] == Sendings(Unsuppressed(p.ids, Prune(p.known, p.at)), Rest(p.ahead), p.at)
  }

  /** Passes that were, and the later publications of others. */
  lemma StillSwept(p: Pass, sent: seq<Publication>, more: seq<Publication>)
    requires Swept(p, sent)
    ensures Swept(p, sent + more)
  {
    hide Lists, NoRepeats, Prune, SentWithin, Sendings, Unsuppressed;
    assert (sent + more)[..p.from] == sent[..p.from];
    assert (sent + more)[p.from..p.to] == sent[p.from..p.to];
  }

  ghost predicate AllSwept(passes: seq<Pass>, sent: seq<Publication>) {
    forall i :: 0 <= i < |passes| ==> Swept(passes[i], sent)
  }

  lemma AllStillSwept(passes: seq<Pass>, before: seq<Publication>, sent: seq<Publication>)
    requires AllSwept(passes, before) && before <= sent
    ensures AllSwept(passes, sent)
  {
    hide Swept;
    forall i | 0 <= i < |passes| ensures Swept(passes[i], sent) {
      assert before + sent[|before|..] == sent;
      StillSwept(passes[i], before, sent[|before|..]);
    }
  }

  lemma NextSwept(passes: seq<Pass>, sent: seq<Publication>)
    requires passes != [] ==> AllSwept(passes[..|passes| - 1], sent) && Swept(passes[|passes| - 1], sent)
    ensures AllSwept(passes, sent)
  {
    hide Swept;
    forall i | 0 <= i < |passes| ensures Swept(passes[i], sent) {
      if i < |passes| - 1 {
        assert passes[..|passes| - 1][i] == passes[i];
      }
    }
  }

  lemma PassIsSwept(p: Pass, before: seq<Publication>, sent: seq<Publication>)
    requires !p.err && Next(p.ahead).fault == Runs && Head(p.moves).fault == Runs
    requires Lists(p.now, p.ids) && NoRepeats(p.ids) && p.from == |before| && p.to == |sent|
    requires forall a :: a in Prune(p.known, p.at) <==> SentWithin(before, a, p.at, true)
    requires sent == before + Sendings(Unsuppressed(p.ids, Prune(p.known, p.at)), Rest(p.ahead), p.at)
    ensures Swept(p, sent)
  {
    hide Lists, NoRepeats, Prune, SentWithin, Sendings, Unsuppressed;
    assert sent[..|before|] == before;
  }

  lemma WhatIsSuppressed(sent: seq<Publication>, published: map<Uuid, Time>, at: Time)
    requires Windowed(sent, published, at) && Pruned(published, at)
    ensures forall a :: a in published <==> SentWithin(sent, a, at, true)
  {
    hide Windowed, Pruned, SentWithin;
    forall a ensures a in published <==> SentWithin(sent, a, at, true) {
      SuppressedIffHeardOf(sent, published, at, a);
    }
  }

  /** So of every auction in the list of a pass that did not fail: it is published exactly
      when it was not heard of within the window and its own XADD took effect. */
  lemma EveryListedAuctionIsSentIff(p: Pass, sent: seq<Publication>, k: nat)
    requires Swept(p, sent) && !p.err && k < |p.ids|
    ensures var a, news := p.ids[k], sent[p.from..p.to];
            var before := |Unsuppressed(p.ids[..k], Prune(p.known, p.at))|;
            var fault := Next(Dropped(Rest(p.ahead), before)).fault;
            if SentWithin(sent[..p.from], a, p.at, true) || fault == Fails then forall x :: x in news ==> x.id != a
            else Publication(a, p.at, fault == Runs) in news
  {
    hide Lists, Prune, SentWithin, Dropped, Next, Rest;
    var known, a := Prune(p.known, p.at), p.ids[k];
    var tried := Unsuppressed(p.ids, known);
    UnsuppressedIs(p.ids, known);
    if a in known {
      SendingsAre(tried, Rest(p.ahead), p.at);
      assert a !in SetOf(tried);
    } else {
      UnsuppressedInOrder(p.ids, known, k);
      EachSendingHasItsFate(tried, Rest(p.ahead), p.at, |Unsuppressed(p.ids[..k], known)|);
    }
  }

  class Expirer {
    const db: Connection
    const pub: Stream
    var published: map<Uuid, Time>
    ghost var sent: seq<Publication>  // every XADD of this process that took effect
    ghost var latest: Time
    ghost var passes: seq<Pass>

    constructor (db: Connection, pub: Stream, at: Time)
      ensures this.db == db && this.pub == pub && published == map[] && sent == [] && Valid() && latest == at
      ensures passes == []
    {
      this.db, this.pub, published, sent, latest, passes := db, pub, map[], [], at, [];
    }

    ghost predicate Valid()
      reads this
    {
      Windowed(sent, published, latest)
    }

    /** expiredSQL. */
    method Query() returns (err: bool, ids: seq<Uuid>)
      requires WellFormed(db.now)
      modifies db
      ensures WellFormed(db.now) && Advances(old(db.now), db.now)
      ensures !err ==> Lists(db.now, ids) && NoRepeats(ids)
      ensures (err <==> Head(old(db.ahead)).fault != Runs) && db.ahead == Tail(old(db.ahead))
      ensures old(db.ahead) == [] ==> db.now == old(db.now)
    {
      hide Elapse, WellFormed, Advances, Lists;
      NothingMoves(db.now);
      var v := db.Await();
      err, ids := v.fault != Runs, [];
      if !err {
        ids := Select(db.now);
      }
    }

    static method Select(m: Moment) returns (ids: seq<Uuid>)
      ensures Lists(m, ids) && NoRepeats(ids)
    {
      hide DueSet, SetOf, Picked;
      var rest := DueSet(m);
      ids := [];
      PickedNone(m);
      while rest != {} && |ids| < SWEEP_LIMIT
        invariant Picked(m, ids, rest)
        decreases |rest|
      {
        PickedIsDue(m, ids, rest);
        ghost var least := LeastExists(m, rest);
        var a :| a in rest && forall b :: b in rest ==> m.auctions[a].endsAt <= m.auctions[b].endsAt;
        PickedOne(m, ids, rest, a);
        ids, rest := ids + [a], rest - {a};
      }
      PickedAll(m, ids, rest);
    }

    method Forget(at: Time)
      modifies this`published
      ensures published == Prune(old(published), at)
    {
      var rest := published.Keys;
      while rest != {}
        invariant rest <= old(published).Keys
        invariant published == map a | a in old(published)
                                       && (a in rest || at - old(published)[a] < SUPPRESS_FOR) :: old(published)[a]
        decreases |rest|
      {
        var a :| a in rest;
        rest := rest - {a};
        if at - published[a] >= SUPPRESS_FOR {
          published := published - {a};
        }
      }
    }

    /** One pass. It fails when the group or the query does, and then it changes
        nothing. Otherwise each listed id that was not heard of within the window is
        sent, whatever becomes of the others, and of those sent the map keeps the ones
        whose answer came back. */
    method Scan(at: Time) returns (err: bool, ghost ids: seq<Uuid>)
      requires Valid() && latest <= at && WellFormed(db.now) && pub.Valid()
      modifies this, db, pub
      ensures Valid() && latest <= at
      ensures WellFormed(db.now) && Advances(old(db.now), db.now) && pub.Valid() && Onward(old(pub.books), pub.books)
      ensures passes == old(passes) + [Pass(at, err, ids, db.now, old(published), old(pub.ahead), old(db.ahead),
                                            |old(sent)|, |sent|)]
      ensures old(sent) <= sent && Swept(passes[|old(passes)|], sent)
      ensures err <==> Next(old(pub.ahead)).fault != Runs || Head(old(db.ahead)).fault != Runs
      ensures err ==> sent == old(sent) && published == old(published) && pub.ahead == Rest(old(pub.ahead))
      ensures !err ==>
                var known := Prune(old(published), at);
                var news := Sendings(Unsuppressed(ids, known), Rest(old(pub.ahead)), at);
                && latest == at && Lists(db.now, ids) && NoRepeats(ids)
                && sent == old(sent) + news && published == Remembered(known, news)
                && (AllClear(old(pub.ahead)) ==>
                      && pub.group && pub.books == old(pub.books) && pub.nextId == old(pub.nextId) + |news|
                      && pub.backlog == old(pub.backlog) + EntriesOf(IdsOf(news), old(pub.nextId)))
      ensures !err ==> Pruned(published, at)
      ensures !err && old(pub.ahead) == [] ==> forall a :: a in SetOf(ids) ==> SentWithin(sent, a, at, true)
      ensures !err ==> db.ahead == Tail(old(db.ahead)) && (old(db.ahead) == [] ==> db.now == old(db.now))
      ensures !err ==> pub.ahead == Dropped(Rest(old(pub.ahead)), |Unsuppressed(ids, Prune(old(published), at))|)
    {
      hide Lists, Partitioned, Queued, AllPartitioned, Advances, WellFormed, Onward, Windowed, Sendings, Unsuppressed,
           Remembered, Prune, SentWithin, NoRepeats, Pruned;
      AdvancesIsReflexive(db.now);
      ids := [];
      ghost var p := Pass(at, true, [], db.now, published, pub.ahead, db.ahead, |sent|, |sent|);
      err := pub.EnsureGroup();
      if err {
        passes := passes + [p];
        return;
      }
      var listed;
      err, listed := Query();
      p := p.(now := db.now);
      if err {
        passes := passes + [p];
        return;
      }
      ids := listed;
      PruneKeepsTheWindow(sent, published, latest, at);
      Forget(at);
      WhatIsSuppressed(sent, published, at);
      latest := at;
      ghost var books := pub.books;
      RestIsClear(old(pub.ahead));
      Announce(at, listed);
      OnwardIsTransitive(old(pub.books), books, pub.books);
      p := p.(err := false, ids := listed, to := |sent|);
      passes := passes + [p];
      PassIsSwept(p, old(sent), sent);
      PassFacts(old(sent), Prune(old(published), at), listed, Rest(old(pub.ahead)), at);
    }

    /** The ticker: one pass after another, whatever each of them meets. As long as no
        answer of Redis is lost, no id is published twice within the window over all the
        passes of the process, whatever else fails; and where one is, it is exactly where
        a publication of it took effect, was not heard of, and was made again. */
    method Run(ats: seq<Time>) returns (ghost swept: seq<Pass>)
      requires Valid() && WellFormed(db.now) && pub.Valid()
      requires Ascending(latest, ats)
      modifies this, db, pub
      ensures Valid() && WellFormed(db.now) && Advances(old(db.now), db.now) && pub.Valid()
      ensures Onward(old(pub.books), pub.books) && old(sent) <= sent
      ensures passes == old(passes) + swept && AllSwept(swept, sent)
      ensures |swept| == |ats| && forall i :: 0 <= i < |ats| ==> swept[i].at == ats[i]
      ensures NoneLost(old(pub.ahead)) && AllHeard(old(sent)) ==> AllHeard(sent) && Spaced(sent)
      ensures Spaced(sent) <==> !exists i, j :: UnheardAndAgain(sent, i, j)
      ensures old(db.ahead) == [] && old(pub.ahead) == [] && ats != [] ==>
                && latest == ats[|ats| - 1] && db.now == old(db.now)
                && exists ids :: Lists(db.now, ids) && forall a :: a in SetOf(ids) ==> SentWithin(sent, a, latest, true)
    {
      hide Partitioned, Queued, AllPartitioned, Onward, Windowed, Advances, WellFormed, Sendings, Unsuppressed, Lists,
           Remembered, Spaced, UnheardAndAgain, SentWithin, Pruned, AllClear, EntriesOf, IdsOf, SetOf, NoRepeats,
           NoneLost, Swept, Prune, AllSwept;
      AdvancesIsReflexive(db.now);
      OnwardIsReflexive(pub.books);
      swept := [];
      NextSwept(swept, sent);
      for i := 0 to |ats|
        invariant Valid() && WellFormed(db.now) && Advances(old(db.now), db.now) && pub.Valid()
        invariant Onward(old(pub.books), pub.books) && old(sent) <= sent
        invariant forall j :: i <= j < |ats| ==> latest <= ats[j]
        invariant passes == old(passes) + swept && AllSwept(swept, sent)
        invariant |swept| == i && forall j :: 0 <= j < i ==> swept[j].at == ats[j]
        invariant NoneLost(old(pub.ahead)) && AllHeard(old(sent)) ==> NoneLost(pub.ahead) && AllHeard(sent)
        invariant old(db.ahead) == [] && old(pub.ahead) == [] ==>
                    && db.ahead == [] && pub.ahead == [] && db.now == old(db.now)
                    && (i > 0 ==>
                          && latest == ats[i - 1]
                          && exists ids ::
                               Lists(db.now, ids) && forall a :: a in SetOf(ids) ==> SentWithin(sent, a, latest, true))
      {
        ghost var books, now := pub.books, db.now;
        // an error is logged
        var err;
        ghost var ids, ahead, known := [], pub.ahead, Prune(published, ats[i]);
        ghost var before := sent;
        err, ids := Scan(ats[i]);
        AllStillSwept(swept, before, sent);
        swept := swept + [passes[|passes| - 1]];
        NextSwept(swept, sent);
        if NoneLost(ahead) {
          SendingsAreHeard(Unsuppressed(ids, known), Rest(ahead), ats[i]) by { NoneLostLater(ahead, 0); }
          NoneLostLater(ahead, |Unsuppressed(ids, known)|);
        }
        OnwardIsTransitive(old(pub.books), books, pub.books);
        AdvancesIsTransitive(old(db.now), now, db.now);
      }
      SpacedIffNoneUnheardAgain(sent, published, latest);
      if AllHeard(sent) {
        HeardIsSpaced(sent, published, latest);
      }
    }

    method Announce(at: Time, ids: seq<Uuid>)
      requires Valid() && latest == at && pub.Valid() && NoRepeats(ids)
      modifies this`published, this`sent, pub
      ensures Valid() && pub.Valid() && Onward(old(pub.books), pub.books)
      ensures var tried := Unsuppressed(ids, old(published));
              var news := Sendings(tried, old(pub.ahead), at);
              && sent == old(sent) + news && published == Remembered(old(published), news)
              && pub.ahead == Dropped(old(pub.ahead), |tried|)
              && (AllClear(old(pub.ahead)) && old(pub.group) ==>
                    && pub.group && pub.books == old(pub.books) && pub.nextId == old(pub.nextId) + |news|
                    && pub.backlog == old(pub.backlog) + EntriesOf(IdsOf(news), old(pub.nextId)))
    {
      hide Partitioned, Queued, AllPartitioned, Onward, Windowed, SetOf, Unsuppressed, Sendings, Remembered, AllClear,
           EntriesOf, IdsOf, Sending, NoRepeats, Dropped;
      OnwardIsReflexive(pub.books);
      ghost var tried: seq<Uuid>, news: seq<Publication> := [], [];
      NothingListed(ids, published);
      NothingSent(published, pub.ahead, at, pub.nextId);
      for i := 0 to |ids|
        invariant Valid() && pub.Valid() && Onward(old(pub.books), pub.books)
        invariant tried == Unsuppressed(ids[..i], old(published)) && news == Sendings(tried, old(pub.ahead), at)
        invariant sent == old(sent) + news && published == Remembered(old(published), news)
        invariant old(published.Keys) <= published.Keys <= old(published.Keys) + SetOf(ids[..i])
        invariant pub.ahead == Dropped(old(pub.ahead), |tried|)
        invariant AllClear(old(pub.ahead)) && old(pub.group) ==>
                    && pub.group && pub.books == old(pub.books)
                    && pub.nextId == old(pub.nextId) + |news|
                    && pub.backlog == old(pub.backlog) + EntriesOf(IdsOf(news), old(pub.nextId))
      {
        NextListed(ids, old(published), i);
        if ids[i] in published {
          continue;
        }
        ghost var books, one := pub.books, Sending(ids[i], Next(pub.ahead), at);
        StillClear(old(pub.ahead), |tried|);
        NextSending(tried, ids[i], old(pub.ahead), at);
        OneAtMost(ids[i], Next(pub.ahead), at);
        NextNews(old(published), news, one, old(pub.nextId), ids[i]);
        Send(at, ids[i]);
        OnwardIsTransitive(old(pub.books), books, pub.books);
        tried, news := tried + [ids[i]], news + one;
      }
      assert ids[..|ids|] == ids;
    }

    /** One publication: what was not heard of stays out of the map, so the next pass
        tries it again. */
    method Send(at: Time, a: Uuid)
      requires Valid() && latest == at && pub.Valid() && a !in published
      modifies this`published, this`sent, pub
      ensures Valid() && pub.Valid() && Onward(old(pub.books), pub.books)
      ensures var one := Sending(a, Next(old(pub.ahead)), at);
              && sent == old(sent) + one && published == Remembered(old(published), one)
              && pub.ahead == Rest(old(pub.ahead))
              && (Clear(Next(old(pub.ahead))) && old(pub.group) ==>
                    && pub.group && pub.books == old(pub.books) && pub.nextId == old(pub.nextId) + |one|
                    && pub.backlog == old(pub.backlog) + EntriesOf(IdsOf(one), old(pub.nextId)))
    {
      hide Partitioned, Queued, AllPartitioned, Onward, Windowed, Clear;
      ghost var v, p := Next(pub.ahead), Publication(a, at, Next(pub.ahead).fault == Runs);
      OneRemembered(published, p, pub.nextId);
      var failed := pub.Publish(a);
      if v.fault != Fails {
        PublishKeepsTheWindow(sent, published, p);
        sent := sent + [p];
      }
      if failed {
        return;
      }
      published := published[a := at];
    }
  }

  /* ---- rounds of the sweep and the worker together ---- */

  /** Published while due, and dealt with since: closed or gone for good. */
  predicate Done(m: Moment, a: Uuid) {
    Ripe(m, a) && !Due(m, a)
  }

  lemma DoneStays(m: Moment, v: Move, a: Uuid)
    requires WellFormed(m) && Done(m, a)
    ensures Done(Elapse(m, v), a)
  {
    hide Elapse;
    ElapseAdvances(m, v);
    DueStaysRipe(m, Elapse(m, v), a);
    RipeDoesNotComeDueAgain(m, v, a);
    AMissedDueRowAppearedOrCrossedItsEnd(m, v, a);
  }

  /** One pass and one drain on the same database and the same Redis, nothing failing
      and nobody ending the worker first: min(500, n) of the n due are closed, oldest
      first, and the next pass finds nothing suppressed either. */
  method FaultFreeRound(e: Expirer, c: Consumer, ctx: Context, at: Time)
    requires e.pub == c.rdb && e.db == c.worker.db
    requires c.Valid() && e.Valid() && e.latest <= at
    requires c.rdb.ahead == [] && e.db.ahead == [] && c.rdb.backlog == []
    requires forall a :: a in e.published ==> Done(e.db.now, a)
    requires 4 * (SWEEP_LIMIT + 1) <= ctx.left
    modifies e, c, c.rdb, c.worker, c.worker.db, ctx
    ensures c.Valid() && e.Valid() && e.latest == at && c.rdb.ahead == [] && e.db.ahead == []
    ensures c.rdb.backlog == [] && Advances(old(e.db.now), e.db.now)
    ensures DueSet(e.db.now) <= DueSet(old(e.db.now))
    ensures |DueSet(e.db.now)| == |DueSet(old(e.db.now))| - Least(|DueSet(old(e.db.now))|, SWEEP_LIMIT)
    ensures forall t :: |OverdueBy(e.db.now, t)| ==
              |OverdueBy(old(e.db.now), t)| - Least(|OverdueBy(old(e.db.now), t)|, SWEEP_LIMIT)
    ensures forall a :: a in e.published ==> Done(e.db.now, a)
  {
    hide Onward, Partitioned, AllPartitioned, Queued, Advances, WellFormed, Windowed, OverdueBy, Unsuppressed, CloseAll,
         Lists, SentWithin, Sendings, Remembered, Due, Done, DueSet, SetOf, IdsOf, AllClear, EntriesOf, NoRepeats,
         Pruned;
    ghost var m, from, before := e.db.now, c.rdb.nextId, e.published;
    ghost var known := Prune(e.published, at);
    var err;
    ghost var ids;
    ClearForNow();
    err, ids := e.Scan(at);
    ghost var queue := c.rdb.backlog;
    CalmPass(m, before, ids, at);
    assert queue == EntriesOf(ids, from);
    EntriesAreAsMany(ids, from);
    ghost var taken, done;
    taken, done := c.Run(ctx);
    assert queue[..done] == queue;
    RoundFacts(m, ids, from, before);
  }

  lemma EntriesAreAsMany(ids: seq<Uuid>, from: nat)
    ensures |EntriesOf(ids, from)| == |ids|
  {
  }

  /** A pass that meets no fault and nothing suppressed sends all it lists. */
  lemma CalmPass(m: Moment, published: map<Uuid, Time>, ids: seq<Uuid>, at: Time)
    requires Lists(m, ids) && forall a :: a in published ==> Done(m, a)
    ensures var known := Prune(published, at);
            var news := Sendings(Unsuppressed(ids, known), [], at);
            && |ids| <= SWEEP_LIMIT && Unsuppressed(ids, known) == ids && IdsOf(news) == ids
            && Remembered(known, news).Keys <= published.Keys + SetOf(ids)
  {
    hide Sendings, Unsuppressed, Remembered, SetOf;
    var known := Prune(published, at);
    ListedAreDue(m, ids);
    NothingSuppressed(ids, known);
    CalmSendings(ids, at);
    RememberedAre(known, Sendings(ids, [], at));
  }

  /** What trying the list leaves, and that the ids remembered are dealt with. */
  lemma RoundFacts(m: Moment, ids: seq<Uuid>, from: nat, published: map<Uuid, Time>)
    requires WellFormed(m) && Lists(m, ids) && forall a :: a in published ==> Done(m, a)
    ensures var m' := CloseAll(m, EntriesOf(ids, from));
            && DueSet(m') <= DueSet(m)
            && |DueSet(m')| == |DueSet(m)| - Least(|DueSet(m)|, SWEEP_LIMIT)
            && (forall t :: |OverdueBy(m', t)| == |OverdueBy(m, t)| - Least(|OverdueBy(m, t)|, SWEEP_LIMIT))
            && forall a :: a in published.Keys + SetOf(ids) ==> Done(m', a)
  {
    hide OverdueBy, CloseAll, Lists, SetOf, WellFormed, Advances, Due, Ripe;
    var m' := CloseAll(m, EntriesOf(ids, from));
    forall t ensures |OverdueBy(m', t)| == |OverdueBy(m, t)| - Least(|OverdueBy(m, t)|, SWEEP_LIMIT) {
      ARoundClosesTheOldest(m, ids, from, t);
    }
    ARoundClosesTheOldest(m, ids, from, 0);
    CloseAllAdvances(m, EntriesOf(ids, from));
    ListedAreDue(m, ids);
    forall a | a in published.Keys + SetOf(ids) ensures Done(m', a) {
      DueStaysRipe(m, m', a);
      DueIsInTheSet(m', a);
      DueIsInTheSet(m, a);
    }
  }

  lemma {:induction false} CloseAllAdvances(m: Moment, entries: seq<Entry>)
    requires WellFormed(m)
    ensures WellFormed(CloseAll(m, entries)) && Advances(m, CloseAll(m, entries))
    decreases |entries|
  {
    hide WellFormed, Advances, TryClose;
    AdvancesIsReflexive(m);
    if entries != [] {
      var front, last := entries[..|entries| - 1], entries[|entries| - 1];
      CloseAllAdvances(m, front);
      if last.payload.Some? {
        TryCloseAdvances(CloseAll(m, front), last.payload.value, 0);
        AdvancesIsTransitive(m, CloseAll(m, front), CloseAll(m, entries));
      }
    }
  }

  lemma ClearForNow()
    ensures AllClear([]) && Next([]) == CALM && Rest([]) == []
  {
  }

  lemma DueIsInTheSet(m: Moment, a: Uuid)
    ensures a in DueSet(m) <==> Due(m, a)
  {
  }

  lemma ListedAreDue(m: Moment, ids: seq<Uuid>)
    requires Lists(m, ids)
    ensures |ids| <= SWEEP_LIMIT && forall i :: 0 <= i < |ids| ==> Due(m, ids[i])
    ensures forall a :: a in SetOf(ids) ==> Due(m, a)
  {
    forall i | 0 <= i < |ids| ensures Due(m, ids[i]) {
      assert ids[i] in SetOf(ids);
    }
  }

  /** A round of the real loops, then whatever else the system does until the next. */
  datatype Round = Round(at: Time, meanwhile: Move)

  predicate Later(from: Time, rounds: seq<Round>) {
    && (forall i :: 0 <= i < |rounds| ==> from <= rounds[i].at)
    && forall i, j :: 0 <= i < j < |rounds| ==> rounds[i].at <= rounds[j].at
  }

  /** Of n auctions over at t, none is left open after ceil(n / 500) fault-free rounds of
      the sweep and the worker, however many more expire or are created meanwhile. */
  method NoAuctionStarves(e: Expirer, c: Consumer, rounds: seq<Round>, ghost t: Time)
    requires e.pub == c.rdb && e.db == c.worker.db
    requires c.Valid() && e.Valid() && Later(e.latest, rounds)
    requires c.rdb.ahead == [] && e.db.ahead == [] && c.rdb.backlog == []
    requires forall a :: a in e.published ==> Done(e.db.now, a)
    requires t <= e.db.now.clock
    requires forall i, a :: 0 <= i < |rounds| && a in rounds[i].meanwhile.created ==>
               t < rounds[i].meanwhile.created[a].endsAt
    modifies e, c, c.rdb, c.worker, c.worker.db
    ensures c.Valid() && e.Valid() && Advances(old(e.db.now), e.db.now)
    ensures var n := |OverdueBy(old(e.db.now), t)|;
            && |OverdueBy(e.db.now, t)| + Least(SWEEP_LIMIT * |rounds|, n) <= n
            && ((n + SWEEP_LIMIT - 1) / SWEEP_LIMIT <= |rounds| ==> OverdueBy(e.db.now, t) == {})
  {
    hide Onward, Partitioned, AllPartitioned, Queued, Advances, WellFormed, Windowed, OverdueBy, Elapse, Done, DueSet;
    AdvancesIsReflexive(e.db.now);
    ghost var m := e.db.now;
    for i := 0 to |rounds|
      invariant c.Valid() && e.Valid() && Advances(m, e.db.now) && t <= e.db.now.clock
      invariant forall j :: i <= j < |rounds| ==> e.latest <= rounds[j].at
      invariant c.rdb.ahead == [] && e.db.ahead == [] && c.rdb.backlog == []
      invariant forall a :: a in e.published ==> Done(e.db.now, a)
      invariant |OverdueBy(e.db.now, t)| + Least(SWEEP_LIMIT * i, |OverdueBy(m, t)|) <= |OverdueBy(m, t)|
    {
      var ctx := new Context(4 * (SWEEP_LIMIT + 1));
      ghost var before := e.db.now;
      FaultFreeRound(e, c, ctx, rounds[i].at);
      AdvancesIsTransitive(m, before, e.db.now);
      ghost var after := e.db.now;
      ClockAdvances(before, after);
      ElapseAdvances(after, rounds[i].meanwhile);
      ClockAdvances(after, Elapse(after, rounds[i].meanwhile));
      NothingNewIsOverdue(after, rounds[i].meanwhile, t);
      SizeAtMost(OverdueBy(Elapse(after, rounds[i].meanwhile), t), OverdueBy(after, t));
      forall a | a in e.published ensures Done(Elapse(after, rounds[i].meanwhile), a) {
        DoneStays(after, rounds[i].meanwhile, a);
      }
      e.db.now := Elapse(e.db.now, rounds[i].meanwhile);
      AdvancesIsTransitive(m, after, e.db.now);
    }
  }

  lemma ClockAdvances(m: Moment, m': Moment)
    requires Advances(m, m')
    ensures m.clock <= m'.clock
  {
  }

  /* ---- where the window is not kept ---- */

  /** One auction over, and an XADD that takes effect and whose answer is lost: a second
      later the next pass publishes it again, and both entries are in the stream. */
  method ALostAnswerIsPublishedAgain(a: Uuid, o: Auction, t: Time)
    returns (backlog: seq<Entry>, ghost sent: seq<Publication>)
    requires o.status == StatusOpen && o.closedAt.None? && o.endsAt <= t
    ensures backlog == [Entry(0, Some(a)), Entry(1, Some(a))]
    ensures sent == [Publication(a, t, false), Publication(a, t + 1, true)] && !Spaced(sent)
  {
    hide Partitioned, Queued, AllPartitioned, Onward, Windowed, Advances, Spaced;
    var db := new Connection(Moment(map[a := o], t, {a}), []);
    var pub := new Stream([CALM, CALM.(fault := Misreported)]);
    var e := new Expirer(db, pub, t);
    TwoClear();
    SweepOne(e, a, t);
    SweepOne(e, a, t + 1);
    backlog, sent := pub.backlog, e.sent;
    TwoAtOnce(a, t);
  }

  /** A pass over one overdue auction that the map does not remember, whose XADD takes
      effect. */
  method SweepOne(e: Expirer, a: Uuid, at: Time)
    requires e.Valid() && e.latest <= at && e.published == map[] && WellFormed(e.db.now) && e.pub.Valid()
    requires e.db.ahead == [] && e.db.now.auctions.Keys == {a} && Due(e.db.now, a)
    requires AllClear(e.pub.ahead) && Next(e.pub.ahead).fault == Runs && Next(Rest(e.pub.ahead)).fault != Fails
    modifies e, e.db, e.pub
    ensures e.Valid() && e.pub.Valid() && e.latest == at
    ensures e.db.ahead == [] && e.db.now == old(e.db.now) && e.pub.ahead == Rest(Rest(old(e.pub.ahead)))
    ensures e.pub.backlog == old(e.pub.backlog) + [Entry(old(e.pub.nextId), Some(a))]
    ensures e.pub.nextId == old(e.pub.nextId) + 1
    ensures var p := Publication(a, at, Next(Rest(old(e.pub.ahead))).fault == Runs);
            e.sent == old(e.sent) + [p] && e.published == if p.heard then map[a := at] else map[]
  {
    hide Partitioned, Queued, AllPartitioned, Onward, Windowed, Advances, WellFormed, Lists, Sendings, Unsuppressed,
         Remembered, EntriesOf, IdsOf, Prune, AllClear, NoRepeats, SentWithin, Pruned, SetOf, Dropped, Due;
    ghost var ids, err, m := [], false, e.db.now;
    OneSending(a, Rest(e.pub.ahead), at);
    err, ids := e.Scan(at);
    OnlyOneIsListed(m, ids, a);
  }

  lemma TwoClear()
    ensures AllClear([CALM, CALM.(fault := Misreported)]) && AllClear([])
  {
  }

  lemma TwoAtOnce(a: Uuid, t: Time)
    ensures !Spaced([Publication(a, t, false), Publication(a, t + 1, true)])
  {
    var sent := [Publication(a, t, false), Publication(a, t + 1, true)];
    assert sent[0].id == sent[1].id;
  }

  lemma OnlyOneIsListed(m: Moment, ids: seq<Uuid>, a: Uuid)
    requires Lists(m, ids) && m.auctions.Keys == {a} && Due(m, a)
    ensures ids == [a]
  {
    assert DueSet(m) == {a};
    assert ids[0] in SetOf(ids);
  }

  /** A pass that lists one id and remembers nothing. */
  lemma OneSending(a: Uuid, ahead: seq<Weather>, at: Time)
    ensures Prune(map[], at) == map[] && Unsuppressed([a], map[]) == [a]
    ensures Dropped(ahead, 1) == Rest(ahead)
    ensures Sendings([a], ahead, at) == Sending(a, Next(ahead), at)
    ensures var p := Publication(a, at, Next(ahead).fault == Runs);
            && Remembered(map[], []) == map[]
            && Remembered(map[], [p]) == (if p.heard then map[a := at] else map[])
            && forall from :: EntriesOf(IdsOf([p]), from) == [Entry(from, Some(a))]
  {
    var p := Publication(a, at, Next(ahead).fault == Runs);
    assert [a][..0] == [] && [p][..0] == [];
    forall from ensures EntriesOf(IdsOf([p]), from) == [Entry(from, Some(a))] {
      OneRemembered(map[], p, from);
    }
  }
}
