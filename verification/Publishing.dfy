/** The account of a sweep's publications: what each XADD of the process left behind,
    what the suppression map remembers of it, and exactly when an id is published twice
    within the window. */
module Publishing {
  import opened Contract
  import opened ShardEngine
  import opened Delivery

  /** Seconds. */
  const SUPPRESS_FOR: Time := 30

  function SetOf(ids: seq<Uuid>): set<Uuid> {
    set i | 0 <= i < |ids| :: ids[i]
  }

  predicate NoRepeats(ids: seq<Uuid>) {
    forall i, j :: 0 <= i < j < |ids| ==> ids[i] != ids[j]
  }

  lemma SetOfSnoc(ids: seq<Uuid>, a: Uuid)
    ensures SetOf(ids + [a]) == SetOf(ids) + {a}
  {
    forall b | b in SetOf(ids) ensures b in SetOf(ids + [a]) {
      var i :| 0 <= i < |ids| && ids[i] == b;
      assert (ids + [a])[i] == b;
    }
    assert (ids + [a])[|ids|] == a;
  }

  function EntriesOf(ids: seq<Uuid>, from: nat): (entries: seq<Entry>)
    ensures |entries| == |ids|
    ensures forall i :: 0 <= i < |ids| ==> entries[i] == Entry(from + i, Some(ids[i]))
  {
    seq(|ids|, i requires 0 <= i < |ids| => Entry(from + i, Some(ids[i])))
  }

  /* ---- what was sent and what is remembered ---- */

  /** An XADD of this process that took effect, and whether its answer came back. */
  datatype Publication = Publication(id: Uuid, at: Time, heard: bool)

  /** One id is not published twice within the window. */
  predicate Spaced(sent: seq<Publication>) {
    forall i, j :: 0 <= i < j < |sent| && sent[i].id == sent[j].id ==> sent[j].at - sent[i].at >= SUPPRESS_FOR
  }

  /** What is published again within the window had not been heard of. */
  predicate OnlyUnheardRepeat(sent: seq<Publication>) {
    forall i, j :: 0 <= i < j < |sent| && sent[i].id == sent[j].id && sent[i].heard ==>
      sent[j].at - sent[i].at >= SUPPRESS_FOR
  }

  /** What the map remembers at an instant: the ids whose publication was heard of within
      the window before it are there, and whatever is there was published at that
      instant and heard of. */
  ghost predicate Windowed(sent: seq<Publication>, published: map<Uuid, Time>, at: Time) {
    && OnlyUnheardRepeat(sent)
    && (forall a :: a in published ==> Publication(a, published[a], true) in sent)
    && forall i :: 0 <= i < |sent| ==>
         && sent[i].at <= at
         && (sent[i].heard && at - sent[i].at < SUPPRESS_FOR ==>
               sent[i].id in published && sent[i].at <= published[sent[i].id])
  }

  function Prune(published: map<Uuid, Time>, at: Time): map<Uuid, Time> {
    map a | a in published && at - published[a] < SUPPRESS_FOR :: published[a]
  }

  predicate Pruned(published: map<Uuid, Time>, at: Time) {
    forall a :: a in published ==> at - published[a] < SUPPRESS_FOR
  }

  function Unsuppressed(ids: seq<Uuid>, published: map<Uuid, Time>): seq<Uuid> {
    if ids == [] then []
    else
      var before := Unsuppressed(ids[..|ids| - 1], published);
      if ids[|ids| - 1] in published then before else before + [ids[|ids| - 1]]
  }

  function Dropped(ahead: seq<Weather>, n: nat): seq<Weather> {
    if n <= |ahead| then ahead[n..] else []
  }

  /** What one XADD adds to the account. */
  function Sending(a: Uuid, v: Weather, at: Time): seq<Publication> {
    if v.fault == Fails then [] else [Publication(a, at, v.fault == Runs)]
  }

  /** And those of a whole pass, each under its own weather. */
  function Sendings(ids: seq<Uuid>, ahead: seq<Weather>, at: Time): seq<Publication> {
    if ids == [] then []
    else
      var n := |ids| - 1;
      Sendings(ids[..n], ahead, at) + Sending(ids[n], Next(Dropped(ahead, n)), at)
  }

  /** The map afterwards: only what was heard of enters it. */
  function Remembered(published: map<Uuid, Time>, news: seq<Publication>): map<Uuid, Time> {
    if news == [] then published
    else
      var before, last := Remembered(published, news[..|news| - 1]), news[|news| - 1];
      if last.heard then before[last.id := last.at] else before
  }

  function IdsOf(news: seq<Publication>): (ids: seq<Uuid>)
    ensures |ids| == |news| && forall i :: 0 <= i < |news| ==> ids[i] == news[i].id
  {
    seq(|news|, i requires 0 <= i < |news| => news[i].id)
  }

  lemma {:induction false} NothingSuppressed(ids: seq<Uuid>, published: map<Uuid, Time>)
    requires forall i :: 0 <= i < |ids| ==> ids[i] !in published
    ensures Unsuppressed(ids, published) == ids
    decreases |ids|
  {
    if ids != [] {
      NothingSuppressed(ids[..|ids| - 1], published);
    }
  }

  lemma {:induction false} UnsuppressedIs(ids: seq<Uuid>, published: map<Uuid, Time>)
    requires NoRepeats(ids)
    ensures NoRepeats(Unsuppressed(ids, published))
    ensures SetOf(Unsuppressed(ids, published)) == SetOf(ids) - published.Keys
    decreases |ids|
  {
    if ids != [] {
      var front, last := ids[..|ids| - 1], ids[|ids| - 1];
      assert ids == front + [last];
      UnsuppressedIs(front, published);
      SetOfSnoc(front, last);
      SetOfSnoc(Unsuppressed(front, published), last);
      var before := Unsuppressed(front, published);
      forall i | 0 <= i < |before| ensures before[i] != last {
        assert before[i] in SetOf(before) && before[i] in SetOf(front);
        var k :| 0 <= k < |front| && front[k] == before[i];
      }
    }
  }

  /** And in the order of the list: the ids before it that are not suppressed come first. */
  lemma {:induction false} UnsuppressedInOrder(ids: seq<Uuid>, published: map<Uuid, Time>, k: nat)
    requires k < |ids| && ids[k] !in published
    ensures Unsuppressed(ids[..k], published) + [ids[k]] <= Unsuppressed(ids, published)
    decreases |ids|
  {
    var n := |ids| - 1;
    if k < n {
      UnsuppressedInOrder(ids[..n], published, k);
      assert ids[..n][..k] == ids[..k];
    }
  }

  predicate DistinctIds(news: seq<Publication>) {
    forall i, j :: 0 <= i < j < |news| ==> news[i].id != news[j].id
  }

  lemma DistinctSnoc(before: seq<Publication>, one: seq<Publication>, a: Uuid)
    requires DistinctIds(before) && |one| <= 1 && forall k :: 0 <= k < |one| ==> one[k].id == a
    requires forall k :: 0 <= k < |before| ==> before[k].id != a
    ensures DistinctIds(before + one)
  {
  }

  /** What is sent is meant to be sent, now. */
  predicate AllOf(news: seq<Publication>, ids: seq<Uuid>, at: Time) {
    forall k :: 0 <= k < |news| ==> news[k].at == at && news[k].id in SetOf(ids)
  }

  lemma AllOfSnoc(before: seq<Publication>, one: seq<Publication>, front: seq<Uuid>, a: Uuid, at: Time)
    requires AllOf(before, front, at)
    requires |one| <= 1 && forall k :: 0 <= k < |one| ==> one[k].id == a && one[k].at == at
    ensures AllOf(before + one, front + [a], at)
  {
    SetOfSnoc(front, a);
  }

  lemma NotInFront(ids: seq<Uuid>, n: nat, before: seq<Publication>, at: Time)
    requires NoRepeats(ids) && n < |ids| && AllOf(before, ids[..n], at)
    ensures NoRepeats(ids[..n]) && forall k :: 0 <= k < |before| ==> before[k].id != ids[n]
  {
    forall k | 0 <= k < |before| ensures before[k].id != ids[n] {
      var i :| 0 <= i < |ids[..n]| && ids[..n][i] == before[k].id;
    }
  }

  lemma PrefixHasNoRepeats(ids: seq<Uuid>, n: nat)
    requires NoRepeats(ids) && n <= |ids|
    ensures NoRepeats(ids[..n])
  {
  }

  /** What was sent was meant to be sent, now, and no id twice. */
  lemma {:induction false} SendingsAre(ids: seq<Uuid>, ahead: seq<Weather>, at: Time)
    requires NoRepeats(ids)
    ensures AllOf(Sendings(ids, ahead, at), ids, at) && DistinctIds(Sendings(ids, ahead, at))
    decreases |ids|
  {
    hide SetOf, NoRepeats, DistinctIds, AllOf, Dropped, Next;
    if ids == [] {
      NoneSent(ids, at);
    } else {
      var n := |ids| - 1;
      var before, one := Sendings(ids[..n], ahead, at), Sending(ids[n], Next(Dropped(ahead, n)), at);
      PrefixHasNoRepeats(ids, n);
      SendingsAre(ids[..n], ahead, at);
      NotInFront(ids, n, before, at);
      DistinctSnoc(before, one, ids[n]);
      AllOfSnoc(before, one, ids[..n], ids[n], at);
      assert ids == ids[..n] + [ids[n]];
    }
  }

  /** Each id has its own fate, whatever became of the others: it is published exactly when
      its command did not fail, and heard of exactly when it ran. */
  lemma {:induction false} EachSendingHasItsFate(ids: seq<Uuid>, ahead: seq<Weather>, at: Time, k: nat)
    requires NoRepeats(ids) && k < |ids|
    ensures var fault := Next(Dropped(ahead, k)).fault;
            if fault == Fails then forall p :: p in Sendings(ids, ahead, at) ==> p.id != ids[k]
            else Publication(ids[k], at, fault == Runs) in Sendings(ids, ahead, at)
    decreases |ids|
  {
    hide SetOf, Dropped, Next;
    var n := |ids| - 1;
    var before := Sendings(ids[..n], ahead, at);
    PrefixHasNoRepeats(ids, n);
    if k < n {
      EachSendingHasItsFate(ids[..n], ahead, at, k);
    } else {
      SendingsAre(ids[..n], ahead, at);
      NotInFront(ids, n, before, at);
    }
  }

  lemma NoneSent(ids: seq<Uuid>, at: Time)
    ensures AllOf([], ids, at) && DistinctIds([])
  {
  }

  /** Everything sent, and heard of. */
  predicate AllSent(news: seq<Publication>, ids: seq<Uuid>, at: Time) {
    |news| == |ids| && forall k :: 0 <= k < |news| ==> news[k] == Publication(ids[k], at, true)
  }

  lemma AllSentSnoc(news: seq<Publication>, ids: seq<Uuid>, a: Uuid, at: Time)
    requires AllSent(news, ids, at)
    ensures AllSent(news + [Publication(a, at, true)], ids + [a], at)
  {
  }

  /** Where nothing fails everything is sent and heard of. */
  lemma {:induction false} CalmSendings(ids: seq<Uuid>, at: Time)
    ensures AllSent(Sendings(ids, [], at), ids, at) && IdsOf(Sendings(ids, [], at)) == ids
    decreases |ids|
  {
    if ids != [] {
      hide AllSent;
      var n := |ids| - 1;
      CalmSendings(ids[..n], at);
      AllSentSnoc(Sendings(ids[..n], [], at), ids[..n], ids[n], at);
      assert ids == ids[..n] + [ids[n]];
      AllSentIds(Sendings(ids, [], at), ids, at);
    }
  }

  lemma AllSentIds(news: seq<Publication>, ids: seq<Uuid>, at: Time)
    requires AllSent(news, ids, at)
    ensures IdsOf(news) == ids
  {
  }

  lemma {:induction false} RememberedAre(published: map<Uuid, Time>, news: seq<Publication>)
    requires forall k :: 0 <= k < |news| ==> news[k].heard
    ensures Remembered(published, news).Keys == published.Keys + SetOf(IdsOf(news))
    decreases |news|
  {
    if news == [] {
      assert SetOf(IdsOf(news)) == {};
    } else {
      var front, last := news[..|news| - 1], news[|news| - 1];
      RememberedAre(published, front);
      assert IdsOf(news) == IdsOf(front) + [last.id];
      SetOfSnoc(IdsOf(front), last.id);
    }
  }

  lemma RememberedSnoc(published: map<Uuid, Time>, news: seq<Publication>, p: Publication)
    ensures Remembered(published, news + [p])
            == if p.heard then Remembered(published, news)[p.id := p.at] else Remembered(published, news)
  {
    assert (news + [p])[..|news|] == news;
  }

  /** The map holds no more than what was published within the window. */
  lemma {:induction false} RememberedIsPruned(published: map<Uuid, Time>, news: seq<Publication>, at: Time)
    requires Pruned(published, at) && forall k :: 0 <= k < |news| ==> news[k].at == at
    ensures Pruned(Remembered(published, news), at)
    decreases |news|
  {
    if news != [] {
      RememberedIsPruned(published, news[..|news| - 1], at);
    }
  }

  /** A pass that meets no fault leaves nothing listed unpublished. */
  lemma CalmPassCovers(sent: seq<Publication>, published: map<Uuid, Time>, ids: seq<Uuid>, at: Time, a: Uuid)
    requires Windowed(sent, published, at) && Pruned(published, at) && NoRepeats(ids) && a in SetOf(ids)
    ensures SentWithin(sent + Sendings(Unsuppressed(ids, published), [], at), a, at, true)
  {
    hide Windowed, Sendings, Unsuppressed;
    var tried := Unsuppressed(ids, published);
    var news := Sendings(tried, [], at);
    var all := sent + news;
    if a in published {
      SuppressedIffHeardOf(sent, published, at, a);
      var k :| 0 <= k < |sent| && sent[k].id == a && sent[k].heard && at - sent[k].at < SUPPRESS_FOR;
      assert all[k] == sent[k];
    } else {
      UnsuppressedIs(ids, published);
      CalmSendings(tried, at);
      assert a in SetOf(tried);
      var k :| 0 <= k < |tried| && tried[k] == a;
      assert IdsOf(news)[k] == a;
      assert all[|sent| + k] == news[k];
    }
  }

  lemma NothingListed(ids: seq<Uuid>, published: map<Uuid, Time>)
    ensures SetOf(ids[..0]) == {} && Unsuppressed(ids[..0], published) == []
  {
  }

  lemma NextListed(ids: seq<Uuid>, published: map<Uuid, Time>, i: nat)
    requires i < |ids| && NoRepeats(ids)
    ensures SetOf(ids[..i + 1]) == SetOf(ids[..i]) + {ids[i]} && ids[i] !in SetOf(ids[..i])
    ensures Unsuppressed(ids[..i + 1], published)
            == Unsuppressed(ids[..i], published) + if ids[i] in published then [] else [ids[i]]
  {
    assert ids[..i + 1][..i] == ids[..i] && ids[..i + 1] == ids[..i] + [ids[i]];
    SetOfSnoc(ids[..i], ids[i]);
  }

  lemma NextSending(ids: seq<Uuid>, a: Uuid, ahead: seq<Weather>, at: Time)
    ensures Sendings(ids + [a], ahead, at) == Sendings(ids, ahead, at) + Sending(a, Next(Dropped(ahead, |ids|)), at)
    ensures Rest(Dropped(ahead, |ids|)) == Dropped(ahead, |ids| + 1)
  {
    assert (ids + [a])[..|ids|] == ids;
  }

  lemma PruneKeepsTheWindow(sent: seq<Publication>, published: map<Uuid, Time>, from: Time, at: Time)
    requires Windowed(sent, published, from) && from <= at
    ensures Windowed(sent, Prune(published, at), at) && Pruned(Prune(published, at), at)
  {
  }

  /** Published within the window before an instant, heard of or not. */
  predicate SentWithin(sent: seq<Publication>, a: Uuid, at: Time, heard: bool) {
    exists k :: 0 <= k < |sent| && sent[k].id == a && sent[k].heard == heard && at - sent[k].at < SUPPRESS_FOR
  }

  /** The map suppresses exactly what was published and heard of within the window. */
  lemma SuppressedIffHeardOf(sent: seq<Publication>, published: map<Uuid, Time>, at: Time, a: Uuid)
    requires Windowed(sent, published, at) && Pruned(published, at)
    ensures a in published <==> SentWithin(sent, a, at, true)
  {
    if a in published {
      assert Publication(a, published[a], true) in sent;
    }
  }

  lemma PublishKeepsTheWindow(sent: seq<Publication>, published: map<Uuid, Time>, p: Publication)
    requires Windowed(sent, published, p.at) && p.id !in published
    ensures Windowed(sent + [p], if p.heard then published[p.id := p.at] else published, p.at)
  {
    var sent', published' := sent + [p], if p.heard then published[p.id := p.at] else published;
    assert sent'[|sent|] == p;
    forall x | x in published' ensures Publication(x, published'[x], true) in sent' {
      assert x in published && published'[x] == published[x] ==> Publication(x, published[x], true) in sent;
    }
  }

  /** A publication unheard of, and another of the same id within the window after it. */
  predicate UnheardAndAgain(sent: seq<Publication>, i: int, j: int) {
    && 0 <= i < j < |sent| && sent[i].id == sent[j].id && !sent[i].heard && sent[j].at - sent[i].at < SUPPRESS_FOR
  }

  lemma SpacedIffNoneUnheardAgain(sent: seq<Publication>, published: map<Uuid, Time>, at: Time)
    requires Windowed(sent, published, at)
    ensures Spaced(sent) <==> !exists i, j :: UnheardAndAgain(sent, i, j)
  {
    if i, j :| UnheardAndAgain(sent, i, j) {
      assert sent[i].id == sent[j].id;
    }
    if !exists i, j :: UnheardAndAgain(sent, i, j) {
      forall i, j | 0 <= i < j < |sent| && sent[i].id == sent[j].id ensures sent[j].at - sent[i].at >= SUPPRESS_FOR {
        assert !UnheardAndAgain(sent, i, j);
      }
    }
  }

  predicate AllHeard(sent: seq<Publication>) {
    forall i :: 0 <= i < |sent| ==> sent[i].heard
  }

  /** No answer of Redis is lost. */
  predicate NoneLost(ahead: seq<Weather>) {
    forall i :: 0 <= i < |ahead| ==> ahead[i].fault != Misreported
  }

  lemma {:induction false} SendingsAreHeard(ids: seq<Uuid>, ahead: seq<Weather>, at: Time)
    requires NoneLost(ahead)
    ensures AllHeard(Sendings(ids, ahead, at))
    decreases |ids|
  {
    if ids != [] {
      var n := |ids| - 1;
      SendingsAreHeard(ids[..n], ahead, at);
      assert n < |ahead| ==> Dropped(ahead, n)[0] == ahead[n];
    }
  }

  lemma NoneLostLater(ahead: seq<Weather>, n: nat)
    requires NoneLost(ahead)
    ensures NoneLost(Rest(ahead)) && NoneLost(Dropped(Rest(ahead), n))
  {
  }

  lemma HeardIsSpaced(sent: seq<Publication>, published: map<Uuid, Time>, at: Time)
    requires Windowed(sent, published, at) && AllHeard(sent)
    ensures Spaced(sent)
  {
  }

  /** The news of one instant that repeat nothing heard of within the window. */
  predicate Fresh(sent: seq<Publication>, news: seq<Publication>, at: Time) {
    && DistinctIds(news)
    && (forall k :: 0 <= k < |news| ==> news[k].at == at)
    && forall k :: 0 <= k < |news| ==> !SentWithin(sent, news[k].id, at, true)
  }

  predicate RepeatsUnheard(sent: seq<Publication>, news: seq<Publication>, at: Time) {
    exists k :: 0 <= k < |news| && SentWithin(sent, news[k].id, at, false)
  }

  lemma SpacedWithout(sent: seq<Publication>, news: seq<Publication>, at: Time)
    requires Fresh(sent, news, at) && Spaced(sent + news)
    ensures Spaced(sent) && !RepeatsUnheard(sent, news, at)
  {
    var all := sent + news;
    forall i, j | 0 <= i < j < |sent| && sent[i].id == sent[j].id ensures sent[j].at - sent[i].at >= SUPPRESS_FOR {
      assert all[i] == sent[i] && all[j] == sent[j];
    }
    forall k | 0 <= k < |news| ensures !SentWithin(sent, news[k].id, at, false) {
      forall i | 0 <= i < |sent| && sent[i].id == news[k].id ensures at - sent[i].at >= SUPPRESS_FOR {
        assert all[i] == sent[i] && all[|sent| + k] == news[k];
      }
    }
  }

  lemma SpacedWith(sent: seq<Publication>, news: seq<Publication>, at: Time)
    requires Fresh(sent, news, at) && Spaced(sent) && !RepeatsUnheard(sent, news, at)
    ensures Spaced(sent + news)
  {
    var all := sent + news;
    forall i, j | 0 <= i < j < |all| && all[i].id == all[j].id ensures all[j].at - all[i].at >= SUPPRESS_FOR {
      if i < |sent| <= j {
        var a := news[j - |sent|].id;
        assert !SentWithin(sent, a, at, false) && !SentWithin(sent, a, at, true);
        assert sent[i].id == a;
      }
    }
  }

  /** When a pass publishes an id twice within the window: exactly when it sends one that
      an earlier XADD had published within it, unheard of. */
  lemma SpacedIffNothingUnheardIsRepeated(sent: seq<Publication>, published: map<Uuid, Time>, ids: seq<Uuid>,
                                          ahead: seq<Weather>, at: Time)
    requires Windowed(sent, published, at) && Pruned(published, at) && NoRepeats(ids)
    ensures var news := Sendings(Unsuppressed(ids, published), ahead, at);
            Spaced(sent + news) <==> Spaced(sent) && !RepeatsUnheard(sent, news, at)
  {
    hide Windowed, SentWithin, Spaced, Sendings, RepeatsUnheard, DistinctIds;
    var news := Sendings(Unsuppressed(ids, published), ahead, at);
    UnsuppressedIs(ids, published);
    SendingsAre(Unsuppressed(ids, published), ahead, at);
    forall k | 0 <= k < |news| ensures !SentWithin(sent, news[k].id, at, true) {
      SuppressedIffHeardOf(sent, published, at, news[k].id);
    }
    if Spaced(sent + news) {
      SpacedWithout(sent, news, at);
    }
    if Spaced(sent) && !RepeatsUnheard(sent, news, at) {
      SpacedWith(sent, news, at);
    }
  }

  predicate AllClear(ahead: seq<Weather>) {
    forall i :: 0 <= i < |ahead| ==> Clear(ahead[i])
  }

  lemma RestIsClear(ahead: seq<Weather>)
    ensures AllClear(ahead) ==> Clear(Next(ahead)) && AllClear(Rest(ahead))
  {
  }

  lemma StillClear(ahead: seq<Weather>, n: nat)
    ensures AllClear(ahead) ==> Clear(Next(Dropped(ahead, n)))
  {
  }

  lemma OneAtMost(a: Uuid, v: Weather, at: Time)
    ensures |Sending(a, v, at)| <= 1 && forall k :: 0 <= k < |Sending(a, v, at)| ==> Sending(a, v, at)[k].id == a
  {
  }

  lemma NothingSent(published: map<Uuid, Time>, ahead: seq<Weather>, at: Time, from: nat)
    ensures Sendings([], ahead, at) == [] && Remembered(published, []) == published && EntriesOf(IdsOf([]), from) == []
    ensures Dropped(ahead, 0) == ahead
  {
  }

  lemma OneRemembered(published: map<Uuid, Time>, p: Publication, from: nat)
    ensures Remembered(published, []) == published && EntriesOf(IdsOf([]), from) == []
    ensures Remembered(published, [p]) == if p.heard then published[p.id := p.at] else published
    ensures EntriesOf(IdsOf([p]), from) == [Entry(from, Some(p.id))]
  {
    assert [p][..0] == [];
  }

  /** A pass that goes on. */
  lemma NextNews(published: map<Uuid, Time>, news: seq<Publication>, one: seq<Publication>, from: nat, a: Uuid)
    requires |one| <= 1 && forall k :: 0 <= k < |one| ==> one[k].id == a
    ensures Remembered(Remembered(published, news), one) == Remembered(published, news + one)
    ensures EntriesOf(IdsOf(news + one), from) == EntriesOf(IdsOf(news), from) + EntriesOf(IdsOf(one), from + |news|)
    ensures Remembered(published, news).Keys <= Remembered(published, news + one).Keys
            <= Remembered(published, news).Keys + {a}
  {
    hide EntriesOf, IdsOf;
    NextEntries(news, one, from);
    if one == [] {
      assert news + one == news;
    } else {
      assert one == [one[0]] && one[..0] == [];
      RememberedSnoc(published, news, one[0]);
    }
  }

  lemma NextEntries(news: seq<Publication>, one: seq<Publication>, from: nat)
    ensures EntriesOf(IdsOf(news + one), from) == EntriesOf(IdsOf(news), from) + EntriesOf(IdsOf(one), from + |news|)
  {
    hide EntriesOf, IdsOf;
    var all, parts := EntriesOf(IdsOf(news + one), from),
                      EntriesOf(IdsOf(news), from) + EntriesOf(IdsOf(one), from + |news|);
    forall i | 0 <= i < |all| ensures all[i] == parts[i] {
      assert all[i] == Entry(from + i, Some((news + one)[i].id));
    }
  }

  lemma PassFacts(sent: seq<Publication>, known: map<Uuid, Time>, ids: seq<Uuid>, ahead: seq<Weather>, at: Time)
    requires Windowed(sent, known, at) && Pruned(known, at) && NoRepeats(ids)
    ensures var news := Sendings(Unsuppressed(ids, known), ahead, at);
            && Pruned(Remembered(known, news), at)
            && (ahead == [] ==> forall a :: a in SetOf(ids) ==> SentWithin(sent + news, a, at, true))
  {
    hide Windowed, Sendings, Unsuppressed, SentWithin, SetOf, Remembered;
    UnsuppressedIs(ids, known);
    SendingsAre(Unsuppressed(ids, known), ahead, at);
    RememberedIsPruned(known, Sendings(Unsuppressed(ids, known), ahead, at), at);
    if ahead == [] {
      forall a | a in SetOf(ids) ensures SentWithin(sent + Sendings(Unsuppressed(ids, known), ahead, at), a, at, true) {
        CalmPassCovers(sent, known, ids, at, a);
      }
    }
  }
}
