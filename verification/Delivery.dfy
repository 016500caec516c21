/** The stream between the sweep and the closer: one consumer group, its pending list and
    the account of every delivered entry, against a Redis that may fail any command, lose
    its answer, trim or be flushed. */
module Delivery {
  import opened Contract
  import opened ShardEngine
  import opened Closing

  const READ_COUNT: nat := 64

  /** payload is None when the field is missing or is not a uuid. */
  datatype Entry = Entry(id: nat, payload: Option<Uuid>)

  /** What happens around one command: Redis is flushed, some producer recreates the
      group, entries below an id are trimmed, entries arrive, pending entries have been idle
      long enough to be claimed, and the command itself runs, fails or goes unheard. */
  datatype Weather = Weather(
    fault: Fault,
    flushed: bool,
    grouped: bool,
    trimmed: nat,
    arrivals: seq<Option<Uuid>>,
    idle: seq<nat>)

  const CALM := Weather(Runs, false, false, 0, [], [])

  /** Nothing happens around the command but what becomes of it. */
  predicate Clear(v: Weather) {
    v == CALM.(fault := v.fault)
  }

  function Next(ahead: seq<Weather>): Weather {
    if ahead == [] then CALM else ahead[0]
  }

  function Rest(ahead: seq<Weather>): seq<Weather> {
    if ahead == [] then [] else ahead[1..]
  }

  /* ---- where every delivered entry is ---- */

  /** pending is the group's pending list. handled holds, for each entry acknowledged
      after its handler returned nil, the database as the handler left it; buried
      those acknowledged after burial; lost those trimmed or flushed while pending. */
  datatype Custody = Custody(
    delivered: map<nat, Option<Uuid>>,
    pending: map<nat, Option<Uuid>>,
    handled: map<nat, Moment>,
    buried: set<nat>,
    lost: set<nat>,
    interred: set<nat>)

  /** Every delivered entry is in exactly one place; an acknowledged one left nothing
      to do behind it, or is malformed and in the dead letter stream. */
  ghost predicate Partitioned(c: Custody) {
    && c.delivered.Keys == c.pending.Keys + c.handled.Keys + c.buried + c.lost
    && c.pending.Keys !! c.handled.Keys !! c.buried !! c.lost
    && (forall id :: id in c.pending ==> c.pending[id] == c.delivered[id])
    && (forall id :: id in c.handled ==> c.delivered[id].Some? && !Due(c.handled[id], c.delivered[id].value))
    && (forall id :: id in c.buried ==> c.delivered[id].None? && id in c.interred)
  }

  /** Fates are final. */
  ghost predicate Onward(c: Custody, c': Custody) {
    && (forall id :: id in c.delivered ==> id in c'.delivered && c'.delivered[id] == c.delivered[id])
    && (forall id :: id in c.handled ==> id in c'.handled && c'.handled[id] == c.handled[id])
    && c.buried <= c'.buried && c.lost <= c'.lost && c.interred <= c'.interred
  }

  function Lose(c: Custody, gone: set<nat>): Custody {
    c.(pending := c.pending - gone, lost := c.lost + (c.pending.Keys * gone))
  }

  function Distinct(entries: seq<Entry>): bool {
    forall i, j :: 0 <= i < j < |entries| ==> entries[i].id != entries[j].id
  }

  function Ids(entries: seq<Entry>): set<nat> {
    set i | 0 <= i < |entries| :: entries[i].id
  }

  function Payloads(entries: seq<Entry>): map<nat, Option<Uuid>>
    requires Distinct(entries)
  {
    map i | 0 <= i < |entries| :: entries[i].id := entries[i].payload
  }

  function Deliver(c: Custody, entries: seq<Entry>): Custody
    requires Distinct(entries)
  {
    c.(delivered := c.delivered + Payloads(entries), pending := c.pending + Payloads(entries))
  }

  /** XACK: nothing for an entry that is not pending. */
  function Acknowledge(c: Custody, id: nat, at: Option<Moment>): Custody {
    if id !in c.pending then c
    else match at
      case Some(m) => c.(pending := c.pending - {id}, handled := c.handled[id := m])
      case None => c.(pending := c.pending - {id}, buried := c.buried + {id})
  }

  lemma LoseKeeps(c: Custody, gone: set<nat>)
    requires Partitioned(c)
    ensures Partitioned(Lose(c, gone)) && Onward(c, Lose(c, gone))
  {
  }

  lemma DeliverKeeps(c: Custody, entries: seq<Entry>)
    requires Partitioned(c) && Distinct(entries) && Ids(entries) !! c.delivered.Keys
    ensures Partitioned(Deliver(c, entries)) && Onward(c, Deliver(c, entries))
  {
    assert Payloads(entries).Keys == Ids(entries);
  }

  lemma AcknowledgeKeeps(c: Custody, id: nat, at: Option<Moment>)
    requires Partitioned(c) && id in c.delivered
    requires at.Some? ==> c.delivered[id].Some? && !Due(at.value, c.delivered[id].value)
    requires at.None? ==> c.delivered[id].None? && id in c.interred
    ensures Partitioned(Acknowledge(c, id, at)) && Onward(c, Acknowledge(c, id, at))
  {
  }

  lemma OnwardIsReflexive(c: Custody)
    ensures Onward(c, c)
  {
  }

  lemma OnwardIsTransitive(c: Custody, c1: Custody, c2: Custody)
    requires Onward(c, c1) && Onward(c1, c2)
    ensures Onward(c, c2)
  {
  }

  /** The worker's promise of at most one unacknowledged entry: from an empty pending
      list a read leaves two in hand exactly when two were waiting. */
  lemma TwoUnacknowledgedIffTwoWaiting(c: Custody, backlog: seq<Entry>)
    requires c.pending == map[] && Distinct(backlog)
    ensures Distinct(FirstRead(backlog)) && |FirstRead(backlog)| == if |backlog| < 64 then |backlog| else 64
    ensures (exists x, y :: x != y && x in Deliver(c, FirstRead(backlog)).pending
                            && y in Deliver(c, FirstRead(backlog)).pending) <==> 2 <= |backlog|
  {
    var after := Deliver(c, FirstRead(backlog));
    if 2 <= |backlog| {
      assert FirstRead(backlog)[0].id in after.pending && FirstRead(backlog)[1].id in after.pending;
    }
  }

  function FirstRead(backlog: seq<Entry>): seq<Entry> {
    backlog[..if |backlog| < READ_COUNT then |backlog| else READ_COUNT]
  }

  function FirstIdle(idle: seq<nat>, pending: map<nat, Option<Uuid>>, room: nat): seq<Entry> {
    if idle == [] || room == 0 then []
    else if idle[0] in pending then
      [Entry(idle[0], pending[idle[0]])] + FirstIdle(idle[1..], pending, room - 1)
    else FirstIdle(idle[1..], pending, room)
  }

  /** It leaves out only what does not fit. */
  lemma {:induction false} FirstIdleIsComplete(idle: seq<nat>, pending: map<nat, Option<Uuid>>, room: nat, i: nat)
    requires i < |idle| && i < room && idle[i] in pending
    ensures Entry(idle[i], pending[idle[i]]) in FirstIdle(idle, pending, room)
  {
    if i > 0 {
      FirstIdleIsComplete(idle[1..], pending, if idle[0] in pending then room - 1 else room, i - 1);
    }
  }

  lemma {:induction false} NothingIdle(idle: seq<nat>, pending: map<nat, Option<Uuid>>, room: nat)
    requires room > 0
    ensures FirstIdle(idle, pending, room) == [] <==> !exists id :: id in idle && id in pending
  {
    if idle != [] && idle[0] !in pending {
      NothingIdle(idle[1..], pending, room);
      assert forall id :: id in idle <==> id == idle[0] || id in idle[1..];
    }
  }

  lemma {:induction false} FirstIdleIsPending(idle: seq<nat>, pending: map<nat, Option<Uuid>>, room: nat)
    ensures |FirstIdle(idle, pending, room)| <= room
    ensures forall e :: e in FirstIdle(idle, pending, room) ==> e.id in pending && e.payload == pending[e.id]
  {
    if idle != [] && room != 0 {
      FirstIdleIsPending(idle[1..], pending, if idle[0] in pending then room - 1 else room);
    }
  }

  function Stamped(arrivals: seq<Option<Uuid>>, from: nat): (entries: seq<Entry>)
    ensures |entries| == |arrivals|
    ensures forall i :: 0 <= i < |entries| ==> entries[i] == Entry(from + i, arrivals[i])
  {
    seq(|arrivals|, i requires 0 <= i < |arrivals| => Entry(from + i, arrivals[i]))
  }

  function NotTrimmed(backlog: seq<Entry>, bound: nat): (rest: seq<Entry>)
    ensures |rest| <= |backlog| && rest == backlog[|backlog| - |rest|..]
  {
    if backlog != [] && backlog[0].id < bound then NotTrimmed(backlog[1..], bound) else backlog
  }

  /** The undelivered entries are new to the group. */
  ghost predicate Queued(c: Custody, backlog: seq<Entry>, nextId: nat) {
    && Distinct(backlog) && Ids(backlog) !! c.delivered.Keys
    && (forall id :: id in c.delivered ==> id < nextId)
    && (forall i :: 0 <= i < |backlog| ==> backlog[i].id < nextId)
  }

  ghost predicate AllPartitioned(history: seq<Custody>) {
    forall i :: 0 <= i < |history| ==> Partitioned(history[i])
  }

  lemma SuffixQueued(c: Custody, backlog: seq<Entry>, nextId: nat, k: nat)
    requires Queued(c, backlog, nextId) && k <= |backlog|
    ensures Queued(c, backlog[k..], nextId)
  {
    forall id | id in Ids(backlog[k..]) ensures id in Ids(backlog) {
      var i :| 0 <= i < |backlog[k..]| && backlog[k..][i].id == id;
      assert backlog[k + i].id == id;
    }
  }

  lemma LoseQueued(c: Custody, backlog: seq<Entry>, nextId: nat, gone: set<nat>)
    requires Queued(c, backlog, nextId)
    ensures Queued(Lose(c, gone), backlog, nextId)
  {
  }

  lemma ArriveQueued(c: Custody, backlog: seq<Entry>, nextId: nat, arrivals: seq<Option<Uuid>>)
    requires Queued(c, backlog, nextId)
    ensures Queued(c, backlog + Stamped(arrivals, nextId), nextId + |arrivals|)
    ensures Queued(c, backlog, nextId + |arrivals|)
  {
  }

  lemma ReadQueued(c: Custody, backlog: seq<Entry>, nextId: nat, k: nat)
    requires Partitioned(c) && Queued(c, backlog, nextId) && k <= |backlog|
    ensures Distinct(backlog[..k]) && Queued(Deliver(c, backlog[..k]), backlog[k..], nextId)
    ensures Partitioned(Deliver(c, backlog[..k])) && Onward(c, Deliver(c, backlog[..k]))
    ensures forall e :: e in backlog[..k] ==>
              e.id in Deliver(c, backlog[..k]).pending && Deliver(c, backlog[..k]).pending[e.id] == e.payload
  {
    var read := backlog[..k];
    SuffixQueued(c, backlog, nextId, k);
    ReadIsNew(c, backlog, nextId, k);
    DeliverKeeps(c, read);
    assert Payloads(read).Keys == Ids(read);
  }

  lemma ReadIsNew(c: Custody, backlog: seq<Entry>, nextId: nat, k: nat)
    requires Queued(c, backlog, nextId) && k <= |backlog|
    ensures Distinct(backlog[..k]) && Ids(backlog[..k]) !! c.delivered.Keys && Ids(backlog[..k]) !! Ids(backlog[k..])
    ensures forall id :: id in Ids(backlog[..k]) ==> id < nextId
  {
    forall id | id in Ids(backlog[..k]) ensures id in Ids(backlog) && id < nextId {
      var i :| 0 <= i < |backlog[..k]| && backlog[..k][i].id == id;
      assert backlog[i].id == id;
    }
  }

  lemma OnwardAbout(c: Custody, c': Custody, id: nat)
    requires Onward(c, c')
    ensures id in c.delivered ==> id in c'.delivered && c'.delivered[id] == c.delivered[id]
    ensures id in c.interred ==> id in c'.interred
  {
  }

  lemma AcknowledgeQueued(c: Custody, id: nat, at: Option<Moment>, backlog: seq<Entry>, nextId: nat)
    requires Queued(c, backlog, nextId)
    ensures Queued(Acknowledge(c, id, at), backlog, nextId)
  {
  }

  lemma InterKeeps(c: Custody, id: nat, backlog: seq<Entry>, nextId: nat)
    requires Partitioned(c) && Queued(c, backlog, nextId)
    ensures var c' := c.(interred := c.interred + {id});
            Partitioned(c') && Queued(c', backlog, nextId) && Onward(c, c')
  {
  }

  /* ---- Redis ---- */

  /** What Redis holds, and what is ahead of it. */
  datatype Shelf = Shelf(
    group: bool,
    backlog: seq<Entry>,
    pending: map<nat, Option<Uuid>>,
    nextId: nat,
    ahead: seq<Weather>)

  /** The same when the next command runs: flushed or trimmed, the group kept or made
      again, and what arrived appended if there is a group to see it. */
  function Waited(s: Shelf): Shelf {
    var v := Next(s.ahead);
    var group := (s.group && !v.flushed) || v.grouped;
    var rest := if v.flushed then [] else NotTrimmed(s.backlog, v.trimmed);
    Shelf(
      group,
      if group then rest + Stamped(v.arrivals, s.nextId) else rest,
      Spared(s.pending, v.flushed, v.trimmed),
      s.nextId + |v.arrivals|,
      Rest(s.ahead))
  }

  /** The pending entries that a flush or a trim leaves. */
  function Spared(pending: map<nat, Option<Uuid>>, flushed: bool, trimmed: nat): map<nat, Option<Uuid>> {
    if flushed then map[] else map id | id in pending && trimmed <= id :: pending[id]
  }

  lemma SparedAreLeft(pending: map<nat, Option<Uuid>>, flushed: bool, trimmed: nat, gone: set<nat>)
    requires gone == set id | id in pending && (flushed || id < trimmed)
    ensures pending - gone == Spared(pending, flushed, trimmed)
    ensures Spared(pending, false, 0) == pending
  {
  }

  lemma WaitedInTheCalm(s: Shelf)
    ensures Clear(Next(s.ahead)) ==> Waited(s) == s.(ahead := Rest(s.ahead))
    ensures s.ahead == [] ==> Waited(s) == s
  {
    hide NotTrimmed, Spared;
    NothingTrimmed(s.backlog);
    SparedAreLeft(s.pending, false, 0, {});
  }

  lemma ClearMeans(v: Weather)
    ensures Clear(v) ==> !v.flushed && v.trimmed == 0 && !v.grouped && v.arrivals == []
  {
  }

  lemma WaitedParts(s: Shelf)
    ensures var w, v := Waited(s), Next(s.ahead);
            && w.group == ((s.group && !v.flushed) || v.grouped)
            && w.pending == Spared(s.pending, v.flushed, v.trimmed)
            && w.nextId == s.nextId + |v.arrivals| && w.ahead == Rest(s.ahead)
            && var rest := if v.flushed then [] else NotTrimmed(s.backlog, v.trimmed);
               w.backlog == if w.group then rest + Stamped(v.arrivals, s.nextId) else rest
  {
  }

  lemma NothingTrimmed(backlog: seq<Entry>)
    ensures NotTrimmed(backlog, 0) == backlog
  {
  }

  /** Waiting never puts anything back on the pending list. */
  lemma WaitingOnlyLoses(s: Shelf)
    ensures Waited(s).pending.Keys <= s.pending.Keys
  {
  }

  /** XACK after waiting: it takes effect also when its answer is lost. */
  function Acked(s: Shelf, id: nat): Shelf {
    var w := Waited(s);
    if Next(s.ahead).fault != Fails then w.(pending := w.pending - {id}) else w
  }

  /** XREADGROUP after waiting: what it delivers, heard or not. */
  function ToRead(s: Shelf): seq<Entry> {
    var w := Waited(s);
    if w.group && Next(s.ahead).fault != Fails then FirstRead(w.backlog) else []
  }

  function AfterRead(s: Shelf): Shelf {
    var w, read := Waited(s), ToRead(s);
    w.(backlog := w.backlog[|read|..], pending := if Distinct(read) then w.pending + Payloads(read) else w.pending)
  }

  lemma NothingRead(s: Shelf)
    ensures ToRead(s) == [] ==> Distinct(ToRead(s)) && AfterRead(s) == Waited(s)
  {
  }

  class Stream {
    var group: bool
    var backlog: seq<Entry>  // in the stream, delivered to nobody
    var pending: map<nat, Option<Uuid>>
    var nextId: nat
    var ahead: seq<Weather>
    ghost var books: Custody
    ghost var history: seq<Custody>  // after every command ever run

    constructor (ahead: seq<Weather>)
      ensures Valid() && !group && backlog == [] && nextId == 0 && this.ahead == ahead
    {
      group, backlog, pending, nextId, this.ahead := false, [], map[], 0, ahead;
      books := Custody(map[], map[], map[], {}, {}, {});
      history := [];
    }

    function Here(): Shelf
      reads this
    {
      Shelf(group, backlog, pending, nextId, ahead)
    }

    ghost predicate Valid()
      reads this
    {
      && pending == books.pending && Partitioned(books) && AllPartitioned(history)
      && Queued(books, backlog, nextId)
    }

    /** What a command leaves of the account, and that it was recorded. */
    ghost predicate Moved(c: Custody, past: seq<Custody>)
      reads this
    {
      Valid() && Onward(c, books) && past <= history && |history| > |past| && history[|history| - 1] == books
    }

    method Arrive(arrivals: seq<Option<Uuid>>)
      requires Valid()
      modifies this`backlog, this`nextId
      ensures Valid()
      ensures group ==> backlog == old(backlog) + Stamped(arrivals, old(nextId))
      ensures !group ==> backlog == old(backlog)
      ensures nextId == old(nextId) + |arrivals|
    {
      hide Queued, Partitioned, AllPartitioned;
      ArriveQueued(books, backlog, nextId, arrivals);
      // a group created at $ never sees what arrived before it
      if group {
        backlog := backlog + Stamped(arrivals, nextId);
      }
      nextId := nextId + |arrivals|;
    }

    method Await() returns (v: Weather)
      requires Valid()
      modifies this
      ensures Valid() && Onward(old(books), books) && history == old(history)
      ensures books.handled == old(books.handled) && books.buried == old(books.buried)
      ensures v == Next(old(ahead)) && Here() == Waited(old(Here()))
      ensures Clear(v) ==>
                group == old(group) && backlog == old(backlog) && books == old(books) && nextId == old(nextId)
    {
      hide Queued, Partitioned, AllPartitioned, Onward, NotTrimmed, Spared, Stamped, Waited, Next, Rest,
           Clear;
      OnwardIsReflexive(books);
      ClearMeans(Next(ahead));
      WaitedInTheCalm(Here());
      WaitedParts(Here());
      v, ahead := Next(ahead), Rest(ahead);
      Suffer(v.flushed, v.trimmed);
      group := (group && !v.flushed) || v.grouped;
      Arrive(v.arrivals);
    }

    method Suffer(flushed: bool, trimmed: nat)
      requires Valid()
      modifies this`backlog, this`pending, this`books
      ensures Valid() && Onward(old(books), books)
      ensures books.handled == old(books.handled) && books.buried == old(books.buried)
      ensures backlog == if flushed then [] else NotTrimmed(old(backlog), trimmed)
      ensures pending == Spared(old(pending), flushed, trimmed)
      ensures !flushed && trimmed == 0 ==> backlog == old(backlog) && books == old(books)
    {
      hide Queued, Partitioned, AllPartitioned, Onward, Spared, NotTrimmed;
      NothingTrimmed(backlog);
      var gone := set id | id in pending && (flushed || id < trimmed);
      SparedAreLeft(pending, flushed, trimmed, gone);
      if !flushed && trimmed == 0 {
        OnwardIsReflexive(books);
        return;
      }
      var rest := if flushed then [] else NotTrimmed(backlog, trimmed);
      LoseKeeps(books, gone);
      LoseQueued(books, backlog, nextId, gone);
      assert rest == backlog[|backlog| - |rest|..];
      SuffixQueued(Lose(books, gone), backlog, nextId, |backlog| - |rest|);
      pending, backlog, books := pending - gone, rest, Lose(books, gone);
    }

    /** Every command ends by entering its outcome in the history. */
    ghost method Record(before: Custody)
      requires Valid() && Onward(before, books)
      modifies this`history
      ensures Moved(before, old(history))
    {
      history := history + [books];
    }

    /** XGROUP CREATE ... MKSTREAM at $; BUSYGROUP is success. */
    method EnsureGroup() returns (err: bool)
      requires Valid()
      modifies this
      ensures Moved(old(books), old(history)) && (!err ==> group)
      ensures books.handled == old(books.handled) && books.buried == old(books.buried)
      ensures err <==> Next(old(ahead)).fault != Runs
      ensures var w := Waited(old(Here()));
              Here() == if Next(old(ahead)).fault != Fails then w.(group := true) else w
      ensures Clear(Next(old(ahead))) ==> backlog == old(backlog) && books == old(books) && nextId == old(nextId)
    {
      hide Queued, Partitioned, AllPartitioned, Onward, NotTrimmed;
      var v := Await();
      if v.fault != Fails {
        group := true;
      }
      err := v.fault != Runs;
      Record(old(books));
    }

    /** XADD: an entry published into a stream without the group is never seen by it. The
        command takes effect also when its answer is lost. */
    method Publish(a: Uuid) returns (err: bool)
      requires Valid()
      modifies this
      ensures Moved(old(books), old(history))
      ensures books.handled == old(books.handled) && books.buried == old(books.buried)
      ensures err <==> Next(old(ahead)).fault != Runs
      ensures var w := Waited(old(Here()));
              Here() == if Next(old(ahead)).fault == Fails then w else
                w.(nextId := w.nextId + 1,
                   backlog := if w.group then w.backlog + [Entry(w.nextId, Some(a))] else w.backlog)
      ensures Clear(Next(old(ahead))) ==>
                && group == old(group) && books == old(books)
                && (Next(old(ahead)).fault == Fails ==> backlog == old(backlog) && nextId == old(nextId))
                && (Next(old(ahead)).fault != Fails ==>
                      && nextId == old(nextId) + 1
                      && backlog == if group then old(backlog) + [Entry(old(nextId), Some(a))] else old(backlog))
    {
      hide Queued, Partitioned, AllPartitioned, Onward, NotTrimmed;
      var v := Await();
      if v.fault != Fails {
        assert Stamped([Some(a)], nextId) == [Entry(nextId, Some(a))];
        Arrive([Some(a)]);
      }
      err := v.fault != Runs;
      Record(old(books));
    }

    /** XAUTOCLAIM: some of the pending entries, at most COUNT; they stay pending. */
    method XAutoClaim() returns (err: bool, claimed: seq<Entry>)
      requires Valid()
      modifies this
      ensures Moved(old(books), old(history))
      ensures books.handled == old(books.handled) && books.buried == old(books.buried)
      ensures Here() == Waited(old(Here())) && (err <==> Next(old(ahead)).fault != Runs || !group)
      ensures claimed == if err then [] else FirstIdle(Next(old(ahead)).idle, pending, READ_COUNT)
      ensures |claimed| <= READ_COUNT && forall e :: e in claimed ==> e.id in pending && pending[e.id] == e.payload
      ensures old(ahead) == [] ==>
                && ahead == [] && claimed == []
                && group == old(group) && backlog == old(backlog) && books == old(books)
    {
      hide Queued, Partitioned, AllPartitioned, Onward, NotTrimmed, Spared, Stamped, Waited;
      WaitedInTheCalm(Here());
      var v := Await();
      err, claimed := v.fault != Runs || !group, [];
      if !err {
        FirstIdleIsPending(v.idle, pending, READ_COUNT);
        claimed := FirstIdle(v.idle, pending, READ_COUNT);
      }
      Record(old(books));
    }

    method TakeFirst() returns (entries: seq<Entry>)
      requires Valid()
      modifies this`backlog, this`pending, this`books
      ensures Valid() && Onward(old(books), books)
      ensures books.handled == old(books.handled) && books.buried == old(books.buried)
      ensures entries == FirstRead(old(backlog)) && backlog == old(backlog)[|entries|..]
      ensures forall e :: e in entries ==> e.id in pending && pending[e.id] == e.payload
      ensures Distinct(entries) && books == Deliver(old(books), entries)
    {
      hide Queued, Partitioned, AllPartitioned, Onward;
      entries := FirstRead(backlog);
      ReadQueued(books, backlog, nextId, |entries|);
      backlog := backlog[|entries|..];
      pending := pending + Payloads(entries);
      books := Deliver(books, entries);
    }

    /** XREADGROUP >: up to COUNT new entries, pending from that instant. */
    method XReadGroup() returns (err: bool, entries: seq<Entry>)
      requires Valid()
      modifies this
      ensures Moved(old(books), old(history))
      ensures books.handled == old(books.handled) && books.buried == old(books.buried)
      ensures |entries| <= READ_COUNT && forall e :: e in entries ==> e.id in pending && pending[e.id] == e.payload
      ensures err ==> entries == []
      ensures Distinct(ToRead(old(Here()))) && Here() == AfterRead(old(Here()))
      ensures err <==> Next(old(ahead)).fault != Runs || !group
      ensures !err ==> entries == ToRead(old(Here()))
      ensures old(ahead) == [] ==>
                && ahead == [] && group == old(group) && (err <==> !group)
                && (!group ==> entries == [] && backlog == old(backlog) && books == old(books))
                && (group ==> entries == FirstRead(old(backlog)) && backlog == old(backlog)[|entries|..]
                              && Distinct(entries) && books == Deliver(old(books), entries))
    {
      hide Queued, Partitioned, AllPartitioned, Onward, NotTrimmed, Distinct, Spared, Stamped, Waited, Payloads, Ids;
      WaitedInTheCalm(Here());
      NothingRead(Here());
      var v := Await();
      err, entries := v.fault != Runs || !group, [];
      ghost var before := books;
      if group && v.fault != Fails {
        entries := TakeFirst();
        OnwardIsTransitive(old(books), before, books);
      }
      if v.fault != Runs {
        entries := [];
      }
      Record(old(books));
    }

    /** XACK. at is ghost evidence: the database as the handler left it, or None for
        an entry already in the dead letter stream. */
    method XAck(id: nat, ghost at: Option<Moment>) returns (err: bool)
      requires Valid() && id in books.delivered
      requires at.Some? ==> books.delivered[id].Some? && !Due(at.value, books.delivered[id].value)
      requires at.None? ==> books.delivered[id].None? && id in books.interred
      modifies this
      ensures Moved(old(books), old(history))
      ensures books.handled == old(books.handled) || (at.Some? && books.handled == old(books.handled)[id := at.value])
      ensures books.buried == old(books.buried) || (at.None? && books.buried == old(books.buried) + {id})
      ensures Here() == Acked(old(Here()), id) && (err <==> Next(old(ahead)).fault != Runs)
      ensures id in Waited(old(Here())).pending && Next(old(ahead)).fault != Fails ==>
                if at.Some? then id in books.handled && books.handled[id] == at.value else id in books.buried
      ensures old(ahead) == [] ==>
                !err && ahead == [] && group == old(group) && backlog == old(backlog)
                && books == Acknowledge(old(books), id, at)
    {
      hide Queued, Partitioned, AllPartitioned, Onward, NotTrimmed, Spared, Stamped, Waited;
      WaitedInTheCalm(Here());
      var v := Await();
      if v.fault != Fails {
        OnwardAbout(old(books), books, id);
        AcknowledgeKeeps(books, id, at);
        AcknowledgeQueued(books, id, at, backlog, nextId);
        OnwardIsTransitive(old(books), books, Acknowledge(books, id, at));
        pending := pending - {id};
        books := Acknowledge(books, id, at);
      }
      err := v.fault != Runs;
      Record(old(books));
    }

    /** XADD to the dead letter stream. */
    method Inter(id: nat) returns (err: bool)
      requires Valid() && id in books.delivered
      modifies this
      ensures Moved(old(books), old(history)) && (!err ==> id in books.interred)
      ensures books.handled == old(books.handled) && books.buried == old(books.buried)
      ensures Here() == Waited(old(Here())) && (err <==> Next(old(ahead)).fault != Runs)
      ensures old(ahead) == [] ==>
                !err && ahead == [] && group == old(group) && backlog == old(backlog)
                && books == old(books).(interred := old(books).interred + {id})
    {
      hide Queued, Partitioned, AllPartitioned, Onward, NotTrimmed, Spared, Stamped, Waited;
      WaitedInTheCalm(Here());
      var v := Await();
      if v.fault != Fails {
        OnwardAbout(old(books), books, id);
        InterKeeps(books, id, backlog, nextId);
        OnwardIsTransitive(old(books), books, books.(interred := books.interred + {id}));
        books := books.(interred := books.interred + {id});
      }
      err := v.fault != Runs;
      Record(old(books));
    }
  }
}
