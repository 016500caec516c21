/** The worker: one loop over the stream that claims idle entries, reads new ones, closes
    and acknowledges or buries each in turn, until its context ends. */
module Worker {
  import opened Contract
  import opened ShardEngine
  import opened Closing
  import opened Delivery

  /** ctx.Err(), for a context that will be found alive so many more times. */
  class Context {
    var left: nat

    constructor (left: nat)
      ensures this.left == left
    {
      this.left := left;
    }

    method Ended() returns (ended: bool)
      modifies this
      ensures ended <==> old(left) == 0
      ensures left == if ended then 0 else old(left) - 1
    {
      ended := left == 0;
      if !ended {
        left := left - 1;
      }
    }
  }

  /** The database after each entry's auction was tried once, in order. */
  function CloseAll(m: Moment, entries: seq<Entry>): Moment
    decreases |entries|
  {
    if entries == [] then m else
      var before := CloseAll(m, entries[..|entries| - 1]);
      CloseOne(before, entries[|entries| - 1].payload)
  }

  function CloseOne(m: Moment, payload: Option<Uuid>): Moment {
    if payload.Some? then TryClose(m, payload.value, 0) else m
  }

  lemma CloseNone(m: Moment, entries: seq<Entry>)
    ensures CloseAll(m, entries[..0]) == m && entries[0..] == entries
  {
  }

  lemma {:induction false} CloseAllConcat(m: Moment, xs: seq<Entry>, ys: seq<Entry>)
    ensures CloseAll(m, xs + ys) == CloseAll(CloseAll(m, xs), ys)
    decreases |ys|
  {
    if ys == [] {
      assert xs + ys == xs;
    } else {
      var front := ys[..|ys| - 1];
      assert (xs + ys)[..|xs + ys| - 1] == xs + front;
      CloseAllConcat(m, xs, front);
    }
  }

  lemma CloseAllSnoc(m: Moment, entries: seq<Entry>, i: nat)
    requires i < |entries|
    ensures CloseAll(m, entries[..i + 1]) == CloseOne(CloseAll(m, entries[..i]), entries[i].payload)
  {
    assert entries[..i + 1][..i] == entries[..i];
  }

  lemma CloseAllSplit(m: Moment, queue: seq<Entry>, i: nat, d: nat)
    requires i + d <= |queue|
    ensures CloseAll(m, queue[..i + d]) == CloseAll(CloseAll(m, queue[..i]), queue[i..][..d])
    ensures queue[i..][d..] == queue[i + d..]
  {
    assert queue[..i] + queue[i..][..d] == queue[..i + d];
    CloseAllConcat(m, queue[..i], queue[i..][..d]);
  }

  lemma AllReadIffNothingLeft(queue: seq<Entry>, i: nat)
    requires i <= |queue|
    ensures |FirstRead(queue[i..])| <= |queue| - i && (FirstRead(queue[i..]) == [] ==> i == |queue|)
  {
  }

  /* ---- what becomes of the entries in hand ---- */

  /** The worker's two servers. */
  datatype Desk = Desk(shelf: Shelf, now: Moment, moves: seq<Move>)

  /** One entry handled: buried, or closed and acknowledged if that came to a result. */
  function Handled(d: Desk, e: Entry): Desk {
    match e.payload
    case None =>
      d.(shelf := if Next(d.shelf.ahead).fault == Runs then Acked(Waited(d.shelf), e.id) else Waited(d.shelf))
    case Some(a) =>
      var t := Try(d.now, d.moves, a);
      Desk(if t.settled then Acked(d.shelf, e.id) else d.shelf, t.now, t.ahead)
  }

  function HandledAll(d: Desk, entries: seq<Entry>): Desk {
    if entries == [] then d else Handled(HandledAll(d, entries[..|entries| - 1]), entries[|entries| - 1])
  }

  /** The commands and statements of this entry's own handling do their work: the burial
      is heard of, or the closing comes to a result, and then the XACK takes effect. */
  predicate OwnRun(d: Desk, e: Entry) {
    match e.payload
    case None => Next(d.shelf.ahead).fault == Runs && Next(Rest(d.shelf.ahead)).fault != Fails
    case Some(a) => Settles(d.now, d.moves, a) && Next(d.shelf.ahead).fault != Fails
  }

  /** Due when it was published. */
  predicate WasDue(m: Moment, e: Entry) {
    e.payload.Some? && Ripe(m, e.payload.value)
  }

  /** Off the pending list, and with nothing left to close if it was due when published. */
  predicate Served(d: Desk, e: Entry, due: bool) {
    e.id !in d.shelf.pending && (due ==> WasDue(d.now, e) && !Due(d.now, e.payload.value))
  }

  lemma AckedOnlyShrinks(s: Shelf, id: nat)
    ensures Acked(s, id).pending.Keys <= s.pending.Keys
    ensures Next(s.ahead).fault != Fails ==> id !in Acked(s, id).pending
  {
    hide Waited;
    WaitingOnlyLoses(s);
  }

  lemma HandlingOnlyShrinks(d: Desk, e: Entry)
    requires WellFormed(d.now)
    ensures Handled(d, e).shelf.pending.Keys <= d.shelf.pending.Keys
    ensures WellFormed(Handled(d, e).now) && Advances(d.now, Handled(d, e).now)
  {
    hide Waited, Acked, Try, WellFormed, Advances;
    WaitingOnlyLoses(d.shelf);
    AckedOnlyShrinks(d.shelf, e.id);
    AckedOnlyShrinks(Waited(d.shelf), e.id);
    AdvancesIsReflexive(d.now);
    if e.payload.Some? {
      TryAdvances(d.now, d.moves, e.payload.value);
    }
  }

  /** An entry whose own commands and statements run is served by its handling. */
  lemma OwnRunServes(d: Desk, e: Entry)
    requires WellFormed(d.now) && OwnRun(d, e)
    ensures Served(Handled(d, e), e, WasDue(d.now, e))
  {
    hide Waited, Acked, Try, WellFormed, Advances, Ripe, Due, Settles;
    AckedOnlyShrinks(d.shelf, e.id);
    AckedOnlyShrinks(Waited(d.shelf), e.id);
    WaitingTakesOne(d.shelf);
    if e.payload.Some? {
      AnAttemptComesToAResultIff(d.now, d.moves, e.payload.value);
    }
  }

  /** And no other leaves the list, unless the weather takes it. */
  lemma OnlyOwnRunServes(d: Desk, e: Entry, id: nat)
    requires WellFormed(d.now) && id in Waited(Waited(d.shelf)).pending
    ensures id in Handled(d, e).shelf.pending <==> id != e.id || !OwnRun(d, e)
  {
    hide NotTrimmed, Stamped, Try, WellFormed, Settles;
    if e.payload.Some? {
      AnAttemptComesToAResultIff(d.now, d.moves, e.payload.value);
    }
  }

  lemma WaitingTakesOne(s: Shelf)
    ensures Waited(s).ahead == Rest(s.ahead)
  {
  }

  /** And stays served while the others are handled. */
  lemma StaysServed(d: Desk, e: Entry, due: bool, other: Entry)
    requires WellFormed(d.now) && Served(d, e, due)
    ensures Served(Handled(d, other), e, due)
  {
    hide Handled, WellFormed, Advances, Ripe, Due;
    HandlingOnlyShrinks(d, other);
    if due {
      DueStaysRipe(d.now, Handled(d, other).now, e.payload.value);
      DoneIsFinal(d.now, Handled(d, other).now, e.payload.value);
    }
  }

  lemma {:induction false} AllAdvance(d: Desk, entries: seq<Entry>)
    requires WellFormed(d.now)
    ensures WellFormed(HandledAll(d, entries).now) && Advances(d.now, HandledAll(d, entries).now)
    decreases |entries|
  {
    hide Handled, WellFormed, Advances;
    AdvancesIsReflexive(d.now);
    if entries != [] {
      var before := HandledAll(d, entries[..|entries| - 1]);
      AllAdvance(d, entries[..|entries| - 1]);
      HandlingOnlyShrinks(before, entries[|entries| - 1]);
      AdvancesIsTransitive(d.now, before.now, HandledAll(d, entries).now);
    }
  }

  lemma AllSnoc(d: Desk, entries: seq<Entry>, i: nat)
    requires i < |entries|
    ensures HandledAll(d, entries[..i + 1]) == Handled(HandledAll(d, entries[..i]), entries[i])
    ensures HandledAll(d, entries[..0]) == d
  {
    assert entries[..i + 1][..i] == entries[..i];
  }

  /** Of the entries in hand each is tried, whatever became of those before it: where its
      own commands and statements do their work, it is off the pending list from then on,
      and there is never anything to close again if it was due when published. */
  lemma {:induction false} EachIsTried(d: Desk, entries: seq<Entry>, i: nat, n: nat)
    requires i < n <= |entries| && WellFormed(d.now)
    requires OwnRun(HandledAll(d, entries[..i]), entries[i])
    ensures Served(HandledAll(d, entries[..n]), entries[i], WasDue(d.now, entries[i]))
    decreases n
  {
    hide Handled, HandledAll, WellFormed, Advances, Ripe, OwnRun, Due;
    AllSnoc(d, entries, n - 1);
    AllAdvance(d, entries[..n - 1]);
    if i == n - 1 {
      if WasDue(d.now, entries[i]) {
        DueStaysRipe(d.now, HandledAll(d, entries[..i]).now, entries[i].payload.value);
      }
      OwnRunServes(HandledAll(d, entries[..i]), entries[i]);
    } else {
      EachIsTried(d, entries, i, n - 1);
      StaysServed(HandledAll(d, entries[..n - 1]), entries[i], WasDue(d.now, entries[i]), entries[n - 1]);
    }
  }

  /** Nothing fails and nobody else acts. */
  predicate Quiet(d: Desk) {
    d.shelf.ahead == [] && d.moves == [] && d.shelf.group
  }

  lemma QuietHandled(d: Desk, e: Entry)
    requires Quiet(d)
    ensures Handled(d, e) == d.(
              shelf := d.shelf.(pending := d.shelf.pending - {e.id}), now := CloseOne(d.now, e.payload))
  {
    hide Waited;
    WaitedInTheCalm(d.shelf);
    if e.payload.Some? {
      var a := e.payload.value;
      NothingMoves(d.now);
      NothingDue(d.now, a, 0);
    }
  }

  lemma {:induction false} QuietHandledAll(d: Desk, entries: seq<Entry>)
    requires Quiet(d)
    ensures HandledAll(d, entries) == d.(
              shelf := d.shelf.(pending := d.shelf.pending - Ids(entries)), now := CloseAll(d.now, entries))
    decreases |entries|
  {
    hide Handled, Ids;
    if entries == [] {
      IdsSnoc(entries);
      assert d.shelf.pending - {} == d.shelf.pending;
    } else {
      var front, last := entries[..|entries| - 1], entries[|entries| - 1];
      QuietHandledAll(d, front);
      QuietHandled(HandledAll(d, front), last);
      IdsSnoc(entries);
      assert d.shelf.pending - Ids(front) - {last.id} == d.shelf.pending - (Ids(front) + {last.id});
    }
  }

  /** In the calm a claim returns nothing and a read the first of the backlog. */
  lemma QuietTurn(d: Desk)
    requires Quiet(d)
    ensures Waited(d.shelf) == d.shelf && Next(d.shelf.ahead) == CALM
    ensures FirstIdle(Next(d.shelf.ahead).idle, d.shelf.pending, READ_COUNT) == []
    ensures ToRead(d.shelf) == FirstRead(d.shelf.backlog)
  {
    WaitedInTheCalm(d.shelf);
  }

  lemma IdsSnoc(entries: seq<Entry>)
    ensures Ids(entries) == if entries == [] then {} else Ids(entries[..|entries| - 1]) + {entries[|entries| - 1].id}
  {
  }

  /** The entries that one turn took in hand, claimed or new, the worker's two servers as
      they then were, and how many checks of the context were left. */
  datatype Round = Round(entries: seq<Entry>, desk: Desk, left: nat) {
    function Tried(): (n: nat)
      ensures n <= |entries|
    {
      if |entries| <= left then |entries| else left
    }

    /** Checks of the context left after it. */
    function LeftAfter(): nat {
      if |entries| < left then left - 1 - |entries| else 0
    }

    function End(): Desk {
      HandledAll(desk, entries[..Tried()])
    }
  }

  /** What a claim takes in hand: the entries that have been idle, the first of them. */
  function ClaimOf(d: Desk, left: nat): Round {
    var w := Waited(d.shelf);
    Round(FirstIdle(Next(d.shelf.ahead).idle, w.pending, READ_COUNT), d.(shelf := w), left)
  }

  /** The claim runs, is heard, and finds something idle. */
  predicate BeginsWithAClaim(d: Desk, left: nat) {
    && left > 0 && Next(d.shelf.ahead).fault == Runs && Waited(d.shelf).group
    && exists id :: id in Next(d.shelf.ahead).idle && id in Waited(d.shelf).pending
  }

  /** What a read takes in hand. */
  ghost function NewRounds(d: Desk, left: nat): seq<Round> {
    if left == 0 || Next(d.shelf.ahead).fault != Runs || !Waited(d.shelf).group then []
    else [Round(ToRead(d.shelf), d.(shelf := AfterRead(d.shelf)), left)]
  }

  /** The claim of a turn fails, goes unheard, or finds the context over. */
  predicate ClaimFails(d: Desk, left: nat) {
    left == 0 || Next(d.shelf.ahead).fault != Runs || !Waited(d.shelf).group
  }

  ghost function TurnRounds(d: Desk, left: nat): seq<Round> {
    if ClaimFails(d, left) then []
    else if BeginsWithAClaim(d, left) then [ClaimOf(d, left)]
    else NewRounds(d.(shelf := Waited(d.shelf)), left - 1)
  }

  ghost function TurnEnd(d: Desk, left: nat): Desk {
    var claim := d.(shelf := Waited(d.shelf));
    if TurnRounds(d, left) != [] then TurnRounds(d, left)[0].End()
    else if ClaimFails(d, left) then claim
    else claim.(shelf := AfterRead(claim.shelf))
  }

  /** The checks of the context left after a turn that did not end inside. */
  ghost function TurnLeft(d: Desk, left: nat): (n: nat)
    ensures n <= left
  {
    if TurnRounds(d, left) != [] then TurnRounds(d, left)[0].LeftAfter()
    else if left == 0 then 0
    else if ClaimFails(d, left) || left == 1 then left - 1
    else left - 2
  }

  /** Where each turn of the loop begins, and how many checks of the context it has. */
  ghost function Turns(d: Desk, left: nat): seq<(Desk, nat)>
    decreases left
  {
    if left == 0 then [] else [(d, left - 1)] + Turns(TurnEnd(d, left - 1), TurnLeft(d, left - 1))
  }

  ghost function RunEnd(d: Desk, left: nat): Desk
    decreases left
  {
    if left == 0 then d else RunEnd(TurnEnd(d, left - 1), TurnLeft(d, left - 1))
  }

  /** What a run takes in hand: at every turn what has been idle, else what is new. */
  ghost function AllRounds(turns: seq<(Desk, nat)>): seq<Round> {
    if turns == [] then [] else TurnRounds(turns[0].0, turns[0].1) + AllRounds(turns[1..])
  }

  lemma NextTurns(d: Desk, left: nat)
    ensures AllRounds(Turns(d, left + 1))
            == TurnRounds(d, left) + AllRounds(Turns(TurnEnd(d, left), TurnLeft(d, left)))
    ensures RunEnd(d, left + 1) == RunEnd(TurnEnd(d, left), TurnLeft(d, left))
  {
    hide TurnRounds, TurnEnd, TurnLeft;
    var later := Turns(TurnEnd(d, left), TurnLeft(d, left));
    assert ([(d, left)] + later)[1..] == later;
  }

  lemma NoTurns(d: Desk)
    ensures AllRounds(Turns(d, 0)) == [] && RunEnd(d, 0) == d
  {
  }

  /** Whatever has been idle when a claim runs is taken in hand by that turn, if it is among
      the first 64. */
  lemma {:induction false} EveryIdleEntryIsInHand(turns: seq<(Desk, nat)>, t: nat, i: nat)
    requires t < |turns| && turns[t].1 > 0
    requires var s := turns[t].0.shelf;
             && Next(s.ahead).fault == Runs && Waited(s).group
             && i < |Next(s.ahead).idle| && i < 64 && Next(s.ahead).idle[i] in Waited(s).pending
    ensures var s := turns[t].0.shelf;
            var id := Next(s.ahead).idle[i];
            exists r :: r in AllRounds(turns) && Entry(id, Waited(s).pending[id]) in r.entries
                        && r == Round(r.entries, turns[t].0.(shelf := Waited(s)), turns[t].1)
    decreases t
  {
    hide Waited, TurnEnd, TurnLeft, NewRounds, FirstIdle;
    if t > 0 {
      EveryIdleEntryIsInHand(turns[1..], t - 1, i);
    } else {
      var d := turns[0].0;
      FirstIdleIsComplete(Next(d.shelf.ahead).idle, Waited(d.shelf).pending, READ_COUNT, i);
      assert ClaimOf(d, turns[0].1) in TurnRounds(d, turns[0].1);
    }
  }

  /** And where nothing has been idle, each of the first 64 that the read finds. */
  lemma {:induction false} EveryNewEntryIsInHand(turns: seq<(Desk, nat)>, t: nat, i: nat)
    requires t < |turns| && turns[t].1 > 1
    requires var s := turns[t].0.shelf;
             var s1 := Waited(s);
             && Next(s.ahead).fault == Runs && s1.group
             && (forall id :: id in Next(s.ahead).idle ==> id !in s1.pending)
             && Next(s1.ahead).fault == Runs && Waited(s1).group
             && i < |Waited(s1).backlog| && i < 64
    ensures var s := turns[t].0.shelf;
            exists r :: r in AllRounds(turns) && Waited(Waited(s)).backlog[i] in r.entries
                        && r.desk.now == turns[t].0.now && r.left == turns[t].1 - 1
    decreases t
  {
    hide Waited, TurnEnd, TurnLeft, AfterRead;
    if t > 0 {
      EveryNewEntryIsInHand(turns[1..], t - 1, i);
    } else {
      var d, left := turns[0].0, turns[0].1;
      var claim := d.(shelf := Waited(d.shelf));
      assert ToRead(claim.shelf)[i] == Waited(claim.shelf).backlog[i];
      assert NewRounds(claim, left - 1)[0] in TurnRounds(d, left);
    }
  }

  /** In the calm: so many entries taken, the first of them tried in order, and the next of
      them still pending. */
  ghost predicate InOrder(d0: Desk, d: Desk, taken: nat, done: nat) {
    && Quiet(d) && done <= taken <= |d0.shelf.backlog| && d.shelf.backlog == d0.shelf.backlog[taken..]
    && d.now == CloseAll(d0.now, d0.shelf.backlog[..done])
    && (done < taken ==> d0.shelf.backlog[done].id in d.shelf.pending)
  }

  lemma NothingTaken(d: Desk)
    ensures Quiet(d) ==> InOrder(d, d, 0, 0)
  {
    CloseNone(d.now, d.shelf.backlog);
  }

  predicate Delivered(c: Custody, e: Entry) {
    e.id in c.delivered && c.delivered[e.id] == e.payload
  }

  /** What is promised of a round: each entry it came to, and whose own commands and
      statements did their work, is off the pending list, and its auction is not due if it
      was when published. */
  ghost predicate Kept(r: Round, c: Custody, d: Desk) {
    forall i :: 0 <= i < r.Tried() && OwnRun(HandledAll(r.desk, r.entries[..i]), r.entries[i]) ==>
      Delivered(c, r.entries[i]) && Served(d, r.entries[i], WasDue(r.desk.now, r.entries[i]))
  }

  /** And so of all the rounds from the k-th on, which are full but for a last one cut short. */
  ghost predicate AllKept(rounds: seq<Round>, k: nat, cut: bool, c: Custody, d: Desk) {
    forall i :: k <= i < |rounds| ==>
      Kept(rounds[i], c, d) && (rounds[i].Tried() == |rounds[i].entries| || (cut && i == |rounds| - 1))
  }

  lemma NothingKept(rounds: seq<Round>, cut: bool, c: Custody, d: Desk)
    ensures AllKept(rounds, |rounds|, cut, c, d)
  {
  }

  /** It stays so, whatever else happens. */
  lemma StillKept(r: Round, c: Custody, d: Desk, c': Custody, d': Desk)
    requires Partitioned(c) && Partitioned(c') && Onward(c, c') && Kept(r, c, d)
    requires c.pending == d.shelf.pending && c'.pending == d'.shelf.pending
    requires WellFormed(d.now) && Advances(d.now, d'.now)
    ensures Kept(r, c', d')
  {
    hide HandledAll, OwnRun, Ripe, Due, Advances, WellFormed, Partitioned, Onward;
    forall i | 0 <= i < r.Tried() && OwnRun(HandledAll(r.desk, r.entries[..i]), r.entries[i])
      ensures Delivered(c', r.entries[i]) && Served(d', r.entries[i], WasDue(r.desk.now, r.entries[i]))
    {
      var e := r.entries[i];
      StaysOff(c, c', e.id);
      OnwardAbout(c, c', e.id);
      if WasDue(r.desk.now, e) {
        DueStaysRipe(d.now, d'.now, e.payload.value);
        DoneIsFinal(d.now, d'.now, e.payload.value);
      }
    }
  }

  class Consumer {
    const rdb: Stream
    const worker: Materializer
    var claims: nat
    var dead: nat
    ghost var rounds: seq<Round>

    constructor (rdb: Stream, worker: Materializer)
      ensures this.rdb == rdb && this.worker == worker && claims == 0 && dead == 0 && rounds == []
    {
      this.rdb, this.worker, claims, dead, rounds := rdb, worker, 0, 0, [];
    }

    ghost predicate Valid()
      reads rdb, worker, worker.db
    {
      rdb.Valid() && worker.Valid()
    }

    ghost predicate Known(msg: Entry)
      reads rdb
    {
      Delivered(rdb.books, msg)
    }

    function Here(): Desk
      reads rdb, worker, worker.db
    {
      Desk(rdb.Here(), worker.db.now, worker.db.ahead)
    }

    method Bury(msg: Entry)
      requires Valid() && Known(msg) && msg.payload.None?
      modifies rdb, this`dead
      ensures Valid() && Onward(old(rdb.books), rdb.books) && old(rdb.history) <= rdb.history
      ensures rdb.books.handled == old(rdb.books.handled)
      ensures Here() == Handled(old(Here()), msg)
      ensures dead == old(dead)
                      + if Next(old(rdb.ahead)).fault == Next(Rest(old(rdb.ahead))).fault == Runs then 1 else 0
    {
      hide Onward, Waited, Acked, Partitioned, Queued, AllPartitioned;
      WaitingTakesOne(rdb.Here());
      var err := rdb.Inter(msg.id);
      OnwardAbout(old(rdb.books), rdb.books, msg.id);
      if err {
        return;
      }
      ghost var middle := rdb.books;
      err := rdb.XAck(msg.id, None);
      OnwardIsTransitive(old(rdb.books), middle, rdb.books);
      if err {
        return;
      }
      dead := dead + 1;
    }

    /** An entry is acknowledged by its own handling or not at all, and only when the
        closing attempt returned a result. */
    method Handle(msg: Entry)
      requires Valid() && Known(msg)
      modifies rdb, worker, worker.db, this`dead
      ensures Valid() && Onward(old(rdb.books), rdb.books) && old(rdb.history) <= rdb.history
      ensures Advances(old(worker.db.now), worker.db.now)
      ensures rdb.books.handled == old(rdb.books.handled)
              || rdb.books.handled == old(rdb.books.handled)[msg.id := worker.db.now]
      ensures Here() == Handled(old(Here()), msg)
      ensures dead == old(dead)
                      + if msg.payload.None? && Next(old(rdb.ahead)).fault == Next(Rest(old(rdb.ahead))).fault == Runs
                        then 1 else 0
    {
      hide Onward, Advances, Waited, Acked, Try, Partitioned, Queued, AllPartitioned, WellFormed;
      AdvancesIsReflexive(worker.db.now);
      OnwardIsReflexive(rdb.books);
      if msg.payload.None? {
        Bury(msg);
        return;
      }
      var r := worker.Close(msg.payload.value);
      if r.None? {
        return;
      }
      var _ := rdb.XAck(msg.id, Some(worker.db.now));
    }

    /** One by one, in order, stopping between messages once told to end; what becomes of
        one does not stop the next. */
    method Process(ctx: Context, msgs: seq<Entry>) returns (ghost done: nat)
      requires Valid() && forall i :: 0 <= i < |msgs| ==> Known(msgs[i])
      modifies rdb, worker, worker.db, this`dead, ctx
      ensures Valid() && Onward(old(rdb.books), rdb.books) && old(rdb.history) <= rdb.history
      ensures Advances(old(worker.db.now), worker.db.now)
      ensures done == if |msgs| <= old(ctx.left) then |msgs| else old(ctx.left) + 1
      ensures ctx.left == if done <= old(ctx.left) then old(ctx.left) - done else 0
      ensures Here() == HandledAll(old(Here()), msgs[..done])
    {
      hide Onward, Advances, Partitioned, Queued, AllPartitioned, WellFormed, Handled;
      AdvancesIsReflexive(worker.db.now);
      OnwardIsReflexive(rdb.books);
      done := 0;
      for i := 0 to |msgs|
        invariant done == i <= old(ctx.left) && ctx.left == old(ctx.left) - i
        invariant Valid() && Onward(old(rdb.books), rdb.books) && old(rdb.history) <= rdb.history
        invariant Advances(old(worker.db.now), worker.db.now)
        invariant Here() == HandledAll(old(Here()), msgs[..i])
      {
        OnwardAbout(old(rdb.books), rdb.books, msgs[i].id);
        AllSnoc(old(Here()), msgs, i);
        ghost var books, now := rdb.books, worker.db.now;
        Handle(msgs[i]);
        OnwardIsTransitive(old(rdb.books), books, rdb.books);
        AdvancesIsTransitive(old(worker.db.now), now, worker.db.now);
        done := i + 1;
        var ended := ctx.Ended();
        if ended {
          return;
        }
      }
    }

    /** The round is over: its entries were tried in order, as many as the context let. */
    ghost predicate Finished(r: Round, left: nat)
      reads rdb, worker, worker.db
    {
      && Here() == r.End() && WellFormed(r.desk.now)
      && left == (if |r.entries| < r.left then r.left - 1 - |r.entries| else 0)
      && forall e :: e in r.entries ==> Known(e)
    }

    /** The outcome of a read: the entries it heard of are in hand and then handled, and a
        read that fails, is not heard or finds the context over takes nothing in hand. */
    ghost predicate TookNew(d: Desk, left: nat, before: seq<Round>, left': nat)
      reads this, rdb, worker, worker.db
    {
      && Distinct(ToRead(d.shelf))
      && var read := d.(shelf := AfterRead(d.shelf));
      if left == 0 || Next(d.shelf.ahead).fault != Runs || !Waited(d.shelf).group then
        rounds == before && Here() == read && left' == if left == 0 then 0 else left - 1
      else
        rounds == before + [Round(ToRead(d.shelf), read, left)] && Finished(rounds[|before|], left')
    }

    /** A read, and the entries it returned handled. A read that fails, or whose answer is
        lost, takes nothing in hand. */
    method ReadNew(ctx: Context) returns (stop: bool)
      requires Valid()
      modifies rdb, worker, worker.db, this`dead, this`rounds, ctx
      ensures Valid() && Onward(old(rdb.books), rdb.books) && old(rdb.history) <= rdb.history
      ensures Advances(old(worker.db.now), worker.db.now)
      ensures ctx.left <= old(ctx.left) && (stop <==> old(ctx.left) == 0)
      ensures TookNew(old(Here()), old(ctx.left), old(rounds), ctx.left)
    {
      hide Onward, Advances, Partitioned, Queued, WellFormed, AllPartitioned, Payloads, Waited, HandledAll, Distinct;
      AdvancesIsReflexive(worker.db.now);
      WaitingTakesOne(rdb.Here());
      ghost var d, left := Here(), ctx.left;
      var err, entries := rdb.XReadGroup();
      stop := ctx.Ended();
      PendingIsKnown(rdb.books, entries);
      if stop || err {
        return;
      }
      ghost var books := rdb.books;
      rounds := rounds + [Round(entries, Here(), left)];
      ghost var done := Process(ctx, entries);
      OnwardIsTransitive(old(rdb.books), books, rdb.books);
      HandDelivered(books, rdb.books, entries);
    }

    /** The outcome of a turn. */
    ghost predicate Turned(d: Desk, left: nat, before: seq<Round>, left': nat, stop: bool)
      reads this, rdb, worker, worker.db
    {
      var v, claim := Next(d.shelf.ahead), d.(shelf := Waited(d.shelf));
      if left == 0 || v.fault != Runs || !claim.shelf.group then
        rounds == before && Here() == claim && (stop <==> left == 0) && left' == if stop then 0 else left - 1
      else if BeginsWithAClaim(d, left) then
        !stop && rounds == before + [ClaimOf(d, left)] && Finished(rounds[|before|], left')
      else
        TookNew(claim, left - 1, before, left') && (stop <==> left == 1)
    }

    /** One turn: recovery first, then a read. A claim that returns entries takes them, and
        only them, in hand. stop means the context ended inside. */
    method Turn(ctx: Context) returns (stop: bool)
      requires Valid()
      modifies rdb, worker, worker.db, this, ctx
      ensures Valid() && Onward(old(rdb.books), rdb.books) && old(rdb.history) <= rdb.history
      ensures Advances(old(worker.db.now), worker.db.now)
      ensures stop || ctx.left < old(ctx.left)
      ensures Turned(old(Here()), old(ctx.left), old(rounds), ctx.left, stop)
      ensures claims == old(claims)
                        + if BeginsWithAClaim(old(Here()), old(ctx.left)) then |rounds[|old(rounds)|].entries| else 0
    {
      hide Onward, Advances, Partitioned, Queued, WellFormed, AllPartitioned, HandledAll, Waited, TookNew, FirstIdle;
      AdvancesIsReflexive(worker.db.now);
      ghost var left := ctx.left;
      var err, claimed := rdb.XAutoClaim();
      stop := ctx.Ended();
      if stop || err {
        // after an error, c.pause
        return;
      }
      ghost var books, d := rdb.books, Here();
      NothingIdle(Next(old(rdb.ahead)).idle, rdb.pending, READ_COUNT);
      if claimed != [] {
        claims := claims + |claimed|;
        rounds := rounds + [Round(claimed, d, left)];
        PendingIsKnown(rdb.books, claimed);
        ghost var _ := Process(ctx, claimed);
        HandDelivered(books, rdb.books, claimed);
      } else {
        stop := ReadNew(ctx);
      }
      OnwardIsTransitive(old(rdb.books), books, rdb.books);
    }

    /** Its outcome in the calm. */
    lemma QuietOutcome(d: Desk, left: nat, before: seq<Round>, left': nat) returns (taken: nat, done: nat)
      requires Quiet(d) && TookNew(d, left, before, left')
      ensures Quiet(Here()) && done <= taken <= |d.shelf.backlog| && rdb.backlog == d.shelf.backlog[taken..]
      ensures worker.db.now == CloseAll(d.now, d.shelf.backlog[..done])
      ensures done < taken ==> left' == 0 && d.shelf.backlog[done].id in rdb.pending
      ensures left <= left' + 1 + done && (left' == 0 || done == |FirstRead(d.shelf.backlog)|)
    {
      hide CloseAll, Finished, HandledAll, Waited, Payloads;
      QuietTurn(d);
      var read := d.(shelf := AfterRead(d.shelf));
      var entries := ToRead(d.shelf);
      taken, done := |entries|, 0;
      CloseNone(d.now, d.shelf.backlog);
      ReadArePending(d.shelf.pending, entries);
      if left > 0 {
        var r := Round(entries, read, left);
        done := r.Tried();
        QuietHandledAll(read, entries[..done]);
        IsFinished(r, left');
        assert entries[..done] == d.shelf.backlog[..done];
        if done < taken {
          StillPending(read.shelf.pending, entries, done);
        }
      }
    }

    lemma IsFinished(r: Round, left: nat)
      requires Finished(r, left)
      ensures Here() == r.End() && WellFormed(r.desk.now)
      ensures left == if |r.entries| < r.left then r.left - 1 - |r.entries| else 0
    {
    }

    lemma FinishedIsKept(r: Round, left: nat)
      requires Finished(r, left)
      ensures Kept(r, rdb.books, Here())
    {
      hide HandledAll, OwnRun, Served, WasDue, WellFormed;
      forall i | 0 <= i < r.Tried() && OwnRun(HandledAll(r.desk, r.entries[..i]), r.entries[i])
        ensures Delivered(rdb.books, r.entries[i]) && Served(Here(), r.entries[i], WasDue(r.desk.now, r.entries[i]))
      {
        EachIsTried(r.desk, r.entries, i, r.Tried());
        assert r.entries[i] in r.entries;
      }
    }

    lemma TurnIsKept(d: Desk, left: nat, before: seq<Round>, left': nat, stop: bool)
      requires Turned(d, left, before, left', stop)
      ensures before <= rounds && |rounds| <= |before| + 1 && (stop ==> left' == 0)
      ensures |rounds| > |before| ==>
                Kept(rounds[|before|], rdb.books, Here())
                && (rounds[|before|].Tried() == |rounds[|before|].entries| || left' == 0)
      ensures rounds == before + TurnRounds(d, left) && Here() == TurnEnd(d, left) && left' == TurnLeft(d, left)
    {
      hide Kept, Waited, HandledAll, FirstIdle, Distinct, Payloads;
      if |rounds| > |before| {
        FinishedIsKept(rounds[|before|], left');
        IsFinished(rounds[|before|], left');
      }
    }

    /** One turn in the calm. */
    lemma QuietStep(d0: Desk, done0: nat, d: Desk, left: nat, before: seq<Round>, left': nat, stop: bool)
      returns (taken: nat, done: nat)
      requires InOrder(d0, d, done0, done0) && Turned(d, left, before, left', stop)
      ensures done0 <= done <= taken <= |d0.shelf.backlog| && InOrder(d0, Here(), taken, done)
      ensures done < taken ==> left' == 0
      ensures left <= left' + 2 + done - done0 && (left' == 0 || done > done0 || done == |d0.shelf.backlog|)
    {
      hide CloseAll, Waited, TookNew, Finished, FirstRead;
      QuietTurn(d);
      CloseNone(d.now, d.shelf.backlog);
      taken, done := 0, 0;
      if left > 0 {
        taken, done := QuietOutcome(d, left - 1, before, left');
      }
      CloseAllSplit(d0.now, d0.shelf.backlog, done0, done);
      AllReadIffNothingLeft(d0.shelf.backlog, done0);
      taken, done := done0 + taken, done0 + done;
    }

    lemma NextKept(d: Desk, c: Custody, k: nat, before: seq<Round>, left: nat, left': nat, stop: bool)
      requires Valid() && Partitioned(c) && c.pending == d.shelf.pending && WellFormed(d.now)
      requires k <= |before| && AllKept(before, k, false, c, d)
      requires Onward(c, rdb.books) && Advances(d.now, worker.db.now) && Turned(d, left, before, left', stop)
      ensures before <= rounds && (stop ==> left' == 0) && AllKept(rounds, k, left' == 0, rdb.books, Here())
      ensures rounds == before + TurnRounds(d, left) && Here() == TurnEnd(d, left) && left' == TurnLeft(d, left)
    {
      hide Onward, Advances, Partitioned, Queued, AllPartitioned, WellFormed, Kept, Turned, TurnRounds, TurnEnd,
           TurnLeft;
      forall i | k <= i < |before| ensures Kept(before[i], rdb.books, Here()) {
        StillKept(before[i], c, d, rdb.books, Here());
      }
      TurnIsKept(d, left, before, left', stop);
    }

    /** The loop, until the context ends. At every command of every run each delivered
        entry is in exactly one place, whatever failed and wherever a kill would cut. What
        a turn took in hand, idle entries before new ones, it tried in order, all of it
        unless the context ended first; and each of those whose own commands and statements
        did their work is off the pending list for good, with nothing ever to close again if
        it was due when published. With nothing
        failing, what left the backlog was tried in order up to the entry at which the
        context ended, and that one is still pending; a context that lasts long enough sees
        all of it done. */
    method Run(ctx: Context) returns (ghost taken: nat, ghost done: nat)
      requires Valid()
      modifies rdb, worker, worker.db, this, ctx
      ensures Valid() && AllPartitioned(rdb.history) && old(rdb.history) <= rdb.history
      ensures Onward(old(rdb.books), rdb.books) && Advances(old(worker.db.now), worker.db.now)
      ensures old(rounds) <= rounds
      ensures AllKept(rounds, |old(rounds)|, true, rdb.books, Here())
      ensures rounds == old(rounds) + AllRounds(Turns(old(Here()), old(ctx.left)))
      ensures Here() == RunEnd(old(Here()), old(ctx.left))
      ensures old(Quiet(Here())) ==>
                && InOrder(old(Here()), Here(), taken, done)
                && (done < taken ==> old(rdb.backlog)[done].id !in old(rdb.pending))
                && (4 * (|old(rdb.backlog)| + 1) <= old(ctx.left) ==> done == |old(rdb.backlog)|)
    {
      hide Onward, Advances, Partitioned, Queued, WellFormed, AllPartitioned, AllKept, Turned, InOrder, Quiet,
           TurnRounds, TurnEnd, TurnLeft, Turns, RunEnd, AllRounds;
      taken, done := 0, 0;
      ghost var d0, quiet := Here(), Quiet(Here());
      ghost var all := rounds + AllRounds(Turns(d0, ctx.left));
      ghost var end := RunEnd(d0, ctx.left);
      AdvancesIsReflexive(worker.db.now);
      OnwardIsReflexive(rdb.books);
      NothingTaken(d0);
      var stop := ctx.Ended();
      NothingKept(rounds, stop, rdb.books, d0);
      while !stop
        invariant Valid() && Onward(old(rdb.books), rdb.books) && old(rdb.history) <= rdb.history
        invariant Advances(d0.now, worker.db.now) && old(rounds) <= rounds && (stop ==> ctx.left == 0)
        invariant AllKept(rounds, |old(rounds)|, stop, rdb.books, Here())
        invariant rounds + AllRounds(Turns(Here(), if stop then 0 else ctx.left + 1)) == all
        invariant RunEnd(Here(), if stop then 0 else ctx.left + 1) == end
        invariant done <= taken && (done < taken ==> stop)
        invariant quiet ==>
                    && InOrder(d0, Here(), taken, done)
                    && (done == |d0.shelf.backlog| || old(ctx.left) <= ctx.left + 4 * done + if stop then 3 else 1)
        decreases ctx.left, !stop
      {
        ghost var books, d, left, before := rdb.books, Here(), ctx.left, rounds;
        NextTurns(d, left);
        stop := Turn(ctx);
        OnwardIsTransitive(old(rdb.books), books, rdb.books);
        AdvancesIsTransitive(d0.now, d.now, worker.db.now);
        NextKept(d, books, |old(rounds)|, before, left, ctx.left, stop);
        if quiet {
          taken, done := QuietStep(d0, done, d, left, before, ctx.left, stop);
        }
        if !stop {
          stop := ctx.Ended();
        }
      }
      NoTurns(Here());
      if quiet {
        InOrderHolds(d0, Here(), taken, done);
        QueueIsNotPending(old(rdb.books), d0.shelf.backlog, d0.shelf.nextId);
      }
    }
  }

  lemma InOrderHolds(d0: Desk, d: Desk, taken: nat, done: nat)
    requires InOrder(d0, d, taken, done)
    ensures done <= taken <= |d0.shelf.backlog|
  {
  }

  lemma StillPending(pending: map<nat, Option<Uuid>>, entries: seq<Entry>, k: nat)
    requires Distinct(entries) && k < |entries| && entries[k].id in pending
    ensures entries[k].id in pending - Ids(entries[..k])
  {
  }

  lemma QueueIsNotPending(c: Custody, backlog: seq<Entry>, nextId: nat)
    requires Partitioned(c) && Queued(c, backlog, nextId)
    ensures forall i :: 0 <= i < |backlog| ==> backlog[i].id !in c.pending
  {
    forall i | 0 <= i < |backlog| ensures backlog[i].id !in c.pending {
      assert backlog[i].id in Ids(backlog);
    }
  }

  lemma HandDelivered(c: Custody, c': Custody, entries: seq<Entry>)
    requires Partitioned(c) && Onward(c, c')
    requires forall e :: e in entries ==> e.id in c.pending && c.pending[e.id] == e.payload
    ensures forall e :: e in entries ==> e.id in c'.delivered && c'.delivered[e.id] == e.payload
  {
  }

  /** A delivered entry that is off the pending list does not come back to it. */
  lemma StaysOff(c: Custody, c': Custody, id: nat)
    requires Partitioned(c) && Partitioned(c') && Onward(c, c') && id in c.delivered && id !in c.pending
    ensures id in c'.delivered && id !in c'.pending
  {
  }

  /** Off the list is closed with nothing due behind it, or buried, unless the stream was
      trimmed or flushed before that. */
  lemma WhereAServedEntryIs(c: Custody, e: Entry)
    requires Partitioned(c) && e.id in c.delivered && c.delivered[e.id] == e.payload && e.id !in c.pending
    ensures e.id !in c.lost && e.payload.None? ==> e.id in c.buried && e.id in c.interred
    ensures e.id !in c.lost && e.payload.Some? ==> e.id in c.handled && !Due(c.handled[e.id], e.payload.value)
  {
    assert e.id in c.pending.Keys + c.handled.Keys + c.buried + c.lost;
  }

  lemma ReadArePending(pending: map<nat, Option<Uuid>>, entries: seq<Entry>)
    requires Distinct(entries)
    ensures forall i :: 0 <= i < |entries| ==> entries[i].id in pending + Payloads(entries)
  {
  }

  lemma PendingIsKnown(c: Custody, entries: seq<Entry>)
    requires Partitioned(c)
    requires forall e :: e in entries ==> e.id in c.pending && c.pending[e.id] == e.payload
    ensures forall i :: 0 <= i < |entries| ==>
              entries[i].id in c.delivered && c.delivered[entries[i].id] == entries[i].payload
  {
    forall i | 0 <= i < |entries|
      ensures entries[i].id in c.delivered && c.delivered[entries[i].id] == entries[i].payload
    {
      assert entries[i] in entries;
    }
  }
}
