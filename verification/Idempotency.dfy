/** The Redis entry of one logical bid: the atomic claim script, the three
    separate commands of the finish, two expiries, and any interleaving of the
    requests that carry the key. */
module Idempotency {
  import opened Contract

  const IN_FLIGHT_TTL: nat := 30_000
  const TERMINAL_TTL: nat := 300_000

  /** The hash: attempts, busy, done, and the deadline Redis keeps for it. */
  datatype Entry<Body> = Entry(attempts: nat, busy: bool, done: Option<Body>, deadline: Option<Time>)

  datatype Verdict<Body> = Pass(attempts: nat) | Replay(body: Body) | Busy

  type Entries<Body> = map<Key, Entry<Body>>

  function Lookup<Body>(entries: Entries<Body>, key: Key): Entry<Body> {
    if key in entries then entries[key] else Entry(0, false, None, None)
  }

  /** The script: replay, busy, or count the attempt and take the mark. */
  function ClaimOn<Body>(entries: Entries<Body>, key: Key, now: Time): (Entries<Body>, Verdict<Body>) {
    var e := Lookup(entries, key);
    if e.done.Some? then (entries, Replay(e.done.value))
    else if e.busy then (entries, Busy)
    else (entries[key := Entry(e.attempts + 1, true, None, Some(now + IN_FLIGHT_TTL))], Pass(e.attempts + 1))
  }

  /** HSET done: on a key that is gone it makes a new hash, without a deadline. */
  function SetDone<Body>(entries: Entries<Body>, key: Key, body: Body): Entries<Body> {
    entries[key := Lookup(entries, key).(done := Some(body))]
  }

  /** HDEL busy: nothing to delete on a key that is gone. */
  function DropBusy<Body>(entries: Entries<Body>, key: Key): Entries<Body> {
    if key in entries then entries[key := entries[key].(busy := false)] else entries
  }

  /** PEXPIRE terminal. */
  function Extend<Body>(entries: Entries<Body>, key: Key, now: Time): Entries<Body> {
    if key in entries then entries[key := entries[key].(deadline := Some(now + TERMINAL_TTL))] else entries
  }

  /** The store: two operations, and the entry after each is a function of the
      entry before it. */
  class Store<Body> {
    var entries: Entries<Body>

    constructor ()
      ensures entries == map[]
    {
      entries := map[];
    }

    method Claim(key: Key, now: Time) returns (verdict: Verdict<Body>)
      modifies this
      ensures (entries, verdict) == ClaimOn(old(entries), key, now)
    {
      var e := Lookup(entries, key);
      if e.done.Some? {
        return Replay(e.done.value);
      }
      if e.busy {
        return Busy;
      }
      var n := e.attempts + 1;
      entries := entries[key := e.(attempts := n)];
      entries := entries[key := entries[key].(busy := true)];
      entries := entries[key := entries[key].(deadline := Some(now + IN_FLIGHT_TTL))];
      assert entries == old(entries)[key := entries[key]];
      verdict := Pass(n);
    }

    /** The pipeline, when nobody's command falls between its own and the connection
        survives the first cut of them. */
    method Finish(key: Key, accepted: Option<Body>, now: Time, cut: nat)
      modifies this
      ensures entries == FinishedUpTo(old(entries), key, accepted, now, cut)
      ensures accepted.Some? && cut > 0 ==> ClaimOn(entries, key, now) == (entries, Replay(accepted.value))
      ensures accepted.None? && cut > 0 && key in old(entries) && old(entries)[key].done.None? ==>
                ClaimOn(entries, key, now).1 == Pass(old(entries)[key].attempts + 1)
    {
      if accepted.Some? {
        if cut > 0 {
          entries := SetDone(entries, key, accepted.value);
        }
        if cut > 1 {
          entries := DropBusy(entries, key);
        }
        if cut > 2 {
          entries := Extend(entries, key, now);
        }
      } else if cut > 0 {
        entries := DropBusy(entries, key);
      }
    }
  }

  /** The finish after its first cut commands: HSET done, HDEL busy, PEXPIRE for a
      201, HDEL busy alone for anything else. */
  function FinishedUpTo<Body>(entries: Entries<Body>, key: Key, accepted: Option<Body>, now: Time, cut: nat)
    : Entries<Body>
  {
    match accepted
    case None => if cut > 0 then DropBusy(entries, key) else entries
    case Some(body) =>
      var e1 := if cut > 0 then SetDone(entries, key, body) else entries;
      var e2 := if cut > 1 then DropBusy(e1, key) else e1;
      if cut > 2 then Extend(e2, key, now) else e2
  }

  /* ---- requests under a key, interleaved ---- */

  /** Where a request that was let through is: in the engine, or at its next Redis
      command. */
  datatype Phase<Body> =
    | InEngine(attempt: nat)
    | Storing(body: Body)
    | Releasing(body: Body)
    | Extending
    | Rejecting

  datatype Live<Body> = Live(key: Key, phase: Phase<Body>)

  /** granted and first are the account of what was let through and what the first
      201 was, under the entry that exists now; nothing reads them. */
  datatype Sys<Body> = Sys(
    entries: Entries<Body>,
    now: Time,
    live: map<nat, Live<Body>>,
    granted: map<Key, nat>,
    first: map<Key, Body>)

  datatype Step<Body> =
    | Tick(d: nat)
    | Claim(r: nat, key: Key)
    | EngineDone(r: nat, accepted: Option<Body>)
    | Command(r: nat)
    | Die(r: nat)
    | Expire(key: Key)

  predicate Enabled<Body>(s: Sys<Body>, step: Step<Body>) {
    match step
    case Tick(_) => true
    case Claim(r, _) => r !in s.live
    case EngineDone(r, _) => r in s.live && s.live[r].phase.InEngine?
    case Command(r) => r in s.live && !s.live[r].phase.InEngine?
    case Die(r) => r in s.live
    case Expire(key) =>
      key in s.entries && s.entries[key].deadline.Some? && s.entries[key].deadline.value <= s.now
  }

  function Count(granted: map<Key, nat>, key: Key): nat {
    if key in granted then granted[key] else 0
  }

  function Apply<Body>(s: Sys<Body>, step: Step<Body>): Sys<Body>
    requires Enabled(s, step)
  {
    match step
    case Tick(d) => s.(now := s.now + d)
    case Claim(r, key) =>
      var (entries, verdict) := ClaimOn(s.entries, key, s.now);
      if verdict.Pass?
      then s.(entries := entries, live := s.live[r := Live(key, InEngine(verdict.attempts))],
              granted := s.granted[key := Count(s.granted, key) + 1])
      else s
    case EngineDone(r, accepted) =>
      var key := s.live[r].key;
      match accepted {
        case Some(body) =>
          s.(live := s.live[r := Live(key, Storing(body))],
             first := if key in s.first then s.first else s.first[key := body])
        case None => s.(live := s.live[r := Live(key, Rejecting)])
      }
    case Command(r) =>
      var key := s.live[r].key;
      match s.live[r].phase {
        case Storing(body) =>
          s.(entries := SetDone(s.entries, key, body), live := s.live[r := Live(key, Releasing(body))])
        case Releasing(_) => s.(entries := DropBusy(s.entries, key), live := s.live[r := Live(key, Extending)])
        case Extending => s.(entries := Extend(s.entries, key, s.now), live := s.live - {r})
        case Rejecting => s.(entries := DropBusy(s.entries, key), live := s.live - {r})
        case InEngine(_) => s
      }
    case Die(r) => s.(live := s.live - {r})
    case Expire(key) => s.(entries := s.entries - {key}, granted := s.granted - {key}, first := s.first - {key})
  }

  /** No entry expires while a request of its key is in flight. */
  predicate Calm<Body>(s: Sys<Body>, step: Step<Body>) {
    step.Expire? ==> forall r :: r in s.live ==> s.live[r].key != step.key
  }

  function Start<Body>(): Sys<Body> {
    Sys(map[], 0, map[], map[], map[])
  }

  predicate Possible<Body>(s: Sys<Body>, run: seq<Step<Body>>)
    decreases |run|
  {
    run == [] || (Enabled(s, run[0]) && Possible(Apply(s, run[0]), run[1..]))
  }

  predicate CalmRun<Body>(s: Sys<Body>, run: seq<Step<Body>>)
    requires Possible(s, run)
    decreases |run|
  {
    run == [] || (Calm(s, run[0]) && CalmRun(Apply(s, run[0]), run[1..]))
  }

  function Exec<Body>(s: Sys<Body>, run: seq<Step<Body>>): Sys<Body>
    requires Possible(s, run)
    decreases |run|
  {
    if run == [] then s else Exec(Apply(s, run[0]), run[1..])
  }

  /** What the entry looks like while its request is at each phase. */
  predicate OwnerInv<Body(==)>(s: Sys<Body>, l: Live<Body>) {
    && l.key in s.entries
    && var e := s.entries[l.key];
    match l.phase
    case InEngine(n) => e.busy && e.done.None? && n == e.attempts && l.key !in s.first
    case Storing(body) => e.busy && e.done.None? && l.key in s.first && s.first[l.key] == body
    case Releasing(body) => e.busy && e.done == Some(body)
    case Extending => e.done.Some?
    case Rejecting => e.busy && e.done.None? && l.key !in s.first
  }

  predicate EntryInv<Body(==)>(s: Sys<Body>, key: Key) {
    var e := Lookup(s.entries, key);
    && e.attempts == Count(s.granted, key)
    && (e.done.Some? ==> key in s.first && s.first[key] == e.done.value)
    && (key in s.first ==> e.busy || e.done.Some?)
    && (key in s.granted || key in s.first ==> key in s.entries)
  }

  ghost predicate Inv<Body>(s: Sys<Body>) {
    && (forall r :: r in s.live ==> OwnerInv(s, s.live[r]))
    && (forall r, q :: r in s.live && q in s.live && s.live[r].key == s.live[q].key ==> r == q)
    && (forall key :: EntryInv(s, key))
  }

  lemma EntryKept<Body>(s: Sys<Body>, step: Step<Body>, key: Key)
    requires Inv(s) && Enabled(s, step) && Calm(s, step)
    ensures EntryInv(Apply(s, step), key)
  {
    assert EntryInv(s, key);
    if step.EngineDone? || step.Command? {
      assert OwnerInv(s, s.live[step.r]);
    }
  }

  lemma OwnerKeptByClaim<Body>(s: Sys<Body>, key: Key, c: nat, r: nat)
    requires Inv(s) && Enabled(s, Claim(c, key)) && r in Apply(s, Claim(c, key)).live
    ensures OwnerInv(Apply(s, Claim(c, key)), Apply(s, Claim(c, key)).live[r])
  {
    if r in s.live {
      assert OwnerInv(s, s.live[r]);
    } else {
      assert EntryInv(s, key);
    }
  }

  lemma OwnStepKept<Body>(s: Sys<Body>, step: Step<Body>)
    requires Inv(s) && Enabled(s, step) && (step.EngineDone? || step.Command?)
    ensures step.r in Apply(s, step).live ==> OwnerInv(Apply(s, step), Apply(s, step).live[step.r])
  {
    hide Inv, EntryInv, ClaimOn;
    assert OwnerInv(s, s.live[step.r]) by { LiveOwner(s, step.r); }
  }

  lemma LiveOwner<Body>(s: Sys<Body>, r: nat)
    requires Inv(s) && r in s.live
    ensures OwnerInv(s, s.live[r])
  {
  }

  /** The account of one key. */
  predicate SameAt<Body(==)>(s: Sys<Body>, s': Sys<Body>, key: Key) {
    && (key in s.entries <==> key in s'.entries)
    && (key in s.entries ==> s.entries[key] == s'.entries[key])
    && (key in s.first <==> key in s'.first)
    && (key in s.first ==> s.first[key] == s'.first[key])
  }

  lemma OnlyItsKey<Body>(s: Sys<Body>, step: Step<Body>, key: Key)
    requires Enabled(s, step) && !step.Claim?
    requires step.EngineDone? || step.Command? ==> s.live[step.r].key != key
    requires step.Expire? ==> step.key != key
    ensures SameAt(s, Apply(s, step), key)
  {
  }

  lemma OtherStepKept<Body>(s: Sys<Body>, step: Step<Body>, r: nat)
    requires Inv(s) && Enabled(s, step) && Calm(s, step) && !step.Claim?
    requires step.EngineDone? || step.Command? ==> step.r != r
    requires r in Apply(s, step).live
    ensures OwnerInv(Apply(s, step), Apply(s, step).live[r])
  {
    hide EntryInv, SameAt;
    assert OwnerInv(s, s.live[r]);
    OnlyItsKey(s, step, s.live[r].key);
    OwnerElsewhere(s, Apply(s, step), s.live[r]);
  }

  lemma OwnerElsewhere<Body>(s: Sys<Body>, s': Sys<Body>, l: Live<Body>)
    requires OwnerInv(s, l) && SameAt(s, s', l.key)
    ensures OwnerInv(s', l)
  {
  }

  /** A claim that passes finds nobody of its key in flight. */
  lemma PassFindsNobody<Body>(s: Sys<Body>, key: Key)
    requires Inv(s) && ClaimOn(s.entries, key, s.now).1.Pass?
    ensures forall r :: r in s.live ==> s.live[r].key != key
  {
    forall r | r in s.live ensures s.live[r].key != key {
      assert OwnerInv(s, s.live[r]);
    }
  }

  lemma StepKeepsInv<Body>(s: Sys<Body>, step: Step<Body>)
    requires Inv(s) && Enabled(s, step) && Calm(s, step)
    ensures Inv(Apply(s, step))
  {
    hide EntryInv, OwnerInv;
    var s' := Apply(s, step);
    forall key ensures EntryInv(s', key) {
      EntryKept(s, step, key);
    }
    forall r | r in s'.live ensures OwnerInv(s', s'.live[r]) {
      if step.Claim? {
        OwnerKeptByClaim(s, step.key, step.r, r);
      } else if (step.EngineDone? || step.Command?) && step.r == r {
        OwnStepKept(s, step);
      } else {
        OtherStepKept(s, step, r);
      }
    }
    if step.Claim? && ClaimOn(s.entries, step.key, s.now).1.Pass? {
      PassFindsNobody(s, step.key);
    }
  }

  lemma {:induction false} CalmRunKeepsInv<Body>(s: Sys<Body>, run: seq<Step<Body>>)
    requires Inv(s) && Possible(s, run) && CalmRun(s, run)
    ensures Inv(Exec(s, run))
    decreases |run|
  {
    hide Inv, Calm;
    if run != [] {
      StepKeepsInv(s, run[0]);
      CalmRunKeepsInv(Apply(s, run[0]), run[1..]);
    }
  }

  /** At most one request per key is past the claim at any time, so at most one is
      in the engine; its attempt number counts the passages granted under the
      entry; a claim that passes finds no 201 under the entry, and one that
      replays returns the first one as it was. */
  lemma OneRequestPerKeyInsideTheEngine<Body>(run: seq<Step<Body>>, r: nat, q: nat, key: Key)
    requires Possible(Start<Body>(), run) && CalmRun(Start<Body>(), run)
    ensures var s := Exec(Start<Body>(), run);
            && (r in s.live && q in s.live && s.live[r].key == s.live[q].key ==> r == q)
            && (r in s.live && s.live[r].phase.InEngine? ==> s.live[r].phase.attempt == Count(s.granted, s.live[r].key))
            && var (_, verdict) := ClaimOn(s.entries, key, s.now);
               && (verdict.Pass? ==> verdict.attempts == Count(s.granted, key) + 1 && key !in s.first
                                     && forall x :: x in s.live ==> s.live[x].key != key)
               && (verdict.Replay? ==> key in s.first && verdict.body == s.first[key])
  {
    var s := Exec(Start<Body>(), run);
    CalmRunKeepsInv(Start<Body>(), run);
    assert EntryInv(s, key);
    if r in s.live {
      assert OwnerInv(s, s.live[r]) && EntryInv(s, s.live[r].key);
    }
    forall x | x in s.live && s.live[x].key == key ensures OwnerInv(s, s.live[x]) {}
  }

  /* ---- the two expiries ---- */

  /** When each request was let through. */
  function Since<Body>(s: Sys<Body>, since: map<nat, Time>, step: Step<Body>): map<nat, Time> {
    if step.Claim? && ClaimOn(s.entries, step.key, s.now).1.Pass? then since[step.r := s.now] else since
  }

  /** At every point of the run each request in flight was let through less than the
      in-flight expiry ago. */
  predicate PromptRun<Body>(s: Sys<Body>, since: map<nat, Time>, run: seq<Step<Body>>)
    requires Possible(s, run)
    decreases |run|
  {
    && (forall r :: r in s.live ==> r in since && s.now < since[r] + IN_FLIGHT_TTL)
    && (run == [] || PromptRun(Apply(s, run[0]), Since(s, since, run[0]), run[1..]))
  }

  /** When each of the requests of a run was let through. */
  function SinceAfter<Body>(s: Sys<Body>, since: map<nat, Time>, run: seq<Step<Body>>): map<nat, Time>
    requires Possible(s, run)
    decreases |run|
  {
    if run == [] then since else SinceAfter(Apply(s, run[0]), Since(s, since, run[0]), run[1..])
  }

  /** The entry of a request in flight lasts exactly that long. */
  predicate Covered<Body>(s: Sys<Body>, since: map<nat, Time>) {
    forall r :: r in s.live ==> r in since && CoveredFrom(s, s.live[r].key, since[r])
  }

  predicate CoveredFrom<Body>(s: Sys<Body>, key: Key, from: Time) {
    key in s.entries && from <= s.now && s.entries[key].deadline == Some(from + 30_000)
  }

  lemma CoverIsKept<Body>(s: Sys<Body>, step: Step<Body>, r: nat, from: Time)
    requires Inv(s) && Enabled(s, step) && Calm(s, step)
    requires r in s.live && r in Apply(s, step).live && CoveredFrom(s, s.live[r].key, from)
    ensures CoveredFrom(Apply(s, step), s.live[r].key, from)
  {
    assert OwnerInv(s, s.live[r]);
  }

  lemma AllCoverIsKept<Body>(s: Sys<Body>, since: map<nat, Time>, step: Step<Body>)
    requires Inv(s) && Enabled(s, step) && Calm(s, step) && Covered(s, since)
    ensures Covered(Apply(s, step), Since(s, since, step))
  {
    hide CoveredFrom, Inv;
    var s' := Apply(s, step);
    forall r | r in s'.live ensures CoveredFrom(s', s'.live[r].key, Since(s, since, step)[r]) {
      if r in s.live {
        CoverIsKept(s, step, r, since[r]);
      } else {
        PassIsCovered(s, step.r, step.key);
      }
    }
  }

  lemma PassIsCovered<Body>(s: Sys<Body>, r: nat, key: Key)
    requires Enabled(s, Claim(r, key)) && ClaimOn(s.entries, key, s.now).1.Pass?
    ensures CoveredFrom(Apply(s, Claim(r, key)), key, s.now)
  {
  }

  lemma {:induction false} CalmRunKeepsCover<Body>(s: Sys<Body>, since: map<nat, Time>, run: seq<Step<Body>>)
    requires Inv(s) && Covered(s, since) && Possible(s, run) && CalmRun(s, run)
    ensures Covered(Exec(s, run), SinceAfter(s, since, run))
    decreases |run|
  {
    hide Inv, Covered;
    if run != [] {
      StepKeepsInv(s, run[0]);
      AllCoverIsKept(s, since, run[0]);
      CalmRunKeepsCover(Apply(s, run[0]), Since(s, since, run[0]), run[1..]);
    }
  }

  lemma {:induction false} PromptIsCalm<Body>(s: Sys<Body>, since: map<nat, Time>, run: seq<Step<Body>>)
    requires Inv(s) && Covered(s, since) && Possible(s, run) && PromptRun(s, since, run)
    ensures CalmRun(s, run)
    decreases |run|
  {
    hide Inv;
    if run != [] {
      assert Calm(s, run[0]);
      StepKeepsInv(s, run[0]);
      AllCoverIsKept(s, since, run[0]);
      PromptIsCalm(Apply(s, run[0]), Since(s, since, run[0]), run[1..]);
    }
  }

  /** So a deployment whose requests take less than the in-flight expiry from their
      claim to their last Redis command has one request per key in flight. */
  lemma PromptRequestsAreAlone<Body>(run: seq<Step<Body>>, r: nat, q: nat)
    requires Possible(Start<Body>(), run) && PromptRun(Start<Body>(), map[], run)
    ensures var live := Exec(Start<Body>(), run).live;
            r in live && q in live && live[r].key == live[q].key ==> r == q
  {
    PromptIsCalm(Start<Body>(), map[], run);
    OneRequestPerKeyInsideTheEngine(run, r, q, NO_KEY);
  }

  /** Nobody is at work on the key, and the mark of one who was is there until an instant. */
  predicate Abandoned<Body>(s: Sys<Body>, key: Key, until: Time) {
    && (forall r :: r in s.live ==> s.live[r].key != key)
    && key in s.entries && s.entries[key].busy && s.entries[key].done.None?
    && s.entries[key].deadline == Some(until)
  }

  lemma AbandonedStays<Body>(s: Sys<Body>, step: Step<Body>, key: Key, until: Time)
    requires Enabled(s, step) && Abandoned(s, key, until)
    ensures if step == Expire(key) then until <= s.now else Abandoned(Apply(s, step), key, until)
  {
  }

  lemma {:induction false} AbandonedUntil<Body>(s: Sys<Body>, more: seq<Step<Body>>, key: Key, until: Time)
    requires Possible(s, more) && Abandoned(s, key, until)
    ensures if Expire(key) in more then until <= Exec(s, more).now else Abandoned(Exec(s, more), key, until)
    decreases |more|
  {
    hide Abandoned;
    if more != [] {
      AbandonedStays(s, more[0], key, until);
      if more[0] == Expire(key) {
        NowGrows(s, more);
      } else {
        AbandonedUntil(Apply(s, more[0]), more[1..], key, until);
      }
    }
  }

  /** A request that dies holding the mark blocks its key until thirty seconds after it
      was let through: up to then every claim is busy, from then on Redis may drop the
      entry, it does not drop it before, and the next claim then starts afresh. */
  lemma ADeadRequestBlocksItsKeyFor30Seconds<Body>(run: seq<Step<Body>>, r: nat, more: seq<Step<Body>>)
    requires Possible(Start<Body>(), run) && CalmRun(Start<Body>(), run)
    requires var s := Exec(Start<Body>(), run);
             && r in s.live && (s.live[r].phase.InEngine? || s.live[r].phase.Storing? || s.live[r].phase.Rejecting?)
             && Possible(Apply(s, Die(r)), more)
    ensures r in SinceAfter(Start<Body>(), map[], run)
    ensures var s, since := Exec(Start<Body>(), run), SinceAfter(Start<Body>(), map[], run)[r];
            var s', key := Exec(Apply(s, Die(r)), more), s.live[r].key;
            if Expire(key) in more then since + 30_000 <= s'.now
            else
              && ClaimOn(s'.entries, key, s'.now).1 == Busy
              && (Enabled(s', Expire(key)) <==> since + 30_000 <= s'.now)
              && (Enabled(s', Expire(key)) ==>
                    ClaimOn(Apply(s', Expire(key)).entries, key, s'.now).1 == Pass(1))
  {
    CalmRunKeepsInv(Start<Body>(), run);
    CalmRunKeepsCover(Start<Body>(), map[], run);
    var s, since := Exec(Start<Body>(), run), SinceAfter(Start<Body>(), map[], run)[r];
    assert OwnerInv(s, s.live[r]) && CoveredFrom(s, s.live[r].key, since);
    AbandonedUntil(Apply(s, Die(r)), more, s.live[r].key, since + 30_000);
  }

  /** Nobody is at work on the key and its body is stored until an instant. */
  predicate Settled<Body(==)>(s: Sys<Body>, key: Key, body: Body, until: Time) {
    && (forall r :: r in s.live ==> s.live[r].key != key)
    && key in s.entries && s.entries[key].done == Some(body) && s.entries[key].deadline == Some(until)
  }

  lemma SettledStays<Body>(s: Sys<Body>, step: Step<Body>, key: Key, body: Body, until: Time)
    requires Enabled(s, step) && Settled(s, key, body, until)
    ensures if step == Expire(key) then until <= s.now else Settled(Apply(s, step), key, body, until)
  {
  }

  lemma {:induction false} SettledUntil<Body>(s: Sys<Body>, more: seq<Step<Body>>, key: Key, body: Body, until: Time)
    requires Possible(s, more) && Settled(s, key, body, until)
    ensures if Expire(key) in more then until <= Exec(s, more).now else Settled(Exec(s, more), key, body, until)
    decreases |more|
  {
    hide Settled;
    if more != [] {
      SettledStays(s, more[0], key, body, until);
      if more[0] == Expire(key) {
        NowGrows(s, more);
      } else {
        SettledUntil(Apply(s, more[0]), more[1..], key, body, until);
      }
    }
  }

  lemma {:induction false} NowGrows<Body>(s: Sys<Body>, more: seq<Step<Body>>)
    requires Possible(s, more)
    ensures s.now <= Exec(s, more).now
    decreases |more|
  {
    if more != [] {
      NowGrows(Apply(s, more[0]), more[1..]);
    }
  }

  /** From the last command of an accepted finish every claim of the key replays the
      first 201, whatever else runs, for exactly five minutes: only from then on may Redis
      drop the entry. */
  lemma TheFirst201ReplaysUntilItsExpiry<Body>(s: Sys<Body>, r: nat, more: seq<Step<Body>>)
    requires Inv(s) && r in s.live && s.live[r].phase.Extending?
    requires Possible(Apply(s, Command(r)), more)
    ensures var s', key := Exec(Apply(s, Command(r)), more), s.live[r].key;
            if Expire(key) in more then s.now + 300_000 <= s'.now
            else
              && key in s.first && ClaimOn(s'.entries, key, s'.now).1 == Replay(s.first[key])
              && (Enabled(s', Expire(key)) <==> s.now + 300_000 <= s'.now)
  {
    var key := s.live[r].key;
    assert OwnerInv(s, s.live[r]) && EntryInv(s, key);
    SettledUntil(Apply(s, Command(r)), more, key, s.first[key], s.now + 300_000);
  }

  /** The hypothesis cannot be weakened: wherever an entry expires under a live
      request, the next claim of the key goes in beside it. */
  lemma ExpiryInFlightLetsASecondIn<Body>(s: Sys<Body>, key: Key, r: nat, q: nat)
    requires Enabled(s, Expire(key)) && r in s.live && s.live[r].key == key && q !in s.live
    ensures var s1 := Apply(s, Expire(key));
            && Enabled(s1, Claim(q, key))
            && var s2 := Apply(s1, Claim(q, key));
               && r in s2.live && q in s2.live && s2.live[r].key == s2.live[q].key == key
               && s2.live[q].phase == InEngine(1)
  {
  }

  lemma OneMore<Body>(s: Sys<Body>, step: Step<Body>, rest: seq<Step<Body>>)
    requires Enabled(s, step) && Possible(Apply(s, step), rest)
    ensures Possible(s, [step] + rest) && Exec(s, [step] + rest) == Exec(Apply(s, step), rest)
  {
    assert ([step] + rest)[1..] == rest;
  }

  const KEY: Key := 1

  /** And then a mark can be cleared by somebody else: the first request is
      rejected after its entry expired, releases the mark the second one took, and
      a third goes into the engine beside the second, under one entry. */
  lemma ALateRejectionClearsAnothersMark() returns (run: seq<Step<nat>>)
    ensures Possible(Start<nat>(), run)
    ensures var s := Exec(Start<nat>(), run);
            && s.live == map[2 := Live(KEY, InEngine(1)), 3 := Live(KEY, InEngine(2))]
            && s.entries.Keys == {KEY} && s.entries[KEY].attempts == 2
  {
    var s4, prefix := TwoInside();
    var done, release, c3 := EngineDone(1, None), Command(1), Claim(3, KEY);
    var s5 := Apply(s4, done);
    var s6 := Apply(s5, release);
    OneMore(s6, c3, []);
    OneMore(s5, release, [c3]);
    OneMore(s4, done, [release, c3]);
    Append(Start<nat>(), prefix, [done, release, c3]);
    run := prefix + [done, release, c3];
  }

  lemma TwoInside() returns (s: Sys<nat>, run: seq<Step<nat>>)
    ensures Possible(Start<nat>(), run) && Exec(Start<nat>(), run) == s
    ensures s.live == map[1 := Live(KEY, InEngine(1)), 2 := Live(KEY, InEngine(1))]
    ensures s.entries.Keys == {KEY} && s.entries[KEY].attempts == 1 && s.entries[KEY].done.None?
  {
    var c1, tick, expire, c2 := Claim(1, KEY), Tick(IN_FLIGHT_TTL), Expire(KEY), Claim(2, KEY);
    var s1 := Apply(Start<nat>(), c1);
    var s2 := Apply(s1, tick);
    var s3 := Apply(s2, expire);
    s := Apply(s3, c2);
    OneMore(s3, c2, []);
    OneMore(s2, expire, [c2]);
    OneMore(s1, tick, [expire, c2]);
    OneMore(Start<nat>(), c1, [tick, expire, c2]);
    run := [c1] + [tick, expire, c2];
  }

  lemma {:induction false} Append<Body>(s: Sys<Body>, run: seq<Step<Body>>, more: seq<Step<Body>>)
    requires Possible(s, run) && Possible(Exec(s, run), more)
    ensures Possible(s, run + more) && Exec(s, run + more) == Exec(Exec(s, run), more)
    decreases |run|
  {
    hide Enabled, Apply;
    if run == [] {
      assert run + more == more;
    } else {
      Append(Apply(s, run[0]), run[1..], more);
      assert (run + more)[1..] == run[1..] + more;
    }
  }
}
