/** From the client's counters to the rows: the step machine of the engines under
    the Redis entries, each engine call made for one request, with nothing assumed of
    Redis (entries may expire early, be flushed, or never be finished), and the
    comparison the checker makes. */
module EndToEnd {
  import opened Contract
  import opened Tables
  import opened Ledger
  import W = World
  import G = Guarantees
  import I = Idempotency
  import Checker
  import Stuck

  /** A 201 that left the process: for which request, under which key, with which body,
      and whether it was replayed from Redis or is the engine's own. */
  datatype Sent = Sent(r: nat, key: Key, body: Bid, replayed: bool)

  /** For whom the engines are at work: what each request asked, which request each bid
      of a shard's open batch and each open transaction belongs to, and the row whose
      acknowledgement each request was told. */
  datatype Errands = Errands(
    reqs: map<nat, Request>,
    riders: map<nat, seq<Option<nat>>>,
    inTx: map<nat, nat>,
    told: map<nat, Bid>)
  {
    function RidersOf(s: nat): seq<Option<nat>> {
      if s in riders then riders[s] else []
    }
  }

  datatype System = System(w: W.World, redis: I.Sys<Bid>, errands: Errands, wire: set<Sent>)

  /** Claim is a request with a key reaching the middleware; For is the engine deciding,
      or beginning, on behalf of one that was let through; Engines is every other step of
      the engines, bids without a key among them. */
  datatype Step =
    | Claim(r: nat, req: Request)
    | For(r: nat, e: W.Step)
    | Engines(e: W.Step)
    | Redis(i: I.Step<Bid>)
    | Lose(keys: set<Key>)

  /** A request's engine call answers 201 only with the row it was told of. */
  ghost predicate Enabled(s: System, step: Step) {
    match step
    case Claim(r, req) => r !in s.errands.reqs && r !in s.redis.live && req.key != NO_KEY
    case For(r, e) =>
      && W.Enabled(s.w, e) && (e.Decide? || e.Optimistic? || e.Begin?)
      && r in s.redis.live && s.redis.live[r].phase.InEngine?
      && r in s.errands.reqs && e.req == s.errands.reqs[r]
    case Engines(e) => W.Enabled(s.w, e)
    case Redis(i) =>
      && I.Enabled(s.redis, i) && !i.Claim?
      && (i.EngineDone? && i.accepted.Some? ==> i.r in s.errands.told && s.errands.told[i.r] == i.accepted.value)
    case Lose(_) => true
  }

  /** The acknowledgement of a batch tells each request behind it of its own row. */
  function Tell(told: map<nat, Bid>, rows: seq<Bid>, riders: seq<Option<nat>>): map<nat, Bid>
    requires |rows| == |riders|
  {
    if rows == [] then told
    else
      var n := |rows| - 1;
      var before := Tell(told, rows[..n], riders[..n]);
      if riders[n].Some? then before[riders[n].value := rows[n]] else before
  }

  function Riders(c: Errands, e: W.Step, who: Option<nat>): map<nat, seq<Option<nat>>> {
    match e
    case Decide(s, _, _, _, _) => c.riders[s := c.RidersOf(s) + [who]]
    case Boot(s) => c.riders[s := []]
    case CommitAcked(s, _) => c.riders[s := []]
    case CommitMisreported(s, _) => c.riders[s := []]
    case CommitInFlight(s) => c.riders[s := []]
    case CommitAborted(s) => c.riders[s := []]
    case _ => c.riders
  }

  function InTx(c: Errands, e: W.Step, who: Option<nat>): map<nat, nat> {
    match e
    case Begin(t, _, _) => if who.Some? then c.inTx[t := who.value] else c.inTx - {t}
    case CommitTx(t, _) => c.inTx - {t}
    case Rollback(t) => c.inTx - {t}
    case _ => c.inTx
  }

  /** Who is told of what: by the very step that acknowledges the row. */
  ghost function Told(w: W.World, c: Errands, e: W.Step, who: Option<nat>): map<nat, Bid>
    requires W.Enabled(w, e)
  {
    match e
    case Optimistic(req, _, id, startedAt, heard) =>
      if heard && who.Some? then
        c.told[who.value := W.DecidedRow(w.db.auctions[req.auction].State(), req, id, startedAt)]
      else c.told
    case CommitTx(t, heard) => if heard && t in c.inTx then c.told[c.inTx[t] := w.txs[t].row] else c.told
    case CommitAcked(s, _) =>
      if |c.RidersOf(s)| == |w.shards[s].batch| then Tell(c.told, w.shards[s].batch, c.RidersOf(s)) else c.told
    case _ => c.told
  }

  ghost function Serving(w: W.World, c: Errands, e: W.Step, who: Option<nat>): Errands
    requires W.Enabled(w, e)
  {
    c.(riders := Riders(c, e, who), inTx := InTx(c, e, who), told := Told(w, c, e, who))
  }

  /** What a step answers with 201. */
  function Answered(s: System, step: Step): set<Sent> {
    match step
    case Redis(EngineDone(r, Some(b))) => if r in s.redis.live then {Sent(r, s.redis.live[r].key, b, false)} else {}
    case Claim(r, req) =>
      var (_, verdict) := I.ClaimOn(s.redis.entries, req.key, s.redis.now);
      if verdict.Replay? then {Sent(r, req.key, verdict.body, true)} else {}
    case _ => {}
  }

  ghost function Apply(s: System, step: Step): System
    requires Enabled(s, step)
  {
    var s' := match step
      case Claim(r, req) =>
        s.(redis := I.Apply(s.redis, I.Claim(r, req.key)), errands := s.errands.(reqs := s.errands.reqs[r := req]))
      case For(r, e) => s.(w := W.Apply(s.w, e), errands := Serving(s.w, s.errands, e, Some(r)))
      case Engines(e) => s.(w := W.Apply(s.w, e), errands := Serving(s.w, s.errands, e, None))
      case Redis(i) => s.(redis := I.Apply(s.redis, i))
      case Lose(keys) => s.(redis := s.redis.(entries := s.redis.entries - keys));
    s'.(wire := s.wire + Answered(s, step))
  }

  ghost predicate Possible(s: System, run: seq<Step>)
    decreases |run|
  {
    run == [] || (Enabled(s, run[0]) && Possible(Apply(s, run[0]), run[1..]))
  }

  ghost function Exec(s: System, run: seq<Step>): System
    requires Possible(s, run)
    decreases |run|
  {
    if run == [] then s else Exec(Apply(s, run[0]), run[1..])
  }

  function Start(): System {
    System(W.EMPTY, I.Start<Bid>(), Errands(map[], map[], map[], map[]), {})
  }

  /* ---- whose bid each row is ---- */

  predicate MadeFor(b: Bid, req: Request) {
    b.auction == req.auction && b.user == req.user && b.amount == req.amount && b.key == KeyColumn(req.key)
  }

  /** Each bid of a batch that has a request behind it is that request's bid. */
  predicate Rides(reqs: map<nat, Request>, rows: seq<Bid>, riders: seq<Option<nat>>) {
    && |rows| == |riders|
    && forall j :: 0 <= j < |rows| && riders[j].Some? ==>
         riders[j].value in reqs && MadeFor(rows[j], reqs[riders[j].value])
  }

  predicate TxFor(tx: W.Tx, req: Request) {
    match tx
    case Waiting(q, _, _) => q == req
    case Holding(q, _, _, _, _) => q == req
    case Inserting(row) => MadeFor(row, req)
    case Written(row) => MadeFor(row, req)
  }

  predicate ToldTrue(reqs: map<nat, Request>, told: map<nat, Bid>, acks: set<Bid>) {
    forall r :: r in told ==> r in reqs && told[r] in acks && MadeFor(told[r], reqs[r])
  }

  predicate BatchesServed(w: W.World, c: Errands) {
    forall s :: s in w.shards ==> Rides(c.reqs, w.shards[s].batch, c.RidersOf(s))
  }

  predicate TxsServed(w: W.World, c: Errands) {
    forall t :: t in c.inTx ==> t in w.txs && c.inTx[t] in c.reqs && TxFor(w.txs[t], c.reqs[c.inTx[t]])
  }

  predicate Serves(w: W.World, c: Errands) {
    BatchesServed(w, c) && TxsServed(w, c) && ToldTrue(c.reqs, c.told, w.acks)
  }

  /** The step is taken for a request that asked for exactly this bid, or for nobody. */
  predicate IsFor(c: Errands, e: W.Step, who: Option<nat>) {
    who.Some? ==> && (e.Decide? || e.Optimistic? || e.Begin?)
                  && who.value in c.reqs && e.req == c.reqs[who.value]
  }

  lemma DecidedIsServed(w: W.World, c: Errands, e: W.Step, who: Option<nat>)
    requires BatchesServed(w, c) && W.Enabled(w, e) && IsFor(c, e, who) && e.Decide?
    ensures BatchesServed(W.Apply(w, e), Serving(w, c, e, who))
  {
    var sh := w.shards[e.s];
    assert Rides(c.reqs, sh.batch, c.RidersOf(e.s));
    var b := W.DecidedRow(sh.cache[e.req.auction], e.req, e.id, e.stampAt);
    assert W.Apply(w, e).shards[e.s].batch == sh.batch + [b];
  }

  predicate Empties(e: W.Step) {
    e.Boot? || e.CommitAcked? || e.CommitMisreported? || e.CommitInFlight? || e.CommitAborted?
  }

  lemma EmptiedIsServed(w: W.World, c: Errands, e: W.Step, who: Option<nat>)
    requires BatchesServed(w, c) && W.Enabled(w, e) && Empties(e)
    ensures BatchesServed(W.Apply(w, e), Serving(w, c, e, who))
  {
    hide W.Free, Commits, Tell, Told;
    assert W.Apply(w, e).shards[e.s].batch == [];
  }

  lemma UntouchedIsServed(w: W.World, c: Errands, e: W.Step, who: Option<nat>)
    requires BatchesServed(w, c) && W.Enabled(w, e) && !e.Decide? && !Empties(e)
    ensures BatchesServed(W.Apply(w, e), Serving(w, c, e, who))
  {
    hide W.Free, Commits, Consistent, W.OptimisticGuard, Tell, Told, Rides;
  }

  lemma BatchesStayServed(w: W.World, c: Errands, e: W.Step, who: Option<nat>)
    requires BatchesServed(w, c) && W.Enabled(w, e) && IsFor(c, e, who)
    ensures BatchesServed(W.Apply(w, e), Serving(w, c, e, who))
  {
    hide W.Enabled, W.Apply, BatchesServed, IsFor, Riders, InTx, Told;
    if e.Decide? {
      DecidedIsServed(w, c, e, who);
    } else if Empties(e) {
      EmptiedIsServed(w, c, e, who);
    } else {
      UntouchedIsServed(w, c, e, who);
    }
  }

  /** What a step can do to one transaction. */
  lemma TxMoves(w: W.World, e: W.Step, t: nat, req: Request)
    requires W.Enabled(w, e) && t in w.txs && TxFor(w.txs[t], req)
    requires !(e.CommitTx? && e.t == t) && !(e.Rollback? && e.t == t)
    ensures t in W.Apply(w, e).txs && TxFor(W.Apply(w, e).txs[t], req)
  {
    hide W.Free, Commits, Consistent, W.OptimisticGuard, Write, W.Evicted, Opening, W.Unlocked, Clash;
  }

  lemma BegunIsFor(w: W.World, e: W.Step, req: Request)
    requires W.Enabled(w, e) && e.Begin? && e.req == req
    ensures e.t in W.Apply(w, e).txs && TxFor(W.Apply(w, e).txs[e.t], req)
  {
  }

  lemma TxsStayServed(w: W.World, c: Errands, e: W.Step, who: Option<nat>)
    requires TxsServed(w, c) && W.Enabled(w, e) && IsFor(c, e, who)
    ensures TxsServed(W.Apply(w, e), Serving(w, c, e, who))
  {
    hide W.Enabled, W.Apply, TxFor, Told, Riders;
    var c' := Serving(w, c, e, who);
    forall t | t in c'.inTx
      ensures t in W.Apply(w, e).txs && c'.inTx[t] in c.reqs && TxFor(W.Apply(w, e).txs[t], c.reqs[c'.inTx[t]])
    {
      if e.Begin? && e.t == t {
        BegunIsFor(w, e, c.reqs[c'.inTx[t]]);
      } else {
        TxMoves(w, e, t, c.reqs[c.inTx[t]]);
      }
    }
  }

  lemma {:induction false} TellIsTrue(reqs: map<nat, Request>, told: map<nat, Bid>, rows: seq<Bid>,
                                      riders: seq<Option<nat>>, acks: set<Bid>)
    requires ToldTrue(reqs, told, acks) && Rides(reqs, rows, riders)
    requires forall j :: 0 <= j < |rows| ==> rows[j] in acks
    ensures ToldTrue(reqs, Tell(told, rows, riders), acks)
    decreases |rows|
  {
    if rows != [] {
      var n := |rows| - 1;
      TellIsTrue(reqs, told, rows[..n], riders[..n], acks);
    }
  }

  lemma AcksGrow(w: W.World, e: W.Step)
    requires W.Enabled(w, e)
    ensures w.acks <= W.Apply(w, e).acks
  {
    hide W.Free, Commits, Consistent, W.OptimisticGuard, Write, W.Evicted, History;
  }

  lemma MoreAcks(reqs: map<nat, Request>, told: map<nat, Bid>, acks: set<Bid>, acks': set<Bid>)
    requires ToldTrue(reqs, told, acks) && acks <= acks'
    ensures ToldTrue(reqs, told, acks')
  {
  }

  lemma BatchTells(w: W.World, c: Errands, e: W.Step, who: Option<nat>)
    requires Serves(w, c) && W.Enabled(w, e) && e.CommitAcked?
    ensures ToldTrue(c.reqs, Told(w, c, e, who), W.Apply(w, e).acks)
  {
    hide W.Free, Commits, Consistent, Tell, TxsServed, ToldTrue;
    AcksGrow(w, e);
    MoreAcks(c.reqs, c.told, w.acks, W.Apply(w, e).acks);
    assert Rides(c.reqs, w.shards[e.s].batch, c.RidersOf(e.s));
    TellIsTrue(c.reqs, c.told, w.shards[e.s].batch, c.RidersOf(e.s), W.Apply(w, e).acks);
  }

  lemma CommitTells(w: W.World, c: Errands, e: W.Step, who: Option<nat>)
    requires Serves(w, c) && W.Enabled(w, e) && e.CommitTx?
    ensures ToldTrue(c.reqs, Told(w, c, e, who), W.Apply(w, e).acks)
  {
    hide Consistent, BatchesServed, Write;
    AcksGrow(w, e);
    MoreAcks(c.reqs, c.told, w.acks, W.Apply(w, e).acks);
  }

  lemma StatementTells(w: W.World, c: Errands, e: W.Step, who: Option<nat>)
    requires Serves(w, c) && W.Enabled(w, e) && IsFor(c, e, who) && e.Optimistic?
    ensures ToldTrue(c.reqs, Told(w, c, e, who), W.Apply(w, e).acks)
  {
    hide Consistent, BatchesServed, TxsServed, Write, W.Free, W.OptimisticGuard;
    AcksGrow(w, e);
    MoreAcks(c.reqs, c.told, w.acks, W.Apply(w, e).acks);
  }

  lemma ToldStaysTrue(w: W.World, c: Errands, e: W.Step, who: Option<nat>)
    requires Serves(w, c) && W.Enabled(w, e) && IsFor(c, e, who)
    ensures ToldTrue(c.reqs, Told(w, c, e, who), W.Apply(w, e).acks)
  {
    hide W.Enabled, W.Apply, BatchesServed, TxsServed, ToldTrue, IsFor, Tell;
    if e.CommitAcked? {
      BatchTells(w, c, e, who);
    } else if e.CommitTx? {
      CommitTells(w, c, e, who);
    } else if e.Optimistic? {
      StatementTells(w, c, e, who);
    } else {
      AcksGrow(w, e);
      MoreAcks(c.reqs, c.told, w.acks, W.Apply(w, e).acks);
    }
  }

  lemma EngineStepServes(w: W.World, c: Errands, e: W.Step, who: Option<nat>)
    requires Serves(w, c) && W.Enabled(w, e) && IsFor(c, e, who)
    ensures Serves(W.Apply(w, e), Serving(w, c, e, who))
  {
    hide W.Enabled, W.Apply, BatchesServed, TxsServed, ToldTrue, Told, IsFor;
    BatchesStayServed(w, c, e, who);
    TxsStayServed(w, c, e, who);
    ToldStaysTrue(w, c, e, who);
  }

  /** A request more changes nothing for the others. */
  lemma OneMoreRequest(w: W.World, c: Errands, r: nat, req: Request)
    requires Serves(w, c) && r !in c.reqs
    ensures Serves(w, c.(reqs := c.reqs[r := req]))
  {
  }

  /* ---- what is stored and sent ---- */

  function BodyOf(phase: I.Phase<Bid>): Option<Bid> {
    match phase
    case Storing(b) => Some(b)
    case Releasing(b) => Some(b)
    case _ => None
  }

  /** An engine has answered a request of this key with this body. */
  ghost predicate ByEngine(wire: set<Sent>, key: Key, body: Bid) {
    exists r :: Sent(r, key, body, false) in wire
  }

  /** Every body stored, or on its way to be stored, has left as an engine's answer. */
  ghost predicate Repeated(redis: I.Sys<Bid>, wire: set<Sent>) {
    && (forall key :: key in redis.entries && redis.entries[key].done.Some? ==>
          ByEngine(wire, key, redis.entries[key].done.value))
    && (forall r :: r in redis.live && BodyOf(redis.live[r].phase).Some? ==>
          ByEngine(wire, redis.live[r].key, BodyOf(redis.live[r].phase).value))
  }

  /** The live requests are known under their keys. */
  predicate Known(redis: I.Sys<Bid>, reqs: map<nat, Request>) {
    forall r :: r in redis.live ==> r in reqs && redis.live[r].key == reqs[r].key && reqs[r].key != NO_KEY
  }

  /** An answer goes to a request of its key. An engine's own is that request's bid,
      acknowledged; a replay is what an engine had answered. */
  ghost predicate Due(wire: set<Sent>, reqs: map<nat, Request>, acks: set<Bid>, x: Sent) {
    && x.r in reqs && x.key == reqs[x.r].key && x.key != NO_KEY
    && if x.replayed then ByEngine(wire, x.key, x.body) else x.body in acks && MadeFor(x.body, reqs[x.r])
  }

  ghost predicate AllDue(wire: set<Sent>, reqs: map<nat, Request>, acks: set<Bid>) {
    forall x :: x in wire ==> Due(wire, reqs, acks, x)
  }

  ghost predicate Inv(s: System) {
    && W.Inv(s.w) && Serves(s.w, s.errands)
    && Repeated(s.redis, s.wire) && Known(s.redis, s.errands.reqs)
    && AllDue(s.wire, s.errands.reqs, s.w.acks)
  }

  lemma StillByEngine(wire: set<Sent>, more: set<Sent>, key: Key, body: Bid)
    requires ByEngine(wire, key, body) && wire <= more
    ensures ByEngine(more, key, body)
  {
    var r :| Sent(r, key, body, false) in wire;
    assert Sent(r, key, body, false) in more;
  }

  lemma StillDue(wire: set<Sent>, wire': set<Sent>, reqs: map<nat, Request>, reqs': map<nat, Request>,
                 acks: set<Bid>, acks': set<Bid>)
    requires AllDue(wire, reqs, acks) && wire <= wire' && acks <= acks'
    requires forall r :: r in reqs ==> r in reqs' && reqs'[r] == reqs[r]
    ensures forall x :: x in wire ==> Due(wire', reqs', acks', x)
  {
    forall x | x in wire ensures Due(wire', reqs', acks', x) {
      assert Due(wire, reqs, acks, x);
      if x.replayed {
        StillByEngine(wire, wire', x.key, x.body);
      }
    }
  }

  lemma StillRepeated(redis: I.Sys<Bid>, wire: set<Sent>, wire': set<Sent>)
    requires Repeated(redis, wire) && wire <= wire'
    ensures Repeated(redis, wire')
  {
    forall key | key in redis.entries && redis.entries[key].done.Some?
      ensures ByEngine(wire', key, redis.entries[key].done.value)
    {
      StillByEngine(wire, wire', key, redis.entries[key].done.value);
    }
    forall r | r in redis.live && BodyOf(redis.live[r].phase).Some?
      ensures ByEngine(wire', redis.live[r].key, BodyOf(redis.live[r].phase).value)
    {
      StillByEngine(wire, wire', redis.live[r].key, BodyOf(redis.live[r].phase).value);
    }
  }

  lemma EngineStepKeeps(s: System, step: Step)
    requires Inv(s) && Enabled(s, step) && (step.For? || step.Engines?)
    ensures Inv(Apply(s, step)) && s.wire <= Apply(s, step).wire
  {
    hide W.Inv, W.Apply, W.Enabled, Serves, AllDue, Due, Repeated, Known, Riders, InTx, Told;
    var who := if step.For? then Some(step.r) else None;
    G.StepIsLater(s.w, step.e);
    LaterFacts(s.w, W.Apply(s.w, step.e));
    EngineStepServes(s.w, s.errands, step.e, who);
    assert s.wire + {} == s.wire;
    StillDue(s.wire, s.wire, s.errands.reqs, s.errands.reqs, s.w.acks, W.Apply(s.w, step.e).acks);
    EveryOneDue(s.wire, s.errands.reqs, W.Apply(s.w, step.e).acks);
  }

  lemma EveryOneDue(wire: set<Sent>, reqs: map<nat, Request>, acks: set<Bid>)
    requires forall x :: x in wire ==> Due(wire, reqs, acks, x)
    ensures AllDue(wire, reqs, acks)
  {
  }

  lemma LaterFacts(w: W.World, w': W.World)
    requires G.Later(w, w')
    ensures W.Inv(w') && w.acks <= w'.acks && w.db.bids <= w'.db.bids
  {
  }

  lemma ClaimKeeps(s: System, r: nat, req: Request)
    requires Inv(s) && Enabled(s, Claim(r, req))
    ensures Inv(Apply(s, Claim(r, req))) && s.wire <= Apply(s, Claim(r, req)).wire
  {
    hide W.Inv, Serves, MadeFor;
    var s' := Apply(s, Claim(r, req));
    OneMoreRequest(s.w, s.errands, r, req);
    StillRepeated(s.redis, s.wire, s'.wire);
    StillDue(s.wire, s'.wire, s.errands.reqs, s'.errands.reqs, s.w.acks, s.w.acks);
    ClaimRepeats(s.redis, s'.wire, r, req.key);
    forall x | x in Answered(s, Claim(r, req)) ensures Due(s'.wire, s'.errands.reqs, s.w.acks, x) {}
  }

  lemma ClaimRepeats(redis: I.Sys<Bid>, wire: set<Sent>, r: nat, key: Key)
    requires Repeated(redis, wire) && I.Enabled(redis, I.Claim(r, key))
    ensures Repeated(I.Apply(redis, I.Claim(r, key)), wire)
    ensures var (_, verdict) := I.ClaimOn(redis.entries, key, redis.now);
            verdict.Replay? ==> ByEngine(wire, key, verdict.body)
  {
    hide ByEngine;
  }

  lemma RedisStepKeeps(s: System, i: I.Step<Bid>)
    requires Inv(s) && Enabled(s, Redis(i))
    ensures Inv(Apply(s, Redis(i))) && s.wire <= Apply(s, Redis(i)).wire
  {
    hide W.Inv, Serves, MadeFor, Repeated, Due, I.Apply, Known;
    var s' := Apply(s, Redis(i));
    StillRepeated(s.redis, s.wire, s'.wire);
    StillDue(s.wire, s'.wire, s.errands.reqs, s.errands.reqs, s.w.acks, s.w.acks);
    if i.EngineDone? && i.accepted.Some? {
      assert Sent(i.r, s.redis.live[i.r].key, i.accepted.value, false) in s'.wire;
    }
    RedisRepeats(s.redis, s'.wire, i);
    KnownStays(s.redis, s.errands.reqs, i);
    ToldIsDue(s, i);
  }

  lemma KnownStays(redis: I.Sys<Bid>, reqs: map<nat, Request>, i: I.Step<Bid>)
    requires Known(redis, reqs) && I.Enabled(redis, i) && !i.Claim?
    ensures Known(I.Apply(redis, i), reqs)
  {
  }

  lemma RedisRepeats(redis: I.Sys<Bid>, wire: set<Sent>, i: I.Step<Bid>)
    requires Repeated(redis, wire) && I.Enabled(redis, i) && !i.Claim?
    requires i.EngineDone? && i.accepted.Some? ==> ByEngine(wire, redis.live[i.r].key, i.accepted.value)
    ensures Repeated(I.Apply(redis, i), wire)
  {
    hide ByEngine;
  }

  lemma ToldIsDue(s: System, i: I.Step<Bid>)
    requires Inv(s) && Enabled(s, Redis(i))
    ensures forall x :: x in Answered(s, Redis(i)) ==> Due(Apply(s, Redis(i)).wire, s.errands.reqs, s.w.acks, x)
  {
    hide W.Inv, Repeated, AllDue, BatchesServed, TxsServed;
  }

  lemma StepKeeps(s: System, step: Step)
    requires Inv(s) && Enabled(s, step)
    ensures Inv(Apply(s, step)) && s.wire <= Apply(s, step).wire
  {
    match step
    case Claim(r, req) => ClaimKeeps(s, r, req);
    case For(_, _) => EngineStepKeeps(s, step);
    case Engines(_) => EngineStepKeeps(s, step);
    case Redis(i) => RedisStepKeeps(s, i);
    case Lose(_) =>
  }

  lemma {:induction false} RunKeeps(s: System, run: seq<Step>)
    requires Inv(s) && Possible(s, run)
    ensures Inv(Exec(s, run))
    decreases |run|
  {
    hide Inv, Enabled, Apply;
    if run != [] {
      StepKeeps(s, run[0]);
      RunKeeps(Apply(s, run[0]), run[1..]);
    }
  }

  lemma StartInv()
    ensures Inv(Start())
  {
    G.EmptyInv();
  }

  /** Every 201 that ever left: an engine's own names a durable row that is the bid its
      very request asked for; a replayed one carries the body that an engine had answered
      to a request of the same key, whose bid it is. */
  lemma EveryAnswerIsItsRequests(run: seq<Step>, x: Sent)
    requires Possible(Start(), run) && x in Exec(Start(), run).wire
    ensures var s := Exec(Start(), run);
            && x.r in s.errands.reqs && s.errands.reqs[x.r].key == x.key && x.key != NO_KEY
            && x.body in s.w.db.bids && x.body.key == Some(x.key)
            && (!x.replayed ==> MadeFor(x.body, s.errands.reqs[x.r]))
            && (x.replayed ==> exists q :: Sent(q, x.key, x.body, false) in s.wire && q in s.errands.reqs
                                           && MadeFor(x.body, s.errands.reqs[q]))
  {
    hide W.Inv, Serves, Repeated, Known, Possible, Exec;
    StartInv();
    RunKeeps(Start(), run);
    var s := Exec(Start(), run);
    assert Due(s.wire, s.errands.reqs, s.w.acks, x);
    var q := x.r;
    if x.replayed {
      q :| Sent(q, x.key, x.body, false) in s.wire;
      assert Due(s.wire, s.errands.reqs, s.w.acks, Sent(q, x.key, x.body, false));
    }
    SoundBids(s.w, x.body, x.body);
  }

  /** And all the 201s of one key name the same row. */
  lemma OneRowPerAnsweredKey(run: seq<Step>, x: Sent, y: Sent)
    requires Possible(Start(), run) && x in Exec(Start(), run).wire && y in Exec(Start(), run).wire
    requires x.key == y.key
    ensures x.body == y.body
  {
    hide W.Inv, Serves, Repeated, Known, Possible, Exec;
    StartInv();
    RunKeeps(Start(), run);
    EveryAnswerIsItsRequests(run, x);
    EveryAnswerIsItsRequests(run, y);
    Acknowledged(Exec(Start(), run), x);
    Acknowledged(Exec(Start(), run), y);
    SoundBids(Exec(Start(), run).w, x.body, y.body);
  }

  lemma Acknowledged(s: System, x: Sent)
    requires Inv(s) && x in s.wire
    ensures x.body in s.w.acks
  {
    hide W.Inv, Serves, Repeated, Known, MadeFor;
    assert Due(s.wire, s.errands.reqs, s.w.acks, x);
    if x.replayed {
      var q :| Sent(q, x.key, x.body, false) in s.wire;
      assert Due(s.wire, s.errands.reqs, s.w.acks, Sent(q, x.key, x.body, false));
    }
  }

  lemma SoundBids(w: W.World, x: Bid, y: Bid)
    requires W.Inv(w) && x in w.acks && y in w.acks
    ensures x in w.db.bids && (x.key.Some? && x.key == y.key ==> x == y)
  {
    hide W.ShardInv, W.TxsInv, Pending, SoundAt;
    var i :| 0 <= i < |w.db.bids| && w.db.bids[i] == x;
    var j :| 0 <= j < |w.db.bids| && w.db.bids[j] == y;
    if x.key.Some? && x.key == y.key {
      assert Clash(w.db.bids[i], w.db.bids[j]) && Clash(w.db.bids[j], w.db.bids[i]);
    }
  }

  /** A claim that replays sends a body that an engine had already sent for the key, and
      moves nothing else: Redis tells a client nothing that an engine had not. */
  lemma AReplayRepeatsAnAnswer(run: seq<Step>, r: nat, req: Request)
    requires Possible(Start(), run) && Enabled(Exec(Start(), run), Claim(r, req))
    requires var redis := Exec(Start(), run).redis; I.ClaimOn(redis.entries, req.key, redis.now).1.Replay?
    ensures var s := Exec(Start(), run);
            var x := Sent(r, req.key, I.ClaimOn(s.redis.entries, req.key, s.redis.now).1.body, true);
            && Answered(s, Claim(r, req)) == {x} && ByEngine(s.wire, x.key, x.body)
            && Apply(s, Claim(r, req)).w == s.w && Apply(s, Claim(r, req)).redis == s.redis
  {
    hide Possible, Exec, Serves, W.Inv, AllDue;
    StartInv();
    RunKeeps(Start(), run);
  }

  /* ---- and who is acknowledged is answered ---- */

  /** The step puts a row of the request on record as acknowledged. */
  predicate Acknowledges(s: System, step: Step, r: nat) {
    match step
    case For(q, Optimistic(_, _, _, _, heard)) => q == r && heard
    case Engines(CommitTx(t, heard)) => heard && t in s.errands.inTx && s.errands.inTx[t] == r
    case Engines(CommitAcked(k, _)) => Some(r) in s.errands.RidersOf(k)
    case _ => false
  }

  lemma {:induction false} TellReaches(told: map<nat, Bid>, rows: seq<Bid>, riders: seq<Option<nat>>, r: nat)
    requires |rows| == |riders| && Some(r) in riders
    ensures r in Tell(told, rows, riders) && Tell(told, rows, riders)[r] in rows
    decreases |rows|
  {
    var n := |rows| - 1;
    if riders[n] != Some(r) {
      assert riders == riders[..n] + [riders[n]];
      TellReaches(told, rows[..n], riders[..n], r);
    }
  }

  /** A request whose row a step acknowledges is told of a row of that very step, and if
      its handler still waits the 201 with it can go out. */
  lemma AcknowledgedCanBeAnswered(s: System, step: Step, r: nat)
    requires Inv(s) && Enabled(s, step) && Acknowledges(s, step, r)
    requires r in s.redis.live && s.redis.live[r].phase.InEngine?
    ensures var s' := Apply(s, step);
            && r in s'.errands.told
            && s'.errands.told[r] in G.Inserted(s.w, step.e)
            && var done := Redis(I.EngineDone(r, Some(s'.errands.told[r])));
               && Enabled(s', done)
               && Sent(r, s.redis.live[r].key, s'.errands.told[r], false) in Apply(s', done).wire
  {
    hide W.Inv, Commits, Consistent, W.Free, W.OptimisticGuard, Repeated, AllDue, Known, Tell;
    if step.Engines? && step.e.CommitAcked? {
      assert Rides(s.errands.reqs, s.w.shards[step.e.s].batch, s.errands.RidersOf(step.e.s));
      TellReaches(s.errands.told, s.w.shards[step.e.s].batch, s.errands.RidersOf(step.e.s), r);
    }
  }

  lemma OneMore(s: System, step: Step, rest: seq<Step>)
    requires Enabled(s, step) && Possible(Apply(s, step), rest)
    ensures Possible(s, [step] + rest) && Exec(s, [step] + rest) == Exec(Apply(s, step), rest)
  {
    hide Enabled, Apply;
    assert ([step] + rest)[1..] == rest;
  }

  lemma {:induction false} Append(s: System, run: seq<Step>, more: seq<Step>)
    requires Possible(s, run) && Possible(Exec(s, run), more)
    ensures Possible(s, run + more) && Exec(s, run + more) == Exec(Exec(s, run), more)
    decreases |run|
  {
    hide Enabled, Apply;
    if run == [] {
      assert run + more == more;
    } else {
      Append(Apply(s, run[0]), run[1..], more);
      assert (run + more)[1..] == run[1..] + more;
    }
  }

  const ASKED := Request(0, 7, 100, 1)
  const MADE := Bid(1, 0, 7, 100, 1, Some(1), 0)

  /** The whole way once: a request claims its key, its bid waits in a shard's batch, the
      commit is acknowledged, the 201 goes out and is stored, and a retry under the same
      key is replayed the same body. */
  lemma ARetryIsReplayed() returns (run: seq<Step>)
    ensures Possible(Start(), run)
    ensures Exec(Start(), run).wire == {Sent(1, 1, MADE, false), Sent(2, 1, MADE, true)}
    ensures Exec(Start(), run).w.db.bids == [MADE]
  {
    hide Possible, Exec;
    var s5, first := UpToTheDecision();
    var s6 := BatchAcknowledged(s5);
    var commit := Engines(W.CommitAcked(0, map[0 := Stamp(Stuck.OPENED, MADE)]));
    var rest := AnsweredAndRetried(s6);
    OneMore(s5, commit, rest);
    Append(Start(), first, [commit] + rest);
    run := first + ([commit] + rest);
  }

  /** One auction, one shard that remembers it. */
  lemma Opened() returns (s: System, run: seq<Step>)
    ensures Possible(Start(), run) && Exec(Start(), run) == s
    ensures s.w.db == Db(map[0 := Stuck.OPENED], []) && s.w.txs == map[] && s.w.acks == {}
    ensures s.w.shards == map[0 := W.Shard(map[0 := Stuck.OPENED.State()], [])]
    ensures s.redis == I.Start<Bid>() && s.wire == {}
    ensures s.errands.reqs == map[] && s.errands.RidersOf(0) == [] && s.errands.told == map[]
  {
    var e1, e2, e3 := Engines(W.Create(0, Stuck.OPENED)), Engines(W.Boot(0)), Engines(W.Hydrate(0, 0));
    var s1 := Apply(Start(), e1);
    var s2 := Apply(s1, e2);
    s := Apply(s2, e3);
    OneMore(s2, e3, []);
    OneMore(s1, e2, [e3]);
    OneMore(Start(), e1, [e2, e3]);
    run := [e1, e2, e3];
  }

  lemma UpToTheDecision() returns (s: System, run: seq<Step>)
    ensures Possible(Start(), run) && Exec(Start(), run) == s
    ensures s.w.db == Db(map[0 := Stuck.OPENED], []) && s.w.txs == map[] && s.w.acks == {}
    ensures s.w.shards.Keys == {0} && s.w.shards[0].batch == [MADE]
    ensures s.redis == I.Apply(I.Start<Bid>(), I.Claim(1, 1)) && s.wire == {}
    ensures s.errands.reqs == map[1 := ASKED] && s.errands.RidersOf(0) == [Some(1)] && s.errands.told == map[]
  {
    hide Possible, Exec, Enabled, Apply;
    var s3, first := Opened();
    var e4, e5 := Claim(1, ASKED), For(1, W.Decide(0, ASKED, 1, 0, 0));
    var s4;
    s4, s := ClaimedAndDecided(s3);
    NoMore(s);
    OneMore(s4, e5, []);
    assert [e5] + [] == [e5];
    OneMore(s3, e4, [e5]);
    Append(Start(), first, [e4] + [e5]);
    run := first + ([e4] + [e5]);
  }

  lemma ClaimedAndDecided(s: System) returns (s1: System, s2: System)
    requires s.w.db == Db(map[0 := Stuck.OPENED], [])
    requires s.w.shards == map[0 := W.Shard(map[0 := Stuck.OPENED.State()], [])]
    requires s.redis == I.Start<Bid>() && s.wire == {}
    requires s.errands.reqs == map[] && s.errands.RidersOf(0) == [] && s.errands.told == map[]
    ensures Enabled(s, Claim(1, ASKED)) && s1 == Apply(s, Claim(1, ASKED))
    ensures var decide := For(1, W.Decide(0, ASKED, 1, 0, 0)); Enabled(s1, decide) && s2 == Apply(s1, decide)
    ensures s2.w.db == s.w.db && s2.w.txs == s.w.txs && s2.w.acks == s.w.acks
    ensures s2.w.shards.Keys == {0} && s2.w.shards[0].batch == [MADE]
    ensures s2.redis == I.Apply(I.Start<Bid>(), I.Claim(1, 1)) && s2.wire == {}
    ensures s2.errands.reqs == map[1 := ASKED] && s2.errands.RidersOf(0) == [Some(1)] && s2.errands.told == map[]
  {
    s1 := Apply(s, Claim(1, ASKED));
    s2 := Apply(s1, For(1, W.Decide(0, ASKED, 1, 0, 0)));
  }

  lemma NoMore(s: System)
    ensures Possible(s, []) && Exec(s, []) == s
  {
  }

  lemma BatchAcknowledged(s: System) returns (s': System)
    requires s.w.db == Db(map[0 := Stuck.OPENED], []) && s.w.txs == map[] && s.w.acks == {} && s.wire == {}
    requires s.w.shards.Keys == {0} && s.w.shards[0].batch == [MADE]
    requires s.errands.reqs == map[1 := ASKED] && s.errands.RidersOf(0) == [Some(1)] && s.errands.told == map[]
    ensures var commit := Engines(W.CommitAcked(0, map[0 := Stamp(Stuck.OPENED, MADE)]));
            Enabled(s, commit) && s' == Apply(s, commit)
    ensures s'.w.db.bids == [MADE] && s'.redis == s.redis && s'.wire == {}
    ensures s'.errands.reqs == map[1 := ASKED] && s'.errands.told == map[1 := MADE]
  {
    hide Commits;
    var after := map[0 := Stamp(Stuck.OPENED, MADE)];
    MadeCommits();
    assert s.w.db.bids + [MADE] == [MADE];
    assert Tell(map[], [MADE], [Some(1)]) == map[1 := MADE] by {
      assert [MADE][..0] == [] && [Some(1)][..0] == [];
    }
    s' := Apply(s, Engines(W.CommitAcked(0, after)));
  }

  lemma MadeCommits()
    ensures Commits(Db(map[0 := Stuck.OPENED], []), [MADE], Db(map[0 := Stamp(Stuck.OPENED, MADE)], [MADE]))
  {
    assert [MADE][0].auction == 0;
    assert [] + [MADE] == [MADE];
  }

  lemma AnsweredAndRetried(s: System) returns (run: seq<Step>)
    requires s.redis == I.Apply(I.Start<Bid>(), I.Claim(1, 1)) && s.wire == {}
    requires s.errands.reqs == map[1 := ASKED] && s.errands.told == map[1 := MADE]
    ensures Possible(s, run) && Exec(s, run).w == s.w
    ensures Exec(s, run).wire == {Sent(1, 1, MADE, false), Sent(2, 1, MADE, true)}
  {
    hide Possible, Exec;
    var e1, e2, e3 := Redis(I.EngineDone(1, Some(MADE))), Redis(I.Command(1)), Claim(2, ASKED);
    var s1 := Apply(s, e1);
    assert s1.wire == {Sent(1, 1, MADE, false)};
    var s2 := Apply(s1, e2);
    var s3 := Apply(s2, e3);
    NoMore(s3);
    OneMore(s2, e3, []);
    OneMore(s1, e2, [e3] + []);
    OneMore(s, e1, [e2] + ([e3] + []));
    run := [e1] + ([e2] + ([e3] + []));
  }

  /* ---- the client and the comparison ---- */

  /** What can be read off the wire. */
  function Readable(wire: set<Sent>): set<(Key, Bid)> {
    set x | x in wire :: (x.key, x.body)
  }

  function KeysOf(answers: set<(Key, Bid)>): set<Key> {
    set x | x in answers :: x.0
  }

  /** A set of keys that each have a row is no larger than the table. */
  lemma {:induction false} KeysFitInRows(keys: set<Key>, bids: seq<Bid>)
    requires forall k :: k in keys ==> exists i :: 0 <= i < |bids| && bids[i].key == Some(k)
    ensures |keys| <= |bids|
  {
    if bids == [] {
      assert keys == {};
    } else {
      var front, last := bids[..|bids| - 1], bids[|bids| - 1];
      var rest := if last.key.Some? then keys - {last.key.value} else keys;
      forall k | k in rest ensures exists i :: 0 <= i < |front| && front[i].key == Some(k) {
        var i :| 0 <= i < |bids| && bids[i].key == Some(k);
        assert front[i].key == Some(k);
      }
      KeysFitInRows(rest, front);
      assert keys <= rest + (if last.key.Some? then {last.key.value} else {});
    }
  }

  datatype Finding = OK | Warn | Fail

  function Worse(x: Finding, y: Finding): Finding {
    if x.Fail? || y.Fail? then Fail else if x.Warn? || y.Warn? then Warn else OK
  }

  /** I5. cut is chaos or an interrupted cell. */
  function CheckDurability(dbBids: nat, dbMaxSeq: nat, accepted: nat, maxSeqSeen: nat, cut: bool): Finding {
    var ahead := if cut then Warn else Fail;
    var counts := if dbBids < accepted then Fail else if dbBids > accepted then ahead else OK;
    if dbMaxSeq < maxSeqSeen then Worse(counts, Fail)
    else if dbMaxSeq > maxSeqSeen then Worse(counts, ahead)
    else counts
  }

  /** What I5 says: a database behind the client fails it whatever the excuse, one that
      is ahead fails it without a cut and warns under one. */
  lemma TheVerdictIsByDirection(dbBids: nat, dbMaxSeq: nat, accepted: nat, maxSeqSeen: nat, cut: bool)
    ensures var f := CheckDurability(dbBids, dbMaxSeq, accepted, maxSeqSeen, cut);
            var behind := dbBids < accepted || dbMaxSeq < maxSeqSeen;
            var differs := dbBids != accepted || dbMaxSeq != maxSeqSeen;
            && (f == Fail <==> behind || (differs && !cut))
            && (f == OK <==> !differs)
  {
  }

  /** The client counts each logical bid, that is each key, when it first reads a
      201 for it, and the largest seq among those. It may have lost any of them. */
  predicate ClientSaw(wire: set<(Key, Bid)>, read: set<(Key, Bid)>, accepted: nat, maxSeqSeen: nat) {
    && read <= wire
    && accepted == |KeysOf(read)|
    && (maxSeqSeen == 0 || exists x :: x in read && x.1.seqNo == maxSeqSeen)
  }

  lemma ReadRow(run: seq<Step>, x: (Key, Bid))
    requires Possible(Start(), run) && x in Readable(Exec(Start(), run).wire)
    ensures x.1 in Exec(Start(), run).w.db.bids && x.1.key == Some(x.0)
  {
    hide Possible, Exec;
    var sent :| sent in Exec(Start(), run).wire && x == (sent.key, sent.body);
    EveryAnswerIsItsRequests(run, sent);
  }

  /** Whatever is killed or lost, the database is never behind the client: I5 can
      only complain that the database is ahead, and under a cut it only warns. */
  lemma TheDatabaseIsNeverBehind(run: seq<Step>, read: set<(Key, Bid)>, accepted: nat, maxSeqSeen: nat)
    requires Possible(Start(), run)
    requires ClientSaw(Readable(Exec(Start(), run).wire), read, accepted, maxSeqSeen)
    ensures var bids := Exec(Start(), run).w.db.bids;
            && accepted <= |bids| && maxSeqSeen <= Checker.MaxSeq(bids)
            && CheckDurability(|bids|, Checker.MaxSeq(bids), accepted, maxSeqSeen, true) != Fail
            && (CheckDurability(|bids|, Checker.MaxSeq(bids), accepted, maxSeqSeen, false) == Fail <==>
                accepted < |bids| || maxSeqSeen < Checker.MaxSeq(bids))
  {
    hide Possible, Exec;
    var s := Exec(Start(), run);
    var bids := s.w.db.bids;
    forall k | k in KeysOf(read) ensures exists i :: 0 <= i < |bids| && bids[i].key == Some(k) {
      var x :| x in read && x.0 == k;
      ReadRow(run, x);
      var i :| 0 <= i < |bids| && bids[i] == x.1;
    }
    KeysFitInRows(KeysOf(read), bids);
    if maxSeqSeen != 0 {
      var x :| x in read && x.1.seqNo == maxSeqSeen;
      ReadRow(run, x);
      var i :| 0 <= i < |bids| && bids[i] == x.1;
    }
  }
}
