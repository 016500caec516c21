/** The HTTP side of idempotency: what is answered without the engine, what is
    captured of a 201 on its way out, and that a replay is those bytes. */
module Middleware {
  import opened Contract
  import opened ShardEngine
  import I = Idempotency

  type Bytes = seq<nat>

  const CREATED: nat := 201

  /** What a handler does to its writer. */
  datatype Chunk = Header(code: nat) | Body(bytes: Bytes)

  /** The status a script of chunks leaves: the last one set before anything was
      written. */
  function StatusOf(script: seq<Chunk>): nat {
    if script == [] then 200
    else
      var front, last := script[..|script| - 1], script[|script| - 1];
      if last.Header? && !Wrote(front) then last.code else StatusOf(front)
  }

  predicate Wrote(script: seq<Chunk>) {
    exists i :: 0 <= i < |script| && script[i].Body?
  }

  function BytesOf(script: seq<Chunk>): Bytes {
    if script == [] then []
    else
      var last := script[|script| - 1];
      BytesOf(script[..|script| - 1]) + if last.Body? then last.bytes else []
  }

  /** The response writer with the capture around it. */
  class Capture {
    var status: nat
    var written: bool
    var sent: Bytes
    var body: Bytes

    constructor ()
      ensures status == 200 && !written && sent == [] && body == []
    {
      status, written, sent, body := 200, false, [], [];
    }

    method WriteHeader(code: nat)
      modifies this`status
      ensures status == if written then old(status) else code
    {
      if !written {
        status := code;
      }
    }

    method Write(b: Bytes)
      modifies this
      ensures status == old(status) && written && sent == old(sent) + b
      ensures body == if status == CREATED then old(body) + b else old(body)
    {
      if status == CREATED {
        body := body + b;
      }
      written, sent := true, sent + b;
    }

    /** The handlers, to their end or to the chunk at which one panics. What was
        captured is what was sent if the status is 201, and nothing otherwise. */
    method Next(script: seq<Chunk>)
      requires status == 200 && !written && sent == [] && body == []
      modifies this
      ensures status == StatusOf(script) && sent == BytesOf(script)
      ensures body == (if status == CREATED then sent else []) && (written <==> Wrote(script))
    {
      for i := 0 to |script|
        invariant status == StatusOf(script[..i]) && sent == BytesOf(script[..i])
        invariant written <==> Wrote(script[..i])
        invariant body == if status == CREATED then sent else []
        invariant !written ==> sent == []
      {
        assert script[..i + 1][..i] == script[..i];
        assert Wrote(script[..i + 1]) <==> Wrote(script[..i]) || script[i].Body? by {
          assert script[..i + 1] == script[..i] + [script[i]];
          if script[i].Body? {
            assert script[..i + 1][i].Body?;
          }
          if Wrote(script[..i]) {
            var j :| 0 <= j < i && script[..i][j].Body?;
            assert script[..i + 1][j].Body?;
          }
        }
        match script[i] {
          case Header(code) => WriteHeader(code);
          case Body(bytes) => Write(bytes);
        }
      }
      assert script[..|script|] == script;
    }
  }

  datatype Response = Response(status: nat, replayed: bool, body: Bytes)

  class Middleware {
    const store: I.Store<Bytes>
    var replays: nat
    var inFlight: nat
    var attempts: seq<nat>

    constructor (store: I.Store<Bytes>)
      ensures this.store == store && replays == 0 && inFlight == 0 && attempts == []
    {
      this.store, replays, inFlight, attempts := store, 0, 0, [];
    }

    /** One request. script is what the handlers do, up to their end or a panic; claim
        is what befalls the script's call, and cut how much of the finish got through.
        ran tells whether the engine was reached. */
    method Serve(key: Key, isUuid: bool, claim: Fault, script: seq<Chunk>, panics: bool, cut: nat,
                 now: Time, later: Time)
      returns (res: Response, ghost ran: bool)
      modifies this, store
      ensures key == NO_KEY ==> ran && store.entries == old(store.entries)
      ensures key != NO_KEY && !isUuid ==> !ran && res.status == 400 && store.entries == old(store.entries)
      ensures key != NO_KEY && isUuid && claim != Runs ==>
                && !ran && res.status == 503
                && store.entries == if claim == Fails then old(store.entries)
                                    else I.ClaimOn(old(store.entries), key, now).0
      ensures key != NO_KEY && isUuid && claim == Runs ==>
                var (entries, verdict) := I.ClaimOn(old(store.entries), key, now);
                && (verdict.Replay? ==>
                      !ran && res == Response(CREATED, true, verdict.body) && store.entries == old(store.entries))
                && (verdict.Busy? ==> !ran && res.status == 425 && store.entries == old(store.entries))
                && (verdict.Pass? ==>
                      && ran
                      && store.entries == I.FinishedUpTo(
                           entries, key, if StatusOf(script) == CREATED then Some(BytesOf(script)) else None,
                           later, cut)
                      && attempts == old(attempts) + (if StatusOf(script) == CREATED then [verdict.attempts] else [])
                      && (cut > 0 ==>
                            I.ClaimOn(store.entries, key, later).1
                            == if StatusOf(script) == CREATED then I.Replay(BytesOf(script))
                               else I.Pass(verdict.attempts + 1)))
      ensures ran ==> res == if panics && !Wrote(script) then Response(500, false, [])
                             else Response(StatusOf(script), false, BytesOf(script))
      ensures !ran ==> attempts == old(attempts)
    {
      ran := false;
      if key == NO_KEY {
        ran := true;
        var plain := new Capture();
        plain.Next(script);
        return Recovered(plain, panics), true;
      }
      if !isUuid {
        return Response(400, false, []), false;
      }
      if claim == Fails {
        return Response(503, false, []), false;
      }
      var verdict := store.Claim(key, now);
      if claim == Misreported {
        return Response(503, false, []), false;
      }
      if verdict.Replay? {
        replays := replays + 1;
        return Response(CREATED, true, verdict.body), false;
      }
      if verdict.Busy? {
        inFlight := inFlight + 1;
        return Response(425, false, []), false;
      }
      ran := true;
      var captured := new Capture();
      captured.Next(script);
      // deferred: it runs after a panic too
      var accepted := captured.status == CREATED;
      if accepted {
        attempts := attempts + [verdict.attempts];
      }
      store.Finish(key, if accepted then Some(captured.body) else None, later, cut);
      res := Recovered(captured, panics);
    }

    /** gin.Recovery, outside: it can only answer when nothing was written. */
    function Recovered(w: Capture, panics: bool): Response
      reads w
    {
      if panics && !w.written then Response(500, false, []) else Response(w.status, false, w.sent)
    }

    /** A retry of a request whose handlers set 201 gets the bytes they wrote and does not
        reach the engine, whatever other requests and expiries there were in between,
        until the entry's own expiry: the terminal one if the whole finish got through,
        the in-flight one if it was cut. It repeats the first answer exactly unless the
        handlers panicked before they had written anything. */
    method ServeTwice(key: Key, script: seq<Chunk>, panics: bool, again: seq<Chunk>, cut: nat, now: Time, later: Time,
                      others: map<nat, I.Live<Bytes>>, meanwhile: seq<I.Step<Bytes>>)
      returns (first: Response, second: Response, ghost ranAgain: bool)
      requires key != NO_KEY && cut > 0 && StatusOf(script) == CREATED
      requires I.ClaimOn(store.entries, key, now).1.Pass?
      requires forall r :: r in others ==> others[r].key != key
      requires var s := Between(store.entries, key, BytesOf(script), cut, now, later, others);
               I.Possible(s, meanwhile) && I.Exec(s, meanwhile).now < Until(cut, now, later)
      modifies this, store
      ensures second == Response(CREATED, true, BytesOf(script)) && !ranAgain
      ensures first.(replayed := true) == second <==> !(panics && !Wrote(script))
      ensures first == if panics && !Wrote(script) then Response(500, false, [])
                       else Response(CREATED, false, BytesOf(script))
    {
      var s := Between(store.entries, key, BytesOf(script), cut, now, later, others);
      FinishedIsSettled(store.entries, key, BytesOf(script), cut, now, later, others);
      I.SettledUntil(s, meanwhile, key, BytesOf(script), Until(cut, now, later));
      ghost var ran;
      first, ran := Serve(key, true, Runs, script, panics, cut, now, later);
      store.entries := I.Exec(s, meanwhile).entries;
      var retryAt := I.Exec(s, meanwhile).now;
      second, ranAgain := Serve(key, true, Runs, again, false, cut, retryAt, retryAt);
    }
  }

  /** One handler sets 201 and panics before its first byte: the client is told 500, and
      its retry that the bid was accepted. */
  method APanicAfterTheHeaderIsReplayedAsCreated(key: Key, now: Time) returns (first: Response, second: Response)
    requires key != NO_KEY
    ensures first == Response(500, false, []) && second == Response(CREATED, true, [])
  {
    var store := new I.Store<Bytes>();
    var m := new Middleware(store);
    var script := [Header(CREATED)];
    assert script[..0] == [] && StatusOf(script) == CREATED && BytesOf(script) == [];
    ghost var again;
    first, second, again := m.ServeTwice(key, script, true, [], 3, now, now, map[], []);
  }

  /** How long an accepted entry is sure to be there. */
  function Until(cut: nat, now: Time, later: Time): Time {
    if cut > 2 then later + 300_000 else now + 30_000
  }

  /** Redis after the first answer, with the other requests in flight. */
  function Between(entries: I.Entries<Bytes>, key: Key, body: Bytes, cut: nat, now: Time, later: Time,
                   others: map<nat, I.Live<Bytes>>): I.Sys<Bytes>
  {
    I.Sys(I.FinishedUpTo(I.ClaimOn(entries, key, now).0, key, Some(body), later, cut), later, others, map[], map[])
  }

  lemma FinishedIsSettled(entries: I.Entries<Bytes>, key: Key, body: Bytes, cut: nat, now: Time, later: Time,
                          others: map<nat, I.Live<Bytes>>)
    requires I.ClaimOn(entries, key, now).1.Pass? && cut > 0
    requires forall r :: r in others ==> others[r].key != key
    ensures I.Settled(Between(entries, key, body, cut, now, later, others), key, body, Until(cut, now, later))
  {
  }
}
