/** The load generator's side of the durability count: one key per logical bid, kept
    over its retries; the reduction of a batch of responses to one decision; and what
    the counters it publishes amount to. */
module Client {
  import opened Contract
  import opened Tables
  import E = EndToEnd

  const MAX_RETRIES: nat := 10

  /** What the client knows of an auction between requests. */
  datatype View = View(version: nat, minNextBid: Int64)

  /** status 0 is a request with no answer; bid is the body of a 201; view the state a
      body carries, if it does. */
  datatype Response = Response(status: nat, replay: bool, bid: Bid, view: Option<View>)

  datatype Mode = Plain | Concurrent | Replay

  datatype Verdict = Won(res: Response) | Terminal | Retry

  /** A rejection, a 425 or silence: worth another attempt. */
  predicate Retryable(status: nat) {
    status == 409 || status == 422 || status == 425 || status == 0
  }

  /** Which of the responses have the status. */
  function With(responses: seq<Response>, status: nat): set<nat> {
    set i | 0 <= i < |responses| && responses[i].status == status
  }

  /** Silences, and what nobody expects: both are errors. */
  function Unexpected(responses: seq<Response>): set<nat> {
    set i | 0 <= i < |responses| && responses[i].status !in {201, 409, 422, 425, 410, 400}
  }

  /** 201s that came from the store instead of an engine. */
  function Replays(responses: seq<Response>): set<nat> {
    set i | 0 <= i < |responses| && responses[i].status == 201 && responses[i].replay
  }

  datatype Counters = Counters(
    conflict: nat,
    outbid: nat,
    inFlight: nat,
    closed: nat,
    invalid: nat,
    errored: nat,
    replayed: nat,
    transportRetries: nat)

  /** Where the responses to one attempt leave the counters: a silence is retried
      unless another response won. */
  function Tallied(c: Counters, responses: seq<Response>, won: bool): Counters {
    Counters(
      c.conflict + |With(responses, 409)|,
      c.outbid + |With(responses, 422)|,
      c.inFlight + |With(responses, 425)|,
      c.closed + |With(responses, 410)|,
      c.invalid + |With(responses, 400)|,
      c.errored + |Unexpected(responses)|,
      c.replayed + |Replays(responses)|,
      c.transportRetries + if won then 0 else |With(responses, 0)|)
  }

  /** And where the duplicate after an acceptance leaves them. */
  function Demonstrated(c: Counters, res: Response, original: Bid): Counters {
    c.(
      errored := c.errored + if res.status == 201 && res.replay && res.bid == original then 0 else 1,
      replayed := c.replayed + if res.status == 201 && res.replay then 1 else 0,
      inFlight := c.inFlight + if res.status == 425 then 1 else 0)
  }

  /** The 201s aside, every response moves exactly one of those counters. */
  lemma {:induction false} EveryResponseIsCountedOnce(responses: seq<Response>)
    ensures |responses| == |With(responses, 201)| + |With(responses, 409)| + |With(responses, 422)|
                           + |With(responses, 425)| + |With(responses, 410)| + |With(responses, 400)|
                           + |Unexpected(responses)|
  {
    hide With, Unexpected;
    if responses == [] {
      NoResponseYet(View(0, 0), responses);
      assert responses[..0] == responses;
    } else {
      var n := |responses| - 1;
      EveryResponseIsCountedOnce(responses[..n]);
      NextCounted(responses, n);
      assert responses[..n + 1] == responses;
    }
  }

  /** absorb: a view gives way to one at least as new. */
  function Absorbed(known: View, seen: Option<View>): View {
    if seen.Some? && known.version <= seen.value.version then seen.value else known
  }

  predicate Absorbable(res: Response) {
    res.status == 409 || res.status == 422 || res.status == 410
  }

  function Latest(known: View, responses: seq<Response>): View {
    if responses == [] then known
    else
      var last := responses[|responses| - 1];
      var before := Latest(known, responses[..|responses| - 1]);
      if Absorbable(last) then Absorbed(before, last.view) else before
  }

  /** The response says nothing of the auction, or something less new. */
  predicate Older(res: Response, view: View) {
    res.status in {409, 422, 410} && res.view.Some? ==> res.view.value.version < view.version
  }

  predicate LastOfItsVersion(responses: seq<Response>, i: nat, view: View)
    requires i < |responses|
  {
    && responses[i].status in {409, 422, 410} && responses[i].view == Some(view)
    && forall j :: i < j < |responses| ==> Older(responses[j], view)
  }

  /** As new as what was known and as every state that a 409, a 422 or a 410 carried; and
      it is what was known, or the last such state of its version. */
  predicate IsNewest(known: View, responses: seq<Response>, view: View) {
    && known.version <= view.version
    && (forall i :: 0 <= i < |responses| && responses[i].status in {409, 422, 410} && responses[i].view.Some? ==>
          responses[i].view.value.version <= view.version)
    && ((view == known && forall i :: 0 <= i < |responses| ==> Older(responses[i], known))
        || exists i :: 0 <= i < |responses| && LastOfItsVersion(responses, i, view))
  }

  lemma {:induction false} LatestIsTheNewest(known: View, responses: seq<Response>)
    ensures IsNewest(known, responses, Latest(known, responses))
  {
    if responses != [] {
      var front, last := responses[..|responses| - 1], responses[|responses| - 1];
      LatestIsTheNewest(known, front);
      assert forall i :: 0 <= i < |front| ==> front[i] == responses[i];
      var newest := Latest(known, responses);
      if Older(last, newest) {
        if i :| 0 <= i < |front| && LastOfItsVersion(front, i, newest) {
          assert LastOfItsVersion(responses, i, newest);
        }
      } else {
        assert LastOfItsVersion(responses, |front|, newest);
      }
    }
  }

  /** Any 201 decides, and the first one; without one, an unexpected status ends the
      bid; otherwise it may be tried again. */
  function Reduced(responses: seq<Response>): Verdict {
    if responses == [] then Retry
    else
      var last := responses[|responses| - 1];
      match Reduced(responses[..|responses| - 1])
      case Won(res) => Won(res)
      case Terminal => if last.status == 201 then Won(last) else Terminal
      case Retry => if last.status == 201 then Won(last) else if Retryable(last.status) then Retry else Terminal
  }

  predicate WorthAnotherTry(responses: seq<Response>) {
    forall i :: 0 <= i < |responses| ==> responses[i].status in {409, 422, 425, 0}
  }

  /** The first 201 wins; without one the bid ends unless every response is worth
      another attempt. */
  predicate Decides(responses: seq<Response>, verdict: Verdict) {
    match verdict
    case Won(res) =>
      res.status == 201
      && exists i :: 0 <= i < |responses| && responses[i] == res
                     && forall j :: 0 <= j < i ==> responses[j].status != 201
    case Terminal =>
      (forall i :: 0 <= i < |responses| ==> responses[i].status != 201) && !WorthAnotherTry(responses)
    case Retry => WorthAnotherTry(responses)
  }

  /** Which responses there were decides; their order only chooses among 201s. */
  lemma {:induction false} ReducedBySemantics(responses: seq<Response>)
    ensures Decides(responses, Reduced(responses))
  {
    if responses != [] {
      var front, last := responses[..|responses| - 1], responses[|responses| - 1];
      ReducedBySemantics(front);
      assert forall i :: 0 <= i < |front| ==> responses[i] == front[i];
    }
  }

  lemma NoResponseYet(known: View, responses: seq<Response>)
    ensures forall s :: |With(responses[..0], s)| == 0
    ensures |Replays(responses[..0])| == |Unexpected(responses[..0])| == 0
    ensures Latest(known, responses[..0]) == known && Reduced(responses[..0]) == Retry
  {
  }

  lemma NeverOlder(known: View, responses: seq<Response>)
    ensures known.version <= Latest(known, responses).version
  {
    LatestIsTheNewest(known, responses);
  }

  predicate AllReceived(received: seq<(Key, Response)>, key: Key, responses: seq<Response>) {
    forall i :: 0 <= i < |responses| ==> (key, responses[i]) in received
  }

  lemma WonWasReceived(received: seq<(Key, Response)>, key: Key, responses: seq<Response>)
    requires AllReceived(received, key, responses)
    ensures Reduced(responses).Won? ==>
              (key, Reduced(responses).res) in received && Reduced(responses).res.status == 201
  {
    ReducedBySemantics(responses);
  }

  /** One more response: the next turn of the loop over them. */
  lemma NextResponse(known: View, responses: seq<Response>, i: nat)
    requires i < |responses|
    ensures Latest(known, responses[..i + 1])
            == if Absorbable(responses[i]) then Absorbed(Latest(known, responses[..i]), responses[i].view)
               else Latest(known, responses[..i])
    ensures Reduced(responses[..i + 1]) ==
              match Reduced(responses[..i])
              case Won(res) => Won(res)
              case Terminal => if responses[i].status == 201 then Won(responses[i]) else Terminal
              case Retry =>
                if responses[i].status == 201 then Won(responses[i])
                else if Retryable(responses[i].status) then Retry else Terminal
  {
    assert responses[..i + 1][..i] == responses[..i];
  }

  lemma NextWith(responses: seq<Response>, i: nat, status: nat)
    requires i < |responses|
    ensures |With(responses[..i + 1], status)|
            == |With(responses[..i], status)| + if responses[i].status == status then 1 else 0
  {
    assert With(responses[..i + 1], status)
           == With(responses[..i], status) + if responses[i].status == status then {i} else {};
  }

  lemma NextReplay(responses: seq<Response>, i: nat)
    requires i < |responses|
    ensures |Replays(responses[..i + 1])|
            == |Replays(responses[..i])| + if responses[i].status == 201 && responses[i].replay then 1 else 0
  {
    assert Replays(responses[..i + 1])
           == Replays(responses[..i]) + if responses[i].status == 201 && responses[i].replay then {i} else {};
  }

  lemma NextUnexpected(responses: seq<Response>, i: nat)
    requires i < |responses|
    ensures |Unexpected(responses[..i + 1])|
            == |Unexpected(responses[..i])| + if responses[i].status in {201, 409, 422, 425, 410, 400} then 0 else 1
  {
    assert Unexpected(responses[..i + 1])
           == Unexpected(responses[..i]) + if responses[i].status in {201, 409, 422, 425, 410, 400} then {} else {i};
  }

  lemma NextCounted(responses: seq<Response>, i: nat)
    requires i < |responses|
    ensures forall s :: |With(responses[..i + 1], s)|
                        == |With(responses[..i], s)| + if responses[i].status == s then 1 else 0
    ensures |Replays(responses[..i + 1])|
            == |Replays(responses[..i])| + if responses[i].status == 201 && responses[i].replay then 1 else 0
    ensures |Unexpected(responses[..i + 1])|
            == |Unexpected(responses[..i])| + if responses[i].status in {201, 409, 422, 425, 410, 400} then 0 else 1
  {
    hide With, Replays, Unexpected;
    forall s ensures |With(responses[..i + 1], s)|
                     == |With(responses[..i], s)| + if responses[i].status == s then 1 else 0 {
      NextWith(responses, i, s);
    }
    NextReplay(responses, i);
    NextUnexpected(responses, i);
  }

  lemma {:induction false} LatestConcat(known: View, xs: seq<Response>, ys: seq<Response>)
    ensures Latest(known, xs + ys) == Latest(Latest(known, xs), ys)
    decreases |ys|
  {
    if ys == [] {
      assert xs + ys == xs;
    } else {
      assert (xs + ys)[..|xs + ys| - 1] == xs + ys[..|ys| - 1];
      LatestConcat(known, xs, ys[..|ys| - 1]);
    }
  }

  /* ---- what the server will send ---- */

  const SILENCE := Response(0, false, Bid(0, 0, 0, 0, 0, None, 0), None)

  function Nth(answers: seq<Response>, j: nat): Response {
    if j < |answers| then answers[j] else SILENCE
  }

  function First(answers: seq<Response>, n: nat): seq<Response> {
    seq(n, j requires 0 <= j < n => Nth(answers, j))
  }

  function After(answers: seq<Response>, n: nat): seq<Response> {
    if n <= |answers| then answers[n..] else []
  }

  /** Requests answered by the end of the first n attempts: the first may be sent twice. */
  function Asked(mode: Mode, n: nat): nat {
    if mode == Concurrent && n > 0 then n + 1 else n
  }

  /** The responses to the k-th attempt. */
  function Round(answers: seq<Response>, mode: Mode, k: nat): seq<Response> {
    First(After(answers, Asked(mode, k)), Asked(mode, k + 1) - Asked(mode, k))
  }

  /** Every response to the first n attempts was worth another one. */
  predicate Retried(answers: seq<Response>, mode: Mode, n: nat) {
    forall k :: 0 <= k < n ==> WorthAnotherTry(Round(answers, mode, k))
  }

  /** What is known after n attempts. */
  function KnownAfter(start: View, answers: seq<Response>, mode: Mode, n: nat): View {
    Latest(start, First(answers, Asked(mode, n)))
  }

  /** From base on, each request carries the key of its bid, and the amount and the
      version known from all that was heard in the attempts before its own. */
  predicate Aimed(sent: seq<(Key, View)>, base: nat, key: Key, start: View, answers: seq<Response>, mode: Mode, n: nat)
  {
    && |sent| >= base + Asked(mode, n)
    && forall k, j :: 0 <= k < n && base + Asked(mode, k) <= j
                      < (if k == n - 1 then |sent| else base + Asked(mode, k + 1)) ==>
         sent[j] == (key, KnownAfter(start, answers, mode, k))
  }

  /** The same request, so many times more. */
  predicate SentMore(before: seq<(Key, View)>, sent: seq<(Key, View)>, count: nat, key: Key, aim: View) {
    && before <= sent && |sent| == |before| + count
    && forall j :: |before| <= j < |sent| ==> sent[j] == (key, aim)
  }

  lemma SentGrew(before: seq<(Key, View)>, sent: seq<(Key, View)>, count: nat, key: Key, aim: View)
    requires SentMore(before, sent, count, key, aim)
    ensures before <= sent && |sent| == |before| + count
  {
  }

  lemma SentTwice(s: seq<(Key, View)>, s1: seq<(Key, View)>, s2: seq<(Key, View)>, n: nat, m: nat, key: Key, aim: View)
    requires SentMore(s, s1, n, key, aim) && SentMore(s1, s2, m, key, aim)
    ensures SentMore(s, s2, n + m, key, aim)
  {
  }

  lemma OneMoreAttempt(start: View, answers: seq<Response>, mode: Mode, n: nat)
    ensures var count := Asked(mode, n + 1) - Asked(mode, n);
            && count == (if mode == Concurrent && n == 0 then 2 else 1)
            && After(After(answers, Asked(mode, n)), count) == After(answers, Asked(mode, n + 1))
            && Round(answers, mode, n) == First(After(answers, Asked(mode, n)), count)
            && Latest(KnownAfter(start, answers, mode, n), Round(answers, mode, n))
               == KnownAfter(start, answers, mode, n + 1)
  {
    var heard, round := First(answers, Asked(mode, n)), Round(answers, mode, n);
    assert heard + round == First(answers, Asked(mode, n + 1));
    LatestConcat(start, heard, round);
  }

  lemma OneMoreAimed(before: seq<(Key, View)>, sent: seq<(Key, View)>, count: nat, base: nat, key: Key, start: View,
                     answers: seq<Response>, mode: Mode, n: nat)
    requires Aimed(before, base, key, start, answers, mode, n) && |before| == base + Asked(mode, n)
    requires count >= Asked(mode, n + 1) - Asked(mode, n)
    requires SentMore(before, sent, count, key, KnownAfter(start, answers, mode, n))
    ensures Aimed(sent, base, key, start, answers, mode, n + 1)
  {
    hide KnownAfter;
  }

  lemma NothingAsked(sent: seq<(Key, View)>, key: Key, start: View, answers: seq<Response>, mode: Mode)
    ensures KnownAfter(start, answers, mode, 0) == start && After(answers, Asked(mode, 0)) == answers
    ensures Aimed(sent, |sent|, key, start, answers, mode, 0)
  {
  }

  lemma NotOlder(start: View, answers: seq<Response>, mode: Mode, n: nat)
    ensures start.version <= KnownAfter(start, answers, mode, n).version
  {
    NeverOlder(start, First(answers, Asked(mode, n)));
  }

  lemma VerdictOf(responses: seq<Response>)
    ensures Reduced(responses).Won? <==> With(responses, 201) != {}
    ensures Reduced(responses).Retry? <==> WorthAnotherTry(responses)
  {
    ReducedBySemantics(responses);
    if i :| 0 <= i < |responses| && responses[i].status == 201 {
      assert i in With(responses, 201);
    }
  }

  /** bids_accepted is the number of distinct keys answered, each by a 201 that was
      received for it, and seq_seen.max is the largest seq among those. */
  ghost predicate Counted(read: set<(Key, Bid)>, received: seq<(Key, Response)>, accepted: nat, maxSeqSeen: nat) {
    && accepted == |E.KeysOf(read)|
    && (maxSeqSeen == 0 || exists x :: x in read && x.1.seqNo == maxSeqSeen)
    && (forall x :: x in read ==> x.1.seqNo <= maxSeqSeen)
    && forall x :: x in read ==> Received201(received, x.0, x.1)
  }

  ghost predicate Received201(received: seq<(Key, Response)>, key: Key, b: Bid) {
    exists r :: (key, r) in received && r.status == 201 && r.bid == b
  }

  lemma MoreReceived(read: set<(Key, Bid)>, before: seq<(Key, Response)>, after: seq<(Key, Response)>,
                     accepted: nat, maxSeqSeen: nat)
    requires Counted(read, before, accepted, maxSeqSeen) && before <= after
    ensures Counted(read, after, accepted, maxSeqSeen)
  {
    forall x | x in read ensures Received201(after, x.0, x.1) {
      assert Received201(before, x.0, x.1);
      var r :| (x.0, r) in before && r.status == 201 && r.bid == x.1;
      assert (x.0, r) in after;
    }
  }

  lemma OneMoreAccepted(read: set<(Key, Bid)>, received: seq<(Key, Response)>, accepted: nat, maxSeqSeen: nat,
                        key: Key, res: Response)
    requires Counted(read, received, accepted, maxSeqSeen)
    requires key !in E.KeysOf(read) && res.status == 201 && (key, res) in received
    ensures Counted(read + {(key, res.bid)}, received, accepted + 1,
                    if res.bid.seqNo > maxSeqSeen then res.bid.seqNo else maxSeqSeen)
  {
    var read' := read + {(key, res.bid)};
    assert (key, res.bid) in read';
    assert E.KeysOf(read') == E.KeysOf(read) + {key};
    assert Received201(received, key, res.bid);
    if maxSeqSeen != 0 {
      var x :| x in read && x.1.seqNo == maxSeqSeen;
      assert x in read';
    }
  }

  /** What the durability check assumes of a client is what the client keeps, when
      every 201 it received was on the wire. */
  lemma CountedIsWhatTheCheckAssumes(wire: set<(Key, Bid)>, read: set<(Key, Bid)>, received: seq<(Key, Response)>,
                                     accepted: nat, maxSeqSeen: nat)
    requires Counted(read, received, accepted, maxSeqSeen)
    requires forall i :: 0 <= i < |received| && received[i].1.status == 201 ==>
               (received[i].0, received[i].1.bid) in wire
    ensures E.ClientSaw(wire, read, accepted, maxSeqSeen)
  {
    forall x | x in read ensures x in wire {
      assert Received201(received, x.0, x.1);
    }
  }

  class Bidder {
    var known: map<Uuid, View>
    var counters: Counters
    var accepted: nat
    var exhausted: nat
    var attempts: nat
    var duplicatesSelected: nat
    var duplicatesInjected: nat
    var maxSeqSeen: nat
    var answers: seq<Response>        // what the server will send; after that, silence
    ghost var read: set<(Key, Bid)>   // the 201 that decided each logical bid
    ghost var received: seq<(Key, Response)>
    ghost var sent: seq<(Key, View)>  // each request: the amount and the version it carried

    constructor (answers: seq<Response>)
      ensures Valid() && this.answers == answers && read == {} && received == [] && sent == []
    {
      known, this.answers, read, received, sent := map[], answers, {}, [], [];
      accepted, exhausted, attempts, maxSeqSeen, duplicatesSelected, duplicatesInjected := 0, 0, 0, 0, 0, 0;
      counters := Counters(0, 0, 0, 0, 0, 0, 0, 0);
      assert E.KeysOf({}) == {};
    }

    ghost predicate Valid()
      reads this
    {
      Counted(read, received, accepted, maxSeqSeen)
    }

    method Post(key: Key, view: View) returns (res: Response)
      requires Valid()
      modifies this`answers, this`received, this`sent
      ensures Valid() && received == old(received) + [(key, res)] && sent == old(sent) + [(key, view)]
      ensures res == Nth(old(answers), 0) && answers == After(old(answers), 1)
    {
      hide Counted;
      res := SILENCE;
      if answers != [] {
        res, answers := answers[0], answers[1..];
      }
      MoreReceived(read, received, received + [(key, res)], accepted, maxSeqSeen);
      received, sent := received + [(key, res)], sent + [(key, view)];
    }

    method ReduceResponses(responses: seq<Response>, view: View) returns (verdict: Verdict, after: View)
      modifies this`counters
      ensures verdict == Reduced(responses) && after == Latest(view, responses)
      ensures Decides(responses, verdict) && IsNewest(view, responses, after)
      ensures counters == Tallied(old(counters), responses, verdict.Won?)
      ensures counters.conflict == old(counters.conflict) + |With(responses, 409)|
      ensures counters.outbid == old(counters.outbid) + |With(responses, 422)|
      ensures counters.inFlight == old(counters.inFlight) + |With(responses, 425)|
      ensures counters.closed == old(counters.closed) + |With(responses, 410)|
      ensures counters.invalid == old(counters.invalid) + |With(responses, 400)|
      ensures counters.errored == old(counters.errored) + |Unexpected(responses)|
      ensures counters.replayed == old(counters.replayed) + |Replays(responses)|
      ensures counters.transportRetries
              == old(counters.transportRetries) + if verdict.Won? then 0 else |With(responses, 0)|
    {
      hide With, Replays, Unexpected, Latest, Reduced, Absorbed, Decides, IsNewest;
      NoResponseYet(view, responses);
      after := view;
      var first: Option<Response> := None;
      var terminal, transports := false, 0;
      for i := 0 to |responses|
        invariant after == Latest(view, responses[..i])
        invariant counters == Tallied(old(counters), responses[..i], true) && transports == |With(responses[..i], 0)|
        invariant Reduced(responses[..i])
                  == if first.Some? then Won(first.value) else if terminal then Terminal else Retry
      {
        var res := responses[i];
        NextResponse(view, responses, i);
        NextCounted(responses, i);
        if res.status == 201 {
          if res.replay {
            counters := counters.(replayed := counters.replayed + 1);
          }
          if first.None? {
            first := Some(res);
          }
          continue;
        }
        if res.status == 409 || res.status == 422 {
          if res.status == 409 {
            counters := counters.(conflict := counters.conflict + 1);
          } else {
            counters := counters.(outbid := counters.outbid + 1);
          }
          after := Absorbed(after, res.view);
          continue;
        }
        if res.status == 425 {
          counters := counters.(inFlight := counters.inFlight + 1);
          continue;
        }
        if res.status == 0 {
          counters, transports := counters.(errored := counters.errored + 1), transports + 1;
          continue;
        }
        if res.status == 410 {
          counters := counters.(closed := counters.closed + 1);
          after := Absorbed(after, res.view);
        } else if res.status == 400 {
          counters := counters.(invalid := counters.invalid + 1);
        } else {
          counters := counters.(errored := counters.errored + 1);
        }
        terminal := true;
      }
      assert responses[..|responses|] == responses;
      ReducedBySemantics(responses);
      LatestIsTheNewest(view, responses);
      if first.Some? {
        return Won(first.value), after;
      }
      if transports > 0 {
        counters := counters.(transportRetries := counters.transportRetries + transports);
      }
      verdict := if terminal then Terminal else Retry;
    }

    method Send(key: Key, view: View, twice: bool) returns (responses: seq<Response>)
      requires Valid()
      modifies this`answers, this`received, this`sent, this`duplicatesInjected
      ensures Valid() && old(received) <= received && AllReceived(received, key, responses)
      ensures var n := if twice then 2 else 1;
              && responses == First(old(answers), n) && answers == After(old(answers), n)
              && SentMore(old(sent), sent, n, key, view)
              && duplicatesInjected == old(duplicatesInjected) + n - 1
    {
      hide Counted;
      var first := Post(key, view);
      assert (key, first) in received;
      responses := [first];
      if twice {
        duplicatesInjected := duplicatesInjected + 1;
        var second := Post(key, view);
        assert (key, second) in received;
        responses := [first, second];
      }
    }

    /** The optional duplicate after an acceptance: only a replay of the very same body
        is no error. */
    method DemonstrateReplay(key: Key, view: View, original: Bid)
      requires Valid()
      modifies this`answers, this`received, this`sent, this`duplicatesInjected, this`counters
      ensures Valid() && old(received) <= received && sent == old(sent) + [(key, view)]
      ensures answers == After(old(answers), 1) && duplicatesInjected == old(duplicatesInjected) + 1
      ensures counters == Demonstrated(old(counters), Nth(old(answers), 0), original)
      ensures var res := Nth(old(answers), 0);
              && (counters.errored == old(counters.errored) <==> res.status == 201 && res.replay && res.bid == original)
              && (counters.replayed > old(counters.replayed) <==> res.status == 201 && res.replay)
              && (counters.inFlight > old(counters.inFlight) <==> res.status == 425)
    {
      hide Counted;
      duplicatesInjected := duplicatesInjected + 1;
      var res := Post(key, view);
      var replay := res.status == 201 && res.replay;
      if replay {
        counters := counters.(replayed := counters.replayed + 1);
      }
      if res.status == 425 {
        counters := counters.(inFlight := counters.inFlight + 1);
      }
      if !replay || res.bid != original {
        counters := counters.(errored := counters.errored + 1);
      }
    }

    method Accept(key: Key, a: Uuid, res: Response)
      requires Valid() && key !in E.KeysOf(read) && res.status == 201 && (key, res) in received && a in known
      modifies this`known, this`accepted, this`maxSeqSeen, this`read
      ensures Valid() && read == old(read) + {(key, res.bid)} && accepted == old(accepted) + 1
      ensures known == old(known)[a := Absorbed(old(known)[a], res.view)]
    {
      hide Counted, E.KeysOf;
      OneMoreAccepted(read, received, accepted, maxSeqSeen, key, res);
      known := known[a := Absorbed(known[a], res.view)];
      accepted, read := accepted + 1, read + {(key, res.bid)};
      maxSeqSeen := if res.bid.seqNo > maxSeqSeen then res.bid.seqNo else maxSeqSeen;
    }

    /** An acceptance, and the duplicate that some of them are followed by. */
    method Conclude(key: Key, a: Uuid, aim: View, mode: Mode, res: Response)
      requires Valid() && key !in E.KeysOf(read) && res.status == 201 && (key, res) in received && a in known
      modifies this`known, this`accepted, this`maxSeqSeen, this`read, this`answers, this`received, this`sent,
               this`duplicatesInjected, this`counters
      ensures Valid() && read == old(read) + {(key, res.bid)} && accepted == old(accepted) + 1
      ensures old(received) <= received
      ensures known == old(known)[a := Absorbed(old(known)[a], res.view)]
      ensures var n := if mode == Replay then 1 else 0;
              && SentMore(old(sent), sent, n, key, aim)
              && duplicatesInjected == old(duplicatesInjected) + n
      ensures counters == if mode == Replay then Demonstrated(old(counters), Nth(old(answers), 0), res.bid)
                          else old(counters)
    {
      hide Counted, E.KeysOf;
      Accept(key, a, res);
      if mode == Replay {
        DemonstrateReplay(key, aim, res.bid);
      }
    }

    /** One turn of the retry loop: what the requests carry is what is known, and what is
        learnt from the responses is known from then on. */
    method Attempt(key: Key, a: Uuid, mode: Mode, twice: bool) returns (verdict: Verdict)
      requires Valid() && key !in E.KeysOf(read) && a in known
      modifies this
      ensures Valid() && old(received) <= received
      ensures verdict.Won? ==> read == old(read) + {(key, verdict.res.bid)} && accepted == old(accepted) + 1
      ensures !verdict.Won? ==> read == old(read) && accepted == old(accepted)
      ensures exhausted == old(exhausted) && attempts == old(attempts) + 1
      ensures duplicatesSelected == old(duplicatesSelected)
      ensures var n := if twice then 2 else 1;
              var more := if verdict.Won? && mode == Replay then 1 else 0;
              var latest := Latest(old(known[a]), First(old(answers), n));
              && verdict == Reduced(First(old(answers), n))
              && a in known && known == old(known)[a := known[a]]
              && known[a] == (if verdict.Won? then Absorbed(latest, verdict.res.view) else latest)
              && (!verdict.Won? ==> answers == After(old(answers), n))
              && SentMore(old(sent), sent, n + more, key, old(known[a]))
              && duplicatesInjected == old(duplicatesInjected) + n - 1 + more
              && var c := Tallied(old(counters), First(old(answers), n), verdict.Won?);
                 counters == if more == 0 then c else Demonstrated(c, Nth(After(old(answers), n), 0), verdict.res.bid)
    {
      hide Counted, Reduced, Latest, E.KeysOf, With, Replays, Unexpected, Absorbed, AllReceived, Tallied,
           SentMore, First, After, Demonstrated, Nth, Decides, IsNewest;
      attempts := attempts + 1;
      var aim := known[a];
      var responses := Send(key, aim, twice);
      ghost var once := sent;
      var after;
      verdict, after := ReduceResponses(responses, aim);
      WonWasReceived(received, key, responses);
      known := known[a := after];
      if verdict.Won? {
        Conclude(key, a, aim, mode, verdict.res);
        SentTwice(old(sent), once, sent, if twice then 2 else 1, if mode == Replay then 1 else 0, key, aim);
      }
    }

    /** n attempts into a logical bid, all of them worth another one. */
    ghost predicate UnderWay(key: Key, a: Uuid, start: View, answers0: seq<Response>, sent0: seq<(Key, View)>,
                             mode: Mode, n: nat)
      reads this
    {
      && Retried(answers0, mode, n) && answers == After(answers0, Asked(mode, n))
      && a in known && known[a] == KnownAfter(start, answers0, mode, n)
      && sent0 <= sent && |sent| == |sent0| + Asked(mode, n) && Aimed(sent, |sent0|, key, start, answers0, mode, n)
    }

    /** The next of them. */
    method TryAgain(key: Key, a: Uuid, mode: Mode, n: nat, ghost start: View, ghost answers0: seq<Response>,
                    ghost sent0: seq<(Key, View)>)
      returns (verdict: Verdict)
      requires Valid() && key !in E.KeysOf(read) && UnderWay(key, a, start, answers0, sent0, mode, n)
      modifies this
      ensures Valid() && old(received) <= received
      ensures verdict.Retry? ==> UnderWay(key, a, start, answers0, sent0, mode, n + 1)
      ensures !verdict.Retry? ==> !Retried(answers0, mode, n + 1)
      ensures verdict.Won? <==> With(Round(answers0, mode, n), 201) != {}
      ensures if verdict.Won? then read == old(read) + {(key, verdict.res.bid)} else read == old(read)
      ensures accepted == old(accepted) + if verdict.Won? then 1 else 0
      ensures exhausted == old(exhausted) && attempts == old(attempts) + 1
      ensures duplicatesSelected == old(duplicatesSelected)
      ensures sent0 <= sent && Aimed(sent, |sent0|, key, start, answers0, mode, n + 1)
      ensures |sent| - |old(sent)| == 1 + duplicatesInjected - old(duplicatesInjected)
      ensures duplicatesInjected == old(duplicatesInjected) + (if mode == Concurrent && n == 0 then 1 else 0)
                                    + if verdict.Won? && mode == Replay then 1 else 0
      ensures a in known && start.version <= known[a].version && known == old(known)[a := known[a]]
    {
      hide Counted, E.KeysOf, Latest, Reduced, KnownAfter, Aimed, First, After, WorthAnotherTry, With, SentMore,
           Tallied;
      OneMoreAttempt(start, answers0, mode, n);
      VerdictOf(Round(answers0, mode, n));
      NotOlder(start, answers0, mode, n + 1);
      verdict := Attempt(key, a, mode, mode == Concurrent && n == 0);
      ghost var count := (if mode == Concurrent && n == 0 then 2 else 1)
                         + if verdict.Won? && mode == Replay then 1 else 0;
      SentGrew(old(sent), sent, count, key, KnownAfter(start, answers0, mode, n));
      OneMoreAimed(old(sent), sent, count, |sent0|, key, start, answers0, mode, n);
    }

    /** One logical bid. inTime is how many of its deadline checks still find it in time.
        It goes on exactly while every response was worth another attempt, each attempt
        aimed by all that was heard before it; it is exhausted exactly when ten such
        attempts, or the deadline, end it; otherwise the last one brought a 201 or an
        unexpected status. */
    method LogicalBid(key: Key, a: Uuid, manifest: View, mode: Mode, inTime: nat) returns (ghost n: nat)
      requires Valid() && key !in E.KeysOf(read)
      modifies this
      ensures Valid() && old(received) <= received
      ensures attempts == old(attempts) + n
      ensures var most := if inTime < MAX_RETRIES then inTime else MAX_RETRIES;
              if Retried(old(answers), mode, n) then
                n == most && exhausted == old(exhausted) + 1 && accepted == old(accepted)
              else
                && 0 < n <= most && exhausted == old(exhausted)
                && Retried(old(answers), mode, n - 1)
                && accepted == old(accepted)
                   + if With(Round(old(answers), mode, n - 1), 201) != {} then 1 else 0
      ensures if accepted == old(accepted) then read == old(read) else exists b :: read == old(read) + {(key, b)}
      ensures old(sent) <= sent
              && Aimed(sent, |old(sent)|, key, if a in old(known) then old(known)[a] else manifest,
                       old(answers), mode, n)
              && |sent| - |old(sent)| == n + duplicatesInjected - old(duplicatesInjected)
      ensures duplicatesSelected == old(duplicatesSelected) + if mode == Plain then 0 else 1
      ensures duplicatesInjected - old(duplicatesInjected) ==
                match mode
                case Plain => 0
                case Concurrent => if n > 0 then 1 else 0
                case Replay => accepted - old(accepted)
      ensures a in known && (if a in old(known) then old(known)[a] else manifest).version <= known[a].version
      ensures forall x :: x != a && x in old(known) ==> x in known && known[x] == old(known)[x]
    {
      hide Counted, E.KeysOf, UnderWay, Aimed, Round, WorthAnotherTry, With, Retried, Asked;
      if a !in known {
        known := known[a := manifest];
      }
      if mode != Plain {
        duplicatesSelected := duplicatesSelected + 1;
      }
      ghost var start := known[a];
      Setting(key, a, mode);
      var attempt := 0;
      n := 0;
      while attempt < MAX_RETRIES
        invariant Valid() && read == old(read) && old(received) <= received
        invariant accepted == old(accepted) && exhausted == old(exhausted)
        invariant forall x :: x != a && x in old(known) ==> x in known && known[x] == old(known)[x]
        invariant n == attempt <= MAX_RETRIES && attempt <= inTime && attempts == old(attempts) + attempt
        invariant UnderWay(key, a, start, old(answers), old(sent), mode, n)
        invariant duplicatesSelected == old(duplicatesSelected) + if mode == Plain then 0 else 1
        invariant duplicatesInjected - old(duplicatesInjected) == if mode == Concurrent && n > 0 then 1 else 0
        invariant |sent| - |old(sent)| == n + duplicatesInjected - old(duplicatesInjected)
      {
        if attempt >= inTime {
          // Date.now() >= deadline
          break;
        }
        SoFar(key, a, start, old(answers), old(sent), mode, n);
        var verdict := TryAgain(key, a, mode, attempt, start, old(answers), old(sent));
        n := n + 1;
        if verdict.Won? {
          return;
        }
        if verdict.Terminal? {
          return;
        }
        attempt := attempt + 1;
      }
      SoFar(key, a, start, old(answers), old(sent), mode, n);
      exhausted := exhausted + 1;
    }

    lemma Setting(key: Key, a: Uuid, mode: Mode)
      requires a in known
      ensures UnderWay(key, a, known[a], answers, sent, mode, 0)
    {
      NothingAsked(sent, key, known[a], answers, mode);
    }

    lemma SoFar(key: Key, a: Uuid, start: View, answers0: seq<Response>, sent0: seq<(Key, View)>, mode: Mode, n: nat)
      requires UnderWay(key, a, start, answers0, sent0, mode, n)
      ensures Retried(answers0, mode, n) && sent0 <= sent
      ensures Aimed(sent, |sent0|, key, start, answers0, mode, n)
      ensures a in known && start.version <= known[a].version
    {
      NotOlder(start, answers0, mode, n);
    }
  }
}
