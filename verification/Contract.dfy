/** The contract the three engines share: the auction state a decision is made
    against, the minimum-next-bid rule in Go's wrapping int64, the closing rule,
    and the outcomes an engine may report. */
module Contract {

  datatype Option<+T> = None | Some(value: T)

  const MIN_INT64: int := -0x8000_0000_0000_0000
  const MAX_INT64: int := 0x7fff_ffff_ffff_ffff

  type Int64 = x: int | MIN_INT64 <= x <= MAX_INT64

  type Uuid = nat

  /** An idempotency key: a header string taken as a value. NO_KEY stands for the
      empty string, the request that came without one. */
  type Key = nat

  const NO_KEY: Key := 0

  type Time = int

  datatype Status = StatusOpen | StatusClosed

  datatype Outcome = Accepted | Conflict | TooLow | Closed | NotFound | Invalid

  /** int64 addition as Go performs it: the sum modulo 2^64, read as signed. */
  function WrapAdd(x: Int64, y: Int64): (r: Int64)
    ensures (r - (x + y)) % 0x1_0000_0000_0000_0000 == 0
  {
    if x + y > MAX_INT64 then x + y - 0x1_0000_0000_0000_0000
    else if x + y < MIN_INT64 then x + y + 0x1_0000_0000_0000_0000
    else x + y
  }

  /** The auction as an engine saw it. */
  datatype AuctionState = AuctionState(
    version: nat,
    highestBid: Int64,
    increment: Int64,
    status: Status,
    endsAt: Time)
  {
    function MinNextBid(): Int64 {
      WrapAdd(highestBid, increment)
    }

    predicate IsClosed(now: Time) {
      status == StatusClosed || now >= endsAt
    }
  }

  /** One attempt. */
  datatype Request = Request(auction: Uuid, user: Uuid, amount: Int64, key: Key)

  datatype BidResult = BidResult(outcome: Outcome, seqNo: nat, bidId: Uuid, current: Option<AuctionState>)

  /** NULLIF(key, ''): a bid without a key stays outside the partial unique index. */
  function KeyColumn(key: Key): (r: Option<Key>)
    ensures r.None? <==> key == NO_KEY
    ensures r.Some? ==> r.value == key
  {
    if key == NO_KEY then None else Some(key)
  }

  /** A bid that passes the Go guard obeys the increment rule exactly when the
      minimum still fits in an int64. Past that bound the guard is negative, lets
      every positive amount through, and no such amount obeys the rule. */
  lemma MinNextBidIsTheRuleIffItFits(st: AuctionState, amount: Int64)
    requires 0 <= st.highestBid && 0 < st.increment && 0 < amount
    ensures amount >= st.MinNextBid() ==>
              (amount >= st.highestBid + st.increment <==> st.highestBid + st.increment <= MAX_INT64)
    ensures st.highestBid + st.increment > MAX_INT64 ==> amount >= st.MinNextBid()
    ensures amount >= st.highestBid + st.increment ==> amount >= st.MinNextBid()
  {
  }

  /** The failing family has members: one cent is accepted over the largest bid. */
  lemma OneCentBeatsTheLargestBid()
    ensures var st := AuctionState(7, MAX_INT64, 100, StatusOpen, 1);
            1 >= st.MinNextBid() && 1 < st.highestBid + st.increment
  {
  }
}
