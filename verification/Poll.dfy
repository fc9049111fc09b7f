/** Polling for a device token (internal/localauth/client.go), in nanoseconds. */
module Poll {
  import opened Common

  const SECOND: int := 1_000_000_000
  const PENDING_CAP: int := 15 * SECOND
  const SLOW_CAP: int := 20 * SECOND

  datatype Reply = Token(value: nat) | Pending | SlowDown | Refused

  /** One round: the reply, how long the request took, and whether and how much longer than asked the sleep lasted. */
  datatype Round = Round(reply: Reply, took: nat, slept: bool, oversleep: nat)

  datatype Result = Got(value: nat) | Denied | Interrupted | TimedOut

  function FirstDelay(interval: int): (d: int)
    ensures d > 0
  {
    if interval <= 0 then 5 * SECOND else interval
  }

  /** The delay after a reply that keeps the loop going. The factor 1.5 is exact up to truncation. */
  function NextDelay(d: int, reply: Reply): int {
    if reply.SlowDown? then Min(d + 5 * SECOND, SLOW_CAP) else Min(3 * d / 2, PENDING_CAP)
  }

  /** The delay in force before round k. */
  function Delay(interval: int, rounds: nat -> Round, k: nat): int {
    if k == 0 then FirstDelay(interval) else NextDelay(Delay(interval, rounds, k - 1), rounds(k - 1).reply)
  }

  /** How long the loop sleeps in round k: the delay in force after a pending reply, the raised one after
      a slow-down. */
  function Wait(interval: int, rounds: nat -> Round, k: nat): int {
    if rounds(k).reply.SlowDown? then Delay(interval, rounds, k + 1) else Delay(interval, rounds, k)
  }

  /** Never faster than the interval the server gave, or than 15 seconds if that is less. */
  function Floor(interval: int): int { Min(FirstDelay(interval), PENDING_CAP) }

  lemma {:induction false} DelayBounds(interval: int, rounds: nat -> Round, k: nat)
    ensures 0 < Floor(interval) <= Delay(interval, rounds, k) <= Max(FirstDelay(interval), SLOW_CAP)
  {
    if k > 0 { DelayBounds(interval, rounds, k - 1); }
  }

  lemma {:induction false} WaitBounds(interval: int, rounds: nat -> Round, k: nat)
    ensures 0 < Floor(interval) <= Wait(interval, rounds, k) <= Max(FirstDelay(interval), SLOW_CAP)
  {
    DelayBounds(interval, rounds, k);
    DelayBounds(interval, rounds, k + 1);
  }

  function Deadline(issuedAt: Option<int>, expiresIn: int, start: int): int {
    (if issuedAt.Some? then issuedAt.value else start) + expiresIn
  }

  /** PollToken. It ends, whatever the server replies: no request starts at or after the deadline, and successive
      requests are at least the floor apart, so their number is bounded by the time left. */
  method PollToken(interval: int, issuedAt: Option<int>, expiresIn: int, start: int, rounds: nat -> Round)
    returns (result: Result, requests: nat, waits: seq<int>, now: int)
    ensures requests > 0 ==> (requests - 1) * Floor(interval) < Deadline(issuedAt, expiresIn, start) - start
    ensures Followed(interval, rounds, waits)
    ensures result.TimedOut? ==> now >= Deadline(issuedAt, expiresIn, start) && |waits| == requests
    ensures !result.TimedOut? ==> Ended(result, requests, waits, rounds)
  {
    var delay := if interval <= 0 then 5 * SECOND else interval;
    var deadline := Deadline(issuedAt, expiresIn, start);
    now, requests, waits := start, 0, [];
    result := TimedOut;
    var ended := false;
    ghost var floor := Floor(interval);
    while !ended && now < deadline
      invariant !ended ==> result.TimedOut? && |waits| == requests && delay == Delay(interval, rounds, requests)
      invariant !ended ==> start + Spacing(requests, floor) <= now
      invariant requests > 0 ==> Spacing(requests - 1, floor) < deadline - start
      invariant Followed(interval, rounds, waits)
      invariant ended ==> Ended(result, requests, waits, rounds)
      decreases !ended, deadline - now
    {
      var round := rounds(requests);
      WaitBounds(interval, rounds, requests);
      requests := requests + 1;
      now := now + round.took;
      match round.reply {
        case Token(v) =>
          result, ended := Got(v), true;
        case Refused =>
          result, ended := Denied, true;
        case Pending =>
          waits := waits + [delay];
          if !round.slept {
            result, ended := Interrupted, true;
          } else {
            now := now + delay + round.oversleep;
            delay := Min(3 * delay / 2, PENDING_CAP);
          }
        case SlowDown =>
          delay := Min(delay + 5 * SECOND, SLOW_CAP);
          waits := waits + [delay];
          if !round.slept {
            result, ended := Interrupted, true;
          } else {
            now := now + delay + round.oversleep;
          }
      }
    }
    if requests > 0 { SpacingIs(requests - 1, floor); }
  }

  /** The loop slept as prescribed, once per reply that keeps it going. */
  predicate Followed(interval: int, rounds: nat -> Round, waits: seq<int>) {
    forall k :: 0 <= k < |waits| ==> Slept(interval, rounds, k, waits[k])
  }

  predicate Slept(interval: int, rounds: nat -> Round, k: nat, wait: int) {
    (rounds(k).reply.Pending? || rounds(k).reply.SlowDown?) && wait == Wait(interval, rounds, k)
  }

  /** What the last round says about a result other than a timeout. */
  predicate Ended(result: Result, requests: nat, waits: seq<int>, rounds: nat -> Round) {
    match result
    case Got(v) => requests == |waits| + 1 && rounds(|waits|).reply == Token(v)
    case Denied => requests == |waits| + 1 && rounds(|waits|).reply == Refused
    case Interrupted => requests == |waits| > 0 && !rounds(|waits| - 1).slept
    case TimedOut => false
  }

  /** n floors one after the other. */
  ghost function Spacing(n: nat, floor: int): int { if n == 0 then 0 else Spacing(n - 1, floor) + floor }

  lemma {:induction false} SpacingIs(n: nat, floor: int)
    ensures Spacing(n, floor) == n * floor
  {
    if n > 0 {
      SpacingIs(n - 1, floor);
      assert n * floor == (n - 1) * floor + floor;
    }
  }

  predicate Grows(interval: int, rounds: nat -> Round, k: nat) {
    Delay(interval, rounds, k) <= Delay(interval, rounds, k + 1)
  }

  predicate UnderCap(interval: int, rounds: nat -> Round, k: nat) {
    Delay(interval, rounds, k) <= if rounds(k).reply.SlowDown? then SLOW_CAP else PENDING_CAP
  }

  /** The delay in force grows over a round if and only if it was not over the cap that round applies: 15 seconds for a
      pending reply, 20 for a slow-down. */
  lemma {:induction false} GrowsIffUnderCap(interval: int, rounds: nat -> Round, k: nat)
    ensures Grows(interval, rounds, k) <==> UnderCap(interval, rounds, k)
  {
    DelayBounds(interval, rounds, k);
    assert Delay(interval, rounds, k + 1) == NextDelay(Delay(interval, rounds, k), rounds(k).reply);
  }

  /** So a server that asks for 30 seconds is asked again after 15, and the raise of a slow-down is given back after the
      next pending reply: section 3.5 of RFC 8628 wants it kept for all subsequent requests. */
  lemma {:induction false} CapsShorten()
    ensures var calm := (k: nat) => Round(Pending, 0, true, 0);
            Wait(30 * SECOND, calm, 0) == 30 * SECOND && Wait(30 * SECOND, calm, 1) == 15 * SECOND
    ensures var busy := (k: nat) => Round(if k == 0 then SlowDown else Pending, 0, true, 0);
            Wait(PENDING_CAP, busy, 0) == 20 * SECOND == Wait(PENDING_CAP, busy, 1)
                && Wait(PENDING_CAP, busy, 2) == 15 * SECOND
  {
    var calm := (k: nat) => Round(Pending, 0, true, 0);
    assert Delay(30 * SECOND, calm, 0) == 30 * SECOND;
    assert Delay(30 * SECOND, calm, 1) == 15 * SECOND;
    var busy := (k: nat) => Round(if k == 0 then SlowDown else Pending, 0, true, 0);
    assert Delay(PENDING_CAP, busy, 0) == 15 * SECOND;
    assert Delay(PENDING_CAP, busy, 1) == 20 * SECOND;
    assert Delay(PENDING_CAP, busy, 2) == 15 * SECOND;
  }
}
