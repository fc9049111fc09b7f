/** The per-provider circuit breaker (internal/embed/breaker.go, and the same machine in
    internal/llm/breaker.go): a mutable three-state machine that refines a stateless function of the
    recorded outcomes and the clock. */
module Breaker {

  const DEFAULT_THRESHOLD: nat := 5
  const DEFAULT_DELAY: nat := 30_000_000_000   // 30s in nanoseconds

  // ---------------------------------------------------------------- the stateless meaning

  /** A recorded outcome. */
  datatype Event = Success | Failure(at: int)

  type History = seq<Event>

  /** How many failures the history ends with. */
  function Trailing(h: History): (n: nat)
    ensures n <= |h|
  {
    if h == [] || h[|h| - 1].Success? then 0 else 1 + Trailing(h[..|h| - 1])
  }

  function LastFailure(h: History): int
    requires Trailing(h) > 0
  {
    h[|h| - 1].at
  }

  /** Refuse exactly when the last `threshold` outcomes are failures and the latest is less than `delay` ago. */
  predicate Refuses(h: History, threshold: nat, delay: int, now: int)
    requires threshold > 0
  {
    Trailing(h) >= threshold && now - LastFailure(h) < delay
  }

  /** The same without recursion: the last k outcomes are all failures. */
  lemma {:induction false} TrailingMeans(h: History, k: nat)
    ensures Trailing(h) >= k <==> k <= |h| && forall i :: |h| - k <= i < |h| ==> h[i].Failure?
  {
    if k > 0 && h != [] && h[|h| - 1].Failure? {
      var front := h[..|h| - 1];
      TrailingMeans(front, k - 1);
      assert forall i :: 0 <= i < |front| ==> front[i] == h[i];
    }
  }

  // ---------------------------------------------------------------- the machine

  datatype BreakerState = Closed | Open | HalfOpen

  datatype Cell = Cell(state: BreakerState, fails: nat, openedAt: int)

  const FRESH := Cell(Closed, 0, 0)

  datatype Config = Config(threshold: nat, delay: int) {
    predicate Valid() { threshold > 0 && delay > 0 }
  }

  datatype Call = Allow(now: int) | RecordSuccess(now: int) | RecordFailure(now: int) | Snapshot(now: int)

  function Allowed(c: Cell, cfg: Config, now: int): bool {
    !c.state.Open? || now - c.openedAt >= cfg.delay
  }

  function After(c: Cell, cfg: Config, call: Call): Cell {
    match call
    case Allow(now) => if c.state.Open? && Allowed(c, cfg, now) then c.(state := HalfOpen) else c
    case RecordSuccess(_) => c.(fails := 0, state := Closed)
    case RecordFailure(now) =>
      if c.state.HalfOpen? || c.fails + 1 >= cfg.threshold then Cell(Open, c.fails + 1, now)
      else c.(fails := c.fails + 1)
    case Snapshot(_) => c
  }

  function Shown(c: Cell, cfg: Config, now: int): BreakerState {
    if c.state.Open? && now - c.openedAt >= cfg.delay then HalfOpen else c.state
  }

  function Exec(cfg: Config, calls: seq<Call>): Cell {
    if calls == [] then FRESH else After(Exec(cfg, calls[..|calls| - 1]), cfg, calls[|calls| - 1])
  }

  function Record(call: Call): History {
    match call
    case RecordSuccess(_) => [Success]
    case RecordFailure(now) => [Failure(now)]
    case _ => []
  }

  function Recorded(calls: seq<Call>): History {
    if calls == [] then [] else Recorded(calls[..|calls| - 1]) + Record(calls[|calls| - 1])
  }

  predicate Monotone(calls: seq<Call>) {
    forall i, j :: 0 <= i < j < |calls| ==> calls[i].now <= calls[j].now
  }

  /** The machine represents history h at time `clock`. */
  predicate Represents(c: Cell, cfg: Config, h: History, clock: int) {
    && c.fails == Trailing(h)
    && (c.state.Closed? <==> Trailing(h) < cfg.threshold)
    && (!c.state.Closed? && Trailing(h) > 0 ==> c.openedAt == LastFailure(h))
    && (c.state.HalfOpen? ==> clock - c.openedAt >= cfg.delay)
  }

  lemma {:induction false} AfterRepresents(c: Cell, cfg: Config, h: History, clock: int, call: Call)
    requires cfg.Valid() && Represents(c, cfg, h, clock) && clock <= call.now
    ensures Represents(After(c, cfg, call), cfg, h + Record(call), call.now)
    ensures Allowed(c, cfg, call.now) <==> !Refuses(h, cfg.threshold, cfg.delay, call.now)
    ensures Shown(c, cfg, call.now).Open? <==> Refuses(h, cfg.threshold, cfg.delay, call.now)
    ensures Shown(c, cfg, call.now).Closed? <==> Trailing(h) < cfg.threshold
  {
    var h' := h + Record(call);
    if |Record(call)| == 1 {
      assert h'[..|h'| - 1] == h;
    } else {
      assert h' == h;
    }
  }

  lemma {:induction false} ExecRepresents(cfg: Config, calls: seq<Call>, clock: int)
    requires cfg.Valid() && Monotone(calls) && (forall i :: 0 <= i < |calls| ==> calls[i].now <= clock)
    ensures Represents(Exec(cfg, calls), cfg, Recorded(calls), clock)
  {
    if calls != [] {
      var last := calls[|calls| - 1];
      ExecRepresents(cfg, calls[..|calls| - 1], last.now);
      AfterRepresents(Exec(cfg, calls[..|calls| - 1]), cfg, Recorded(calls[..|calls| - 1]), last.now, last);
    }
  }

  /** Over every sequence of calls under a non-decreasing clock, the breaker answers as the stateless function
      of the outcomes recorded so far; it is Closed exactly when fewer than K failures trail; and the
      snapshot shows Open exactly when `allow` at that instant would refuse. */
  lemma {:induction false} BreakerIsStateless(cfg: Config, calls: seq<Call>, now: int)
    requires cfg.Valid() && Monotone(calls) && forall i :: 0 <= i < |calls| ==> calls[i].now <= now
    ensures var (c, h) := (Exec(cfg, calls), Recorded(calls));
            && (Allowed(c, cfg, now) <==> !Refuses(h, cfg.threshold, cfg.delay, now))
            && (Shown(c, cfg, now).Open? <==> !Allowed(c, cfg, now))
            && (c.state.Closed? <==> Trailing(h) < cfg.threshold)
  {
    ExecRepresents(cfg, calls, now);
    AfterRepresents(Exec(cfg, calls), cfg, Recorded(calls), now, Allow(now));
  }

  lemma {:induction false} ProbesRecordNothing(calls: seq<Call>, probes: seq<Call>)
    requires forall i :: 0 <= i < |probes| ==> probes[i].Allow?
    ensures Recorded(calls + probes) == Recorded(calls)
  {
    if probes == [] {
      assert calls + probes == calls;
    } else {
      var all := calls + probes;
      assert all[..|all| - 1] == calls + probes[..|probes| - 1] && all[|all| - 1].Allow?;
      ProbesRecordNothing(calls, probes[..|probes| - 1]);
    }
  }

  /** The comments promise that half-open lets exactly one probe through. The code lets through every caller that
      asks before an outcome is recorded: any number of earlier `allow` calls leaves the next answer as it was. */
  lemma {:induction false} HalfOpenAdmitsEveryone(cfg: Config, calls: seq<Call>, probes: seq<Call>, now: int)
    requires cfg.Valid() && Monotone(calls + probes)
    requires forall i :: 0 <= i < |calls + probes| ==> (calls + probes)[i].now <= now
    requires forall i :: 0 <= i < |probes| ==> probes[i].Allow?
    ensures Allowed(Exec(cfg, calls + probes), cfg, now) <==> !Refuses(Recorded(calls), cfg.threshold, cfg.delay, now)
  {
    BreakerIsStateless(cfg, calls + probes, now);
    ProbesRecordNothing(calls, probes);
  }

  // ---------------------------------------------------------------- the object

  class CircuitBreaker {
    const cfg: Config
    var state: BreakerState
    var consecutiveFails: nat
    var openedAt: int
    ghost const owner: string    // the provider it guards; a registry keyed by name thus holds distinct objects
    ghost var history: History
    ghost var clock: int

    function Contents(): Cell reads this { Cell(state, consecutiveFails, openedAt) }

    ghost predicate Valid() reads this {
      cfg.Valid() && Represents(Contents(), cfg, history, clock)
    }

    ghost predicate WouldRefuse(now: int) reads this
      requires Valid()
    {
      Refuses(history, cfg.threshold, cfg.delay, now)
    }

    /** newBreaker: non-positive settings take the defaults. */
    constructor (threshold: int, delay: int, ghost owner: string, ghost now: int)
      ensures Valid() && history == [] && clock == now && this.owner == owner
      ensures cfg ==
              Config(if threshold <= 0 then DEFAULT_THRESHOLD else threshold,
                  if delay <= 0 then DEFAULT_DELAY else delay)
    {
      cfg := Config(if threshold <= 0 then DEFAULT_THRESHOLD else threshold,
          if delay <= 0 then DEFAULT_DELAY else delay);
      state, consecutiveFails, openedAt := Closed, 0, 0;
      this.owner, history, clock := owner, [], now;
    }

    method Allow(now: int) returns (ok: bool)
      requires Valid() && clock <= now
      modifies this
      ensures Valid() && clock == now && history == old(history)
      ensures ok <==> !Refuses(old(history), cfg.threshold, cfg.delay, now)
      ensures Contents() == After(old(Contents()), cfg, Call.Allow(now))
    {
      AfterRepresents(Contents(), cfg, history, clock, Call.Allow(now));
      assert history + [] == history;
      clock := now;
      match state {
        case Open =>
          if now - openedAt >= cfg.delay {
            state := HalfOpen;
            return true;
          }
          return false;
        case _ => return true;
      }
    }

    method Success(now: int)
      requires Valid() && clock <= now
      modifies this
      ensures Valid() && clock == now && history == old(history) + [Event.Success]
      ensures Contents() == After(old(Contents()), cfg, RecordSuccess(now))
    {
      AfterRepresents(Contents(), cfg, history, clock, RecordSuccess(now));
      consecutiveFails := 0;
      state := Closed;
      history, clock := history + [Event.Success], now;
    }

    method Failure(now: int)
      requires Valid() && clock <= now
      modifies this
      ensures Valid() && clock == now && history == old(history) + [Event.Failure(now)]
      ensures Contents() == After(old(Contents()), cfg, RecordFailure(now))
    {
      AfterRepresents(Contents(), cfg, history, clock, RecordFailure(now));
      consecutiveFails := consecutiveFails + 1;
      history, clock := history + [Event.Failure(now)], now;
      if state == HalfOpen {
        state, openedAt := Open, now;
        return;
      }
      if consecutiveFails >= cfg.threshold {
        state, openedAt := Open, now;
      }
    }

    method Snapshot(now: int) returns (shown: BreakerState)
      requires Valid() && clock <= now
      ensures shown.Open? <==> WouldRefuse(now)
      ensures shown.Closed? <==> Trailing(history) < cfg.threshold
    {
      AfterRepresents(Contents(), cfg, history, clock, Call.Snapshot(now));
      if state == Open && now - openedAt >= cfg.delay { return HalfOpen; }
      shown := state;
    }
  }
}
