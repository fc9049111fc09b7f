/** The trace client's queue and its shutdown (internal/langfuse/client.go): submitters that check a closed flag and
    then send without blocking, a Close that sets the flag and then closes the stop channel, and one worker that
    batches, flushes and drains. */
module Langfuse {

  type Event = nat

  datatype Phase = Running | Draining | Exited

  /** How far Close has come: not called, flag set, stop channel closed. */
  datatype Closing = Open | Flagged | Stopped

  datatype Config = Config(capacity: nat, batchSize: nat) {
    predicate Valid() { capacity > 0 && batchSize > 0 }
  }

  datatype State = State(
    queue: seq<Event>,
    batch: seq<Event>,
    posted: seq<seq<Event>>,
    accepted: seq<Event>,     // sent into the queue, in order
    dropped: seq<Event>,
    pending: seq<Event>,      // submitters past the closed check, before their send
    closing: Closing,
    sealedAt: nat,            // how many events had been accepted when the stop channel was closed
    exitedAt: nat,            // ... and when the worker found the queue empty and left
    phase: Phase)

  const INIT := State([], [], [], [], [], [], Open, 0, 0, Running)

  datatype Action =
    | Check(e: Event)         // Submit reads the closed flag
    | Send(i: nat)            // ... and tries to send
    | Flag                    // Close sets the flag
    | Stop                    // ... and closes the stop channel
    | Take                    // the worker receives an event
    | Tick                    // the flush timer fires
    | SeeStop                 // the worker starts to drain
    | DrainEnd                // the queue is empty: flush and exit

  function Remove(s: seq<Event>, i: nat): seq<Event>
    requires i < |s|
  {
    s[..i] + s[i + 1..]
  }

  function Flat(s: seq<seq<Event>>): seq<Event> {
    if s == [] then [] else Flat(s[..|s| - 1]) + s[|s| - 1]
  }

  predicate SubmittersKept(s: State, t: State) {
    t.pending == s.pending && t.accepted == s.accepted && t.dropped == s.dropped
  }

  predicate WorkerKept(s: State, t: State) {
    t.batch == s.batch && t.posted == s.posted && t.phase == s.phase && t.exitedAt == s.exitedAt
  }
  predicate CloseKept(s: State, t: State) { t.closing == s.closing && t.sealedAt == s.sealedAt }

  /** The batch, posted if it holds anything. */
  predicate Flushed(batch: seq<Event>, posted: seq<seq<Event>>, t: State) {
    t.batch == [] && t.posted == if batch == [] then posted else posted + [batch]
  }

  predicate Step(cfg: Config, s: State, a: Action, t: State) {
    match a
    case Check(e) =>
      && t.queue == s.queue && t.accepted == s.accepted && WorkerKept(s, t) && CloseKept(s, t)
      && if s.closing.Open? then t.pending == s.pending + [e] && t.dropped == s.dropped
         else t.pending == s.pending && t.dropped == s.dropped + [e]
    case Send(i) =>
      && i < |s.pending| && t.pending == Remove(s.pending, i) && WorkerKept(s, t) && CloseKept(s, t)
      && if |s.queue| < cfg.capacity
         then t.queue == s.queue + [s.pending[i]] && t.accepted == s.accepted + [s.pending[i]] && t.dropped == s.dropped
         else t.queue == s.queue && t.accepted == s.accepted && t.dropped == s.dropped + [s.pending[i]]
    case Flag =>
      && s.closing.Open? && t.closing == Flagged && t.sealedAt == s.sealedAt
      && t.queue == s.queue && SubmittersKept(s, t) && WorkerKept(s, t)
    case Stop =>
      && s.closing.Flagged? && t.closing == Stopped && t.sealedAt == |s.accepted|
      && t.queue == s.queue && SubmittersKept(s, t) && WorkerKept(s, t)
    case Take =>
      && !s.phase.Exited? && s.queue != [] && t.queue == s.queue[1..] && t.phase == s.phase && t.exitedAt == s.exitedAt
      && SubmittersKept(s, t) && CloseKept(s, t)
      && var batch := s.batch + [s.queue[0]];
         if |batch| >= cfg.batchSize then Flushed(batch, s.posted, t) else t.batch == batch && t.posted == s.posted
    case Tick =>
      && s.phase.Running? && t.queue == s.queue && t.phase == s.phase && t.exitedAt == s.exitedAt
      && SubmittersKept(s, t) && CloseKept(s, t) && Flushed(s.batch, s.posted, t)
    case SeeStop =>
      && s.phase.Running? && s.closing.Stopped? && t.phase == Draining && t.exitedAt == s.exitedAt
      && t.queue == s.queue && t.batch == s.batch && t.posted == s.posted && SubmittersKept(s, t) && CloseKept(s, t)
    case DrainEnd =>
      && s.phase.Draining? && s.queue == [] && t.phase == Exited && t.exitedAt == |s.accepted|
      && t.queue == s.queue && SubmittersKept(s, t) && CloseKept(s, t) && Flushed(s.batch, s.posted, t)
  }

  datatype Run = Run(states: seq<State>, actions: seq<Action>) {
    ghost predicate Valid(cfg: Config) {
      && |states| == |actions| + 1
      && forall i :: 0 <= i < |actions| ==> Step(cfg, states[i], actions[i], states[i + 1])
    }

    function Last(): State
      requires states != []
    {
      states[|states| - 1]
    }

    ghost function Then(cfg: Config, a: Action, t: State): (r: Run)
      requires Valid(cfg) && Step(cfg, Last(), a, t)
      ensures r.Valid(cfg) && r.Last() == t && r.states[0] == states[0]
    {
      Run(states + [t], actions + [a])
    }
  }

  // ---------------------------------------------------------------- nothing accepted is lost or reordered

  lemma {:induction false} FlatAdd(s: seq<seq<Event>>, b: seq<Event>)
    ensures Flat(s + [b]) == Flat(s) + b
  {
    assert (s + [b])[..|s|] == s;
  }

  ghost predicate Sized(cfg: Config, s: State) {
    && |s.batch| < cfg.batchSize && |s.queue| <= cfg.capacity
    && forall k :: 0 <= k < |s.posted| ==> 1 <= |s.posted[k]| <= cfg.batchSize
  }

  /** What was accepted is what was posted, then the open batch, then the queue, in order. */
  ghost predicate Ordered(s: State) {
    Flat(s.posted) + s.batch + s.queue == s.accepted
  }

  /** After the stop channel closes, and for good once the worker has exited. */
  ghost predicate Sealed(s: State) {
    && (!s.phase.Running? ==> s.closing.Stopped?)
    && (s.closing.Stopped? ==> s.sealedAt <= |s.accepted|)
    && (s.phase.Exited? ==> s.batch == [] && s.sealedAt <= s.exitedAt == |Flat(s.posted)|)
  }

  lemma {:induction false} FlushOrdered(batch: seq<Event>, posted: seq<seq<Event>>, t: State)
    requires Flushed(batch, posted, t)
    ensures Flat(t.posted) + t.batch == Flat(posted) + batch
  {
    FlatAdd(posted, batch);
  }

  lemma {:induction false} TakeOrdered(cfg: Config, s: State, t: State)
    requires Step(cfg, s, Take, t) && Ordered(s)
    ensures Ordered(t)
  {
    var batch := s.batch + [s.queue[0]];
    if |batch| >= cfg.batchSize { FlushOrdered(batch, s.posted, t); }
    assert Flat(s.posted) + batch + s.queue[1..] == Flat(s.posted) + s.batch + s.queue;
    assert Flat(t.posted) + t.batch == Flat(s.posted) + batch;
  }

  lemma {:induction false} StepOrdered(cfg: Config, s: State, a: Action, t: State)
    requires Step(cfg, s, a, t) && Ordered(s)
    ensures Ordered(t)
  {
    match a {
      case Take => TakeOrdered(cfg, s, t);
      case Tick => FlushOrdered(s.batch, s.posted, t);
      case DrainEnd => FlushOrdered(s.batch, s.posted, t);
      case _ =>
    }
  }

  lemma {:induction false} StepSized(cfg: Config, s: State, a: Action, t: State)
    requires cfg.Valid() && Step(cfg, s, a, t) && Sized(cfg, s)
    ensures Sized(cfg, t)
  {
  }

  lemma {:induction false} StepSealed(cfg: Config, s: State, a: Action, t: State)
    requires Step(cfg, s, a, t) && Ordered(s) && Sealed(s)
    ensures Sealed(t)
  {
    if a.DrainEnd? {
      FlushOrdered(s.batch, s.posted, t);
      assert |Flat(t.posted) + t.batch| == |Flat(s.posted) + s.batch + s.queue|;
    }
  }

  lemma {:induction false} RunInv(cfg: Config, r: Run, i: nat)
    requires cfg.Valid() && r.Valid(cfg) && r.states[0] == INIT && i < |r.states|
    ensures Ordered(r.states[i]) && Sized(cfg, r.states[i]) && Sealed(r.states[i])
  {
    if i > 0 {
      RunInv(cfg, r, i - 1);
      StepOrdered(cfg, r.states[i - 1], r.actions[i - 1], r.states[i]);
      StepSized(cfg, r.states[i - 1], r.actions[i - 1], r.states[i]);
      StepSealed(cfg, r.states[i - 1], r.actions[i - 1], r.states[i]);
    }
  }

  /** Over every run: what was accepted is what was posted, then the open batch, then the queue, in order; batches hold
      1 to BatchSize events. Once the worker has exited, every event accepted before Close closed the stop channel is
      posted. */
  lemma {:induction false} AcceptedIsPosted(cfg: Config, r: Run, i: nat)
    requires cfg.Valid() && r.Valid(cfg) && r.states[0] == INIT && i < |r.states|
    ensures var s := r.states[i];
            && Flat(s.posted) + s.batch + s.queue == s.accepted
            && (forall k :: 0 <= k < |s.posted| ==> 1 <= |s.posted[k]| <= cfg.batchSize)
            && (s.phase.Exited? ==> s.sealedAt <= |s.accepted| && s.accepted[..s.sealedAt] <= Flat(s.posted))
  {
    RunInv(cfg, r, i);
    var s := r.states[i];
    assert s.accepted[..|Flat(s.posted)|] == Flat(s.posted);
  }

  /** After the exit the k-th accepted event is posted if and only if it was accepted before the worker left; the
      others stay in the queue for ever. */
  lemma {:induction false} PostedIffBeforeExit(cfg: Config, r: Run, i: nat)
    requires cfg.Valid() && r.Valid(cfg) && r.states[0] == INIT && i < |r.states| && r.states[i].phase.Exited?
    ensures var s := r.states[i];
            && s.exitedAt <= |s.accepted|
            && Flat(s.posted) == s.accepted[..s.exitedAt] && s.queue == s.accepted[s.exitedAt..]
  {
    RunInv(cfg, r, i);
    assert Flat(r.states[i].posted) + [] == Flat(r.states[i].posted);
  }

  /** Submit's check and its send are two steps, so Close can finish in between: the event is accepted and
      never posted. */
  lemma {:induction false} LateSubmitIsLost(cfg: Config, e: Event) returns (r: Run)
    requires cfg.Valid()
    ensures r.Valid(cfg) && r.states[0] == INIT
    ensures var s := r.states[|r.states| - 1]; s.phase.Exited? && s.accepted == [e] && s.posted == [] && s.dropped == []
  {
    var s1 := INIT.(pending := [e]);
    var s2 := s1.(closing := Flagged);
    var s3 := s2.(closing := Stopped);
    var s4 := s3.(phase := Draining);
    var s5 := s4.(phase := Exited);
    var s6 := s5.(pending := [], queue := [e], accepted := [e]);
    r := Run([INIT], []);
    r := r.Then(cfg, Check(e), s1);
    r := r.Then(cfg, Flag, s2);
    r := r.Then(cfg, Stop, s3);
    r := r.Then(cfg, SeeStop, s4);
    r := r.Then(cfg, DrainEnd, s5);
    r := r.Then(cfg, Send(0), s6);
  }

  // ---------------------------------------------------------------- Close returns

  /** Steps left for the worker and for submitters already past the check. */
  function Work(s: State): nat {
    (match s.phase case Running => 2 case Draining => 1 case Exited => 0) + 2 * |s.pending| + |s.queue|
  }

  /** Timer ticks and refused submissions can come at any time and do not count. */
  predicate Counts(a: Action) { !a.Tick? && !a.Check? }

  function Counted(actions: seq<Action>): nat {
    if actions == [] then 0
    else Counted(actions[..|actions| - 1]) + if Counts(actions[|actions| - 1]) then 1 else 0
  }

  lemma {:induction false} StepWork(cfg: Config, s: State, a: Action, t: State)
    requires Step(cfg, s, a, t) && s.closing.Stopped?
    ensures t.closing.Stopped? && Work(t) + (if Counts(a) then 1 else 0) <= Work(s)
  {
  }

  /** Once the stop channel is closed only boundedly many steps remain, however submitters race with the drain. */
  lemma {:induction false} ShutdownIsBounded(cfg: Config, r: Run, n: nat)
    requires r.Valid(cfg) && r.states[0].closing.Stopped? && n < |r.states|
    ensures r.states[n].closing.Stopped? && Work(r.states[n]) + Counted(r.actions[..n]) <= Work(r.states[0])
  {
    if n > 0 {
      ShutdownIsBounded(cfg, r, n - 1);
      StepWork(cfg, r.states[n - 1], r.actions[n - 1], r.states[n]);
      assert r.actions[..n][..n - 1] == r.actions[..n - 1];
    }
  }

  /** And the worker is never stuck on the way: until it exits, a counted worker step is possible. */
  lemma {:induction false} WorkerNeverStuck(cfg: Config, s: State) returns (a: Action, t: State)
    requires s.closing.Stopped? && !s.phase.Exited?
    ensures (a.Take? || a.SeeStop? || a.DrainEnd?) && Step(cfg, s, a, t)
  {
    var flushed := if s.batch == [] then s.posted else s.posted + [s.batch];
    if s.phase.Running? {
      a, t := SeeStop, s.(phase := Draining);
    } else if s.queue == [] {
      a, t := DrainEnd, s.(phase := Exited, exitedAt := |s.accepted|, batch := [], posted := flushed);
    } else {
      var batch := s.batch + [s.queue[0]];
      a := Take;
      t := if |batch| >= cfg.batchSize then s.(queue := s.queue[1..], batch := [], posted := s.posted + [batch])
           else s.(queue := s.queue[1..], batch := batch);
    }
  }

  // ---------------------------------------------------------------- the worker's code

  /** The worker goroutine. Each select it takes is a step of the machine above. */
  class Worker {
    const cfg: Config
    var queue: seq<Event>
    var batch: seq<Event>
    var posted: seq<seq<Event>>
    ghost var history: Run

    ghost predicate Tied() reads this {
      cfg.Valid() && history.Valid(cfg) && history.states[0] == INIT
    }

    ghost predicate Valid() reads this {
      Tied() && history.Last().queue == queue && history.Last().batch == batch && history.Last().posted == posted
    }

    /** Everything the worker has received or will receive, in order. */
    ghost function Stream(): seq<Event> reads this { Flat(posted) + batch + queue }

    ghost method Record(a: Action, t: State)
      requires Tied() && Step(cfg, history.Last(), a, t)
      modifies this`history
      ensures Tied() && history.Last() == t
    {
      history := history.Then(cfg, a, t);
    }

    /** flush: a non-empty batch is posted whole, and the batch is reset. */
    method Flush()
      modifies this`batch, this`posted
      ensures batch == [] && posted == if old(batch) == [] then old(posted) else old(posted) + [old(batch)]
      ensures Flat(posted) == old(Flat(posted) + batch)
    {
      if |batch| == 0 {
        assert Flat(posted) + batch == Flat(posted);
        return;
      }
      FlatAdd(posted, batch);
      posted := posted + [batch];
      batch := [];
    }

    method Tick()
      requires Valid() && history.Last().phase.Running?
      modifies this
      ensures Valid() && history.Last().phase == old(history.Last().phase) && batch == [] && Stream() == old(Stream())
    {
      ghost var s := history.Last();
      Flush();
      assert Flat(posted) + [] == Flat(posted);
      Record(Action.Tick, s.(batch := batch, posted := posted));
    }

    method Receive()
      requires Valid() && queue != [] && !history.Last().phase.Exited?
      modifies this
      ensures Valid() && history.Last().phase == old(history.Last().phase)
      ensures Stream() == old(Stream()) && queue == old(queue)[1..]
    {
      ghost var s := history.Last();
      var e := queue[0];
      queue := queue[1..];
      Moved(Flat(posted), batch, e, queue);
      assert [e] + queue == old(queue);
      batch := batch + [e];
      if |batch| >= cfg.batchSize {
        Flush();
        assert Flat(posted) + [] == Flat(posted);
      }
      Record(Take, s.(queue := queue, batch := batch, posted := posted));
    }

    /** The drain on stop: everything received and everything queued is posted, in order, and the worker exits. */
    method Drain()
      requires Valid() && history.Last().phase.Running? && history.Last().closing.Stopped?
      modifies this
      ensures Valid() && history.Last().phase.Exited? && queue == [] && batch == [] && Flat(posted) == old(Stream())
    {
      Record(SeeStop, history.Last().(phase := Draining));
      while |queue| > 0
        invariant Valid() && history.Last().phase.Draining? && Stream() == old(Stream())
      {
        Receive();
      }
      ghost var s := history.Last();
      assert Stream() == Flat(posted) + batch;
      Flush();
      Record(DrainEnd, s.(batch := batch, posted := posted, phase := Exited, exitedAt := |s.accepted|));
    }
  }

  lemma {:induction false} Moved(posted: seq<Event>, batch: seq<Event>, e: Event, queue: seq<Event>)
    ensures posted + batch + ([e] + queue) == posted + (batch + [e]) + queue
  {
  }
}
