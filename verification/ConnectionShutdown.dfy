/** How a connection ends (internal/ws/gateway.go): once shutdown is triggered the server can always move, and only
    boundedly often, until reader, writer, heartbeat and orchestrator have exited. */
module ConnectionShutdown {
  import opened Common
  import opened Outbox
  import opened Connection

  /** Steps only the outside world can repeat forever: a fresh frame to handle, a heartbeat tick. */
  predicate FromOutside(a: Action) {
    a.Tick? || (a.Read? && a.frame != ReadError && a.frame != Binary)
  }

  function EnqWork(e: Enq): nat {
    match e
    case Try(_) => 262
    case Drain(i, p, _) => 5 + 4 * (if i < WRITER_QUEUE_CAPACITY then WRITER_QUEUE_CAPACITY - i else 0) + 3 * |p|
    case Requeue(p, _) => 4 + 3 * |p|
    case Send(_) => 3
  }

  function ReaderWork(r: Reader): nat {
    match r
    case Reading => 4
    case Enqueueing(e, _) => 4 + EnqWork(e)
    case ReaderSetsClose(_) => 3
    case ReaderReturned => 2
    case ReaderTriggered => 1
    case ReaderDone => 0
  }

  function HeartbeatWork(h: Heartbeat): nat {
    match h
    case Waiting => 4
    case Pinging(_) => 8
    case AwaitingPong => 5
    case HeartbeatSetsClose => 3
    case HeartbeatReturned => 2
    case HeartbeatTriggered => 1
    case HeartbeatDone => 0
  }

  function WriterWork(w: Writer): nat {
    match w
    case Receiving => 1
    case Writing(_) => 2
    case Discarding => 1
    case WriterDone => 0
  }

  function WatcherWork(w: Watcher): nat {
    match w
    case Watching => 3
    case WatcherSetsClose => 2
    case WatcherTriggers => 1
    case WatcherDone => 0
  }

  /** The ranking function: work left before everybody has exited. */
  function Work(s: State): nat {
    2 * |s.out| + ReaderWork(s.reader) + WriterWork(s.writer) + HeartbeatWork(s.heartbeat)
    + (7 - Phase(s.orchestrator)) + WatcherWork(s.watcher)
  }

  const OUTSIDE_COST: nat := 262

  lemma {:induction false} StepWork(s: State, a: Action, t: State)
    requires Shaped(s) && Sequenced(s) && Step(s, a, t)
    ensures !FromOutside(a) ==> Work(t) < Work(s)
    ensures FromOutside(a) ==> Work(t) <= Work(s) + OUTSIDE_COST && !s.socketClosed
    ensures s.socketClosed ==> t.socketClosed
  {
  }

  function OutsideSteps(run: seq<Action>): nat {
    if run == [] then 0
    else OutsideSteps(run[..|run| - 1]) + (if FromOutside(run[|run| - 1]) then 1 else 0)
  }

  predicate AllExited(s: State) {
    s.reader.ReaderDone? && s.writer.WriterDone? && s.heartbeat.HeartbeatDone? && s.orchestrator.OrchestratorDone?
  }

  lemma {:induction false} RunWork(r: Run)
    requires r.Valid() && Inv(r.states[0])
    ensures |r.actions| + Work(r.Last()) <= Work(r.states[0]) + (OUTSIDE_COST + 1) * OutsideSteps(r.actions)
    ensures r.states[0].socketClosed ==> OutsideSteps(r.actions) == 0 && r.Last().socketClosed
    decreases |r.actions|
  {
    if r.actions != [] {
      RunWork(r.Front());
      RunInv(r.Front());
      StepWork(r.Front().Last(), r.actions[|r.actions| - 1], r.Last());
    }
  }

  /** Somebody inside the server can always move until everyone has exited. */
  lemma {:induction false} NotStuck(s: State) returns (a: Action, t: State)
    requires Inv(s) && s.shutdown && !AllExited(s)
    ensures Step(s, a, t) && !FromOutside(a)
  {
    if !s.heartbeat.HeartbeatDone? {
      a, t := HeartbeatMoves(s);
    } else if Phase(s.orchestrator) < 4 || s.orchestrator.CloseOut?
              || (s.orchestrator.AwaitReader? && s.reader.ReaderDone?)
              || (s.orchestrator.AwaitWriter? && s.writer.WriterDone?) {
      a := OrchestratorStep;
      t := OrchestratorMoves(s);
    } else if s.orchestrator.AwaitReader? && (!s.reader.Enqueueing? || |s.out| < WRITER_QUEUE_CAPACITY
                                              || s.reader.enq.Try? || s.reader.enq.Drain?) {
      a, t := ReaderMoves(s);
    } else {
      a, t := WriterMoves(s);
    }
  }

  lemma {:induction false} HeartbeatMoves(s: State) returns (a: Action, t: State)
    requires Sequenced(s) && s.shutdown && !s.heartbeat.HeartbeatDone?
    ensures Step(s, a, t) && !FromOutside(a)
  {
    match s.heartbeat {
      case Waiting => a, t := HeartbeatShutdown, s.(heartbeat := HeartbeatReturned);
      case Pinging(p) =>
        a, t := HeartbeatStep, s.(heartbeat := AwaitingPong, out := if HasRoom(s) then s.out + [p] else s.out);
      case AwaitingPong => a, t := HeartbeatShutdown, s.(heartbeat := HeartbeatReturned);
      case HeartbeatSetsClose =>
        a := HeartbeatStep;
        var cell := CloseCell(true, if s.cell.isSet then s.cell.value else HeartbeatTimeout,
            s.cell.calls + [HeartbeatTimeout]);
        t := s.(heartbeat := HeartbeatReturned, cell := cell);
      case HeartbeatReturned => a, t := HeartbeatStep, s.(heartbeat := HeartbeatTriggered, shutdown := true);
      case HeartbeatTriggered => a, t := HeartbeatStep, s.(heartbeat := HeartbeatDone);
    }
  }

  lemma {:induction false} OrchestratorMoves(s: State) returns (t: State)
    requires Sequenced(s) && s.shutdown && s.heartbeat.HeartbeatDone?
    requires Phase(s.orchestrator) < 4 || s.orchestrator.CloseOut?
          || (s.orchestrator.AwaitReader? && s.reader.ReaderDone?)
          || (s.orchestrator.AwaitWriter? && s.writer.WriterDone?)
    ensures Step(s, OrchestratorStep, t)
  {
    match s.orchestrator {
      case AwaitShutdown => t := s.(orchestrator := AwaitHeartbeat);
      case AwaitHeartbeat => t := s.(orchestrator := ReadClose);
      case ReadClose => t := s.(orchestrator := SendClose(s.cell.value));
      case SendClose(c) => t := s.(orchestrator := AwaitReader, socketClosed := true, frameSent := Some(c));
      case AwaitReader => t := s.(orchestrator := CloseOut);
      case CloseOut => t := s.(orchestrator := AwaitWriter, outClosed := true);
      case AwaitWriter => t := s.(orchestrator := OrchestratorDone);
    }
  }

  lemma {:induction false} ReaderMoves(s: State) returns (a: Action, t: State)
    requires Sequenced(s) && !s.reader.ReaderDone? && !s.outClosed
    requires s.reader.Enqueueing? ==> |s.out| < WRITER_QUEUE_CAPACITY || s.reader.enq.Try? || s.reader.enq.Drain?
    ensures Step(s, a, t) && !FromOutside(a)
  {
    a := ReaderStep;
    match s.reader {
      case Reading => a, t := Read(ReadError), s.(reader := ReaderSetsClose(PeerClosed));
      case Enqueueing(enq, next) => t := EnqueueMoves(s);
      case ReaderSetsClose(c) =>
        t := s.(reader := ReaderReturned,
            cell := CloseCell(true, if s.cell.isSet then s.cell.value else c, s.cell.calls + [c]));
      case ReaderReturned => t := s.(reader := ReaderTriggered, shutdown := true);
      case ReaderTriggered => t := s.(reader := ReaderDone);
    }
  }

  lemma {:induction false} EnqueueMoves(s: State) returns (t: State)
    requires !s.panicked && !s.outClosed && s.reader.Enqueueing?
    requires |s.out| < WRITER_QUEUE_CAPACITY || s.reader.enq.Try? || s.reader.enq.Drain?
             || s.reader.enq == Requeue([], s.reader.enq.msg)
    ensures Step(s, ReaderStep, t)
    ensures t == s.(out := t.out, reader := t.reader)
  {
    var next := s.reader.andThen;
    match s.reader.enq {
      case Try(m) =>
        t := if HasRoom(s) then s.(out := s.out + [m], reader := AfterEnqueue(next))
             else s.(reader := Enqueueing(Drain(0, [], m), next));
      case Drain(i, p, m) =>
        t := if i >= WRITER_QUEUE_CAPACITY || s.out == [] then s.(reader := Enqueueing(Requeue(p, m), next))
             else s.(out := s.out[1..], reader :=
               Enqueueing(if s.out[0].isAck then Drain(i + 1, p + [s.out[0]], m) else Requeue(p, m), next));
      case Requeue(p, m) =>
        t := if p == [] then s.(reader := Enqueueing(Send(m), next))
             else s.(out := s.out + [p[0]], reader := Enqueueing(Requeue(p[1..], m), next));
      case Send(m) => t := s.(out := s.out + [m], reader := AfterEnqueue(next));
    }
  }

  lemma {:induction false} WriterMoves(s: State) returns (a: Action, t: State)
    requires !s.writer.WriterDone? && (s.out != [] || s.outClosed)
    ensures Step(s, a, t) && !FromOutside(a)
  {
    if s.writer.Writing? {
      var l := s.ledger.(written := s.ledger.written + AckOf(s.writer.msg));
      a, t := Write(Written), s.(writer := Receiving, ledger := l);
    } else {
      a := WriterReceive;
      if s.out == [] { t := s.(writer := WriterDone); }
      else if s.writer.Receiving? { t := s.(writer := Writing(s.out[0]), out := s.out[1..]); }
      else {
        var l := s.ledger.(discarded := s.ledger.discarded + AckOf(s.out[0]));
        t := s.(out := s.out[1..], ledger := l);
      }
    }
  }

  lemma {:induction false} CanExit(s: State) returns (r: Run)
    requires Inv(s) && s.shutdown
    ensures r.Valid() && r.states[0] == s && AllExited(r.Last()) && OutsideSteps(r.actions) == 0
    decreases Work(s)
  {
    if AllExited(s) { return Run([s], []); }
    var a, t := NotStuck(s);
    StepInv(s, a, t);
    StepWork(s, a, t);
    ShutdownStays(s, a, t);
    var rest := CanExit(t);
    r := StepFirst(s, a, rest);
    OutsideStepsCons(a, rest.actions);
  }

  lemma {:induction false} StepFirst(s: State, a: Action, rest: Run) returns (r: Run)
    requires rest.Valid() && Step(s, a, rest.states[0])
    ensures r.Valid() && r.states[0] == s && r.Last() == rest.Last() && r.actions == [a] + rest.actions
  {
    r := Run([s] + rest.states, [a] + rest.actions);
    forall i | 0 <= i < |r.actions| ensures Step(r.states[i], r.actions[i], r.states[i + 1]) {
      if i > 0 { assert Step(rest.states[i - 1], rest.actions[i - 1], rest.states[i]); }
    }
  }

  lemma {:induction false} ShutdownStays(s: State, a: Action, t: State)
    requires s.shutdown && Step(s, a, t)
    ensures t.shutdown
  {
  }

  lemma {:induction false} OutsideStepsCons(a: Action, rest: seq<Action>)
    requires !FromOutside(a)
    ensures OutsideSteps([a] + rest) == OutsideSteps(rest)
  {
    if rest == [] {
      assert [a] + rest == [a] && [a][..0] == [];
    } else {
      OutsideStepsCons(a, rest[..|rest| - 1]);
      assert ([a] + rest)[..|rest|] == [a] + rest[..|rest| - 1];
    }
  }

  /** Shutdown: from every reachable state in which it has been triggered, the server alone can bring
      reader, writer, heartbeat and orchestrator to exit; until it has, some server step is enabled; and
      any continuation has at most Work + 263 * (outside steps) actions. Once the socket is closed
      outside steps are over, so every continuation whatsoever ends within Work actions. */
  lemma {:induction false} ShutdownCompletes(r: Run, more: Run)
    requires r.Valid() && r.states[0] == INIT && r.Last().shutdown
    requires more.Valid() && more.states[0] == r.Last()
    ensures var s := r.Last();
            && |more.actions| <= Work(s) + (OUTSIDE_COST + 1) * OutsideSteps(more.actions)
            && (s.socketClosed ==> |more.actions| <= Work(s))
            && (!AllExited(s) ==> exists a, t :: Step(s, a, t) && !FromOutside(a))
            && (exists exit: Run :: exit.Valid() && exit.states[0] == s && AllExited(exit.Last())
                                    && OutsideSteps(exit.actions) == 0)
  {
    RunInv(r);
    var s := r.Last();
    RunWork(more);
    if !AllExited(s) { var a, t := NotStuck(s); }
    var exit := CanExit(s);
  }
}
