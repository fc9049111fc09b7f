/** One WebSocket connection of the gateway (internal/ws/gateway.go): reader, writer, heartbeat,
    the orchestrator `runConnection`, and the parent-context watcher, interleaved one channel or
    socket operation at a time. An action says who moves and what the peer or the clock did; `Step`
    relates the states before and after, and relates nothing when that goroutine cannot move (a
    blocked send, a receive on an empty channel, a Wait). */
module Connection {
  import opened Common
  import opened Outbox

  // ---------------------------------------------------------------- state

  /** The close reasons of `setClose`, and the default that stands until the first call. */
  datatype Close =
    | Bye | PeerClosed | ServerShutdown | BinaryFrame | MalformedEnvelope | UnknownType | HeartbeatTimeout
  {
    /** The status code, as section 7.4.1 of RFC 6455 assigns them. */
    function Status(): nat {
      match this
      case Bye => 1000
      case PeerClosed => 1000
      case ServerShutdown => 1001
      case BinaryFrame => 1003
      case MalformedEnvelope => 1003
      case UnknownType => 1003
      case HeartbeatTimeout => 1011
    }
  }

  /** What one conn.Read hands to the reader. The nat is the id of the ack the frame leads to. */
  datatype Frame = ReadError | Binary | Malformed(ack: nat) | Pong | Unknown(ack: nat) | Handled(ack: nat)

  /** Where `enqueue` stands. */
  datatype Enq =
    | Try(msg: Message)
    | Drain(i: nat, preserved: seq<Message>, msg: Message)
    | Requeue(preserved: seq<Message>, msg: Message)
    | Send(msg: Message)

  datatype Reader =
    | Reading
    | Enqueueing(enq: Enq, andThen: Option<Close>)
    | ReaderSetsClose(close: Close)
    | ReaderReturned
    | ReaderTriggered
    | ReaderDone

  datatype Writer = Receiving | Writing(msg: Message) | Discarding | WriterDone

  datatype Heartbeat =
    | Waiting
    | Pinging(ping: Message)
    | AwaitingPong
    | HeartbeatSetsClose
    | HeartbeatReturned
    | HeartbeatTriggered
    | HeartbeatDone

  datatype Orchestrator =
    | AwaitShutdown
    | AwaitHeartbeat
    | ReadClose
    | SendClose(close: Close)
    | AwaitReader
    | CloseOut
    | AwaitWriter
    | OrchestratorDone

  datatype Watcher = Watching | WatcherSetsClose | WatcherTriggers | WatcherDone

  /** `closeStatus`/`closeReason`/`closeSet`, with every call to `setClose` so far. */
  datatype CloseCell = CloseCell(isSet: bool, value: Close, calls: seq<Close>)

  /** Acks made by the reader, and where the writer has put the ones it is done with. */
  datatype Ledger = Ledger(produced: multiset<Message>, written: multiset<Message>,
                           unmarshalled: multiset<Message>, discarded: multiset<Message>)

  datatype State = State(
    out: seq<Message>, outClosed: bool, panicked: bool, ledger: Ledger,
    pong: bool, shutdown: bool, cell: CloseCell, socketClosed: bool, frameSent: Option<Close>,
    reader: Reader, writer: Writer, heartbeat: Heartbeat, orchestrator: Orchestrator, watcher: Watcher)

  const INIT := State([], false, false, Ledger(multiset{}, multiset{}, multiset{}, multiset{}),
                      false, false, CloseCell(false, Bye, []), false, None,
                      Reading, Receiving, Waiting, AwaitShutdown, Watching)

  // ---------------------------------------------------------------- steps

  datatype WriteResult = Written | MarshalFailed | WriteFailed

  datatype Action =
    | Read(frame: Frame)
    | ReaderStep
    | WriterReceive
    | Write(result: WriteResult)
    | Tick(ping: nat)
    | HeartbeatShutdown
    | HeartbeatPong
    | HeartbeatTimer
    | HeartbeatStep
    | OrchestratorStep
    | WatcherStep

  predicate QueueKept(s: State, t: State) {
    t.out == s.out && t.outClosed == s.outClosed && t.panicked == s.panicked && t.ledger == s.ledger
  }

  predicate CloseKept(s: State, t: State) {
    t.cell == s.cell && t.socketClosed == s.socketClosed && t.frameSent == s.frameSent
  }

  predicate OnlyReader(s: State, t: State) {
    t.writer == s.writer && t.heartbeat == s.heartbeat && t.orchestrator == s.orchestrator && t.watcher == s.watcher
  }

  predicate OnlyWriter(s: State, t: State) {
    t.reader == s.reader && t.heartbeat == s.heartbeat && t.orchestrator == s.orchestrator && t.watcher == s.watcher
  }

  predicate OnlyHeartbeat(s: State, t: State) {
    t.reader == s.reader && t.writer == s.writer && t.orchestrator == s.orchestrator && t.watcher == s.watcher
  }

  /** `setClose`: the first call wins. */
  predicate SetClose(s: State, t: State, c: Close) {
    && t.cell == CloseCell(true, if s.cell.isSet then s.cell.value else c, s.cell.calls + [c])
    && t.socketClosed == s.socketClosed && t.frameSent == s.frameSent && t.shutdown == s.shutdown && t.pong == s.pong
  }

  predicate SignalsKept(s: State, t: State) {
    t.shutdown == s.shutdown && t.pong == s.pong
  }

  predicate HasRoom(s: State) {
    s.outClosed || |s.out| < WRITER_QUEUE_CAPACITY
  }

  /** `out <- m` where there is room; a send on the closed channel panics. */
  predicate Push(s: State, t: State, m: Message) {
    && HasRoom(s)
    && t.ledger == s.ledger && t.outClosed == s.outClosed
    && t.panicked == (s.panicked || s.outClosed)
    && t.out == if s.outClosed then s.out else s.out + [m]
  }

  /** `<-out` where there is something to take. */
  predicate Pop(s: State, t: State) {
    s.out != [] && t.out == s.out[1..] && t.outClosed == s.outClosed && t.panicked == s.panicked
  }

  function AckOf(m: Message): multiset<Message> {
    if m.isAck then multiset{m} else multiset{}
  }

  predicate StartAck(s: State, t: State, ack: nat, andThen: Option<Close>) {
    var m := Message(ack, true);
    && t.out == s.out && t.outClosed == s.outClosed && t.panicked == s.panicked && SignalsKept(s, t)
    && t.ledger == s.ledger.(produced := s.ledger.produced + multiset{m})
    && t.reader == Enqueueing(Try(m), andThen)
  }

  /** One `conn.Read`; a closed socket can only report an error. */
  predicate ReadStep(s: State, f: Frame, t: State) {
    && s.reader == Reading && (s.socketClosed ==> f == ReadError)
    && CloseKept(s, t) && OnlyReader(s, t)
    && match f
       case ReadError => QueueKept(s, t) && SignalsKept(s, t) && t.reader == ReaderSetsClose(PeerClosed)
       case Binary => QueueKept(s, t) && SignalsKept(s, t) && t.reader == ReaderSetsClose(BinaryFrame)
       case Pong => QueueKept(s, t) && t.shutdown == s.shutdown && t.pong && t.reader == s.reader
       case Malformed(a) => StartAck(s, t, a, Some(MalformedEnvelope))
       case Unknown(a) => StartAck(s, t, a, Some(UnknownType))
       case Handled(a) => StartAck(s, t, a, None)
  }

  function AfterEnqueue(andThen: Option<Close>): Reader {
    if andThen.Some? then ReaderSetsClose(andThen.value) else Reading
  }

  /** The next channel operation of `enqueue`. */
  predicate EnqueueStep(s: State, enq: Enq, next: Option<Close>, t: State) {
    match enq
    case Try(m) =>
      if HasRoom(s) then Push(s, t, m) && t.reader == AfterEnqueue(next)
      else QueueKept(s, t) && t.reader == Enqueueing(Drain(0, [], m), next)
    case Drain(i, p, m) =>
      if i >= WRITER_QUEUE_CAPACITY || s.out == [] then
        QueueKept(s, t) && t.reader == Enqueueing(Requeue(p, m), next)
      else
        && Pop(s, t) && t.ledger == s.ledger
        && t.reader == Enqueueing(if s.out[0].isAck then Drain(i + 1, p + [s.out[0]], m) else Requeue(p, m), next)
    case Requeue(p, m) =>
      if p == [] then QueueKept(s, t) && t.reader == Enqueueing(Send(m), next)
      else Push(s, t, p[0]) && t.reader == Enqueueing(Requeue(p[1..], m), next)
    case Send(m) => Push(s, t, m) && t.reader == AfterEnqueue(next)
  }

  predicate ReaderLocalStep(s: State, t: State) {
    && OnlyReader(s, t)
    && match s.reader
       case Enqueueing(enq, next) => CloseKept(s, t) && SignalsKept(s, t) && EnqueueStep(s, enq, next, t)
       case ReaderSetsClose(c) => QueueKept(s, t) && SetClose(s, t, c) && t.reader == ReaderReturned
       case ReaderReturned => QueueKept(s, t) && CloseKept(s, t) && t.pong == s.pong && t.shutdown
           && t.reader == ReaderTriggered
       case ReaderTriggered => QueueKept(s, t) && CloseKept(s, t) && SignalsKept(s, t) && t.reader == ReaderDone
       case _ => false
  }

  /** The writer's `range out`: on the closed and empty channel it ends. */
  predicate WriterReceiveStep(s: State, t: State) {
    && CloseKept(s, t) && SignalsKept(s, t) && OnlyWriter(s, t)
    && (s.writer.Receiving? || s.writer.Discarding?)
    && if s.out == [] then s.outClosed && QueueKept(s, t) && t.writer == WriterDone
       else if s.writer.Receiving? then Pop(s, t) && t.ledger == s.ledger && t.writer == Writing(s.out[0])
       else
         && Pop(s, t) && t.writer == Discarding
         && t.ledger == s.ledger.(discarded := s.ledger.discarded + AckOf(s.out[0]))
  }

  predicate WriteStep(s: State, r: WriteResult, t: State) {
    && CloseKept(s, t) && SignalsKept(s, t) && OnlyWriter(s, t)
    && s.writer.Writing? && t.out == s.out && t.outClosed == s.outClosed && t.panicked == s.panicked
    && var a := AckOf(s.writer.msg);
       match r
       case Written => t.ledger == s.ledger.(written := s.ledger.written + a) && t.writer == Receiving
       case MarshalFailed => t.ledger == s.ledger.(unmarshalled := s.ledger.unmarshalled + a) && t.writer == Receiving
       case WriteFailed => t.ledger == s.ledger.(discarded := s.ledger.discarded + a) && t.writer == Discarding
  }

  /** The two selects of the heartbeat. */
  predicate HeartbeatSelect(s: State, a: Action, t: State) {
    && QueueKept(s, t) && CloseKept(s, t) && OnlyHeartbeat(s, t) && t.shutdown == s.shutdown
    && match a
       case Tick(p) => s.heartbeat.Waiting? && t.heartbeat == Pinging(Message(p, false)) && t.pong == s.pong
       case HeartbeatShutdown =>
         && s.shutdown && (s.heartbeat.Waiting? || s.heartbeat.AwaitingPong?)
         && t.heartbeat == HeartbeatReturned && t.pong == s.pong
       case HeartbeatPong => s.pong && s.heartbeat.AwaitingPong? && t.heartbeat == Waiting && !t.pong
       case HeartbeatTimer => s.heartbeat.AwaitingPong? && t.heartbeat == HeartbeatSetsClose && t.pong == s.pong
       case _ => false
  }

  /** A ping that finds the queue full is dropped. */
  predicate HeartbeatLocalStep(s: State, t: State) {
    && OnlyHeartbeat(s, t)
    && match s.heartbeat
       case Pinging(p) =>
         && CloseKept(s, t) && SignalsKept(s, t) && t.heartbeat == AwaitingPong
         && (if HasRoom(s) then Push(s, t, p) else QueueKept(s, t))
       case HeartbeatSetsClose => QueueKept(s, t) && SetClose(s, t, HeartbeatTimeout)
           && t.heartbeat == HeartbeatReturned
       case HeartbeatReturned =>
         QueueKept(s, t) && CloseKept(s, t) && t.pong == s.pong && t.shutdown && t.heartbeat == HeartbeatTriggered
       case HeartbeatTriggered => QueueKept(s, t) && CloseKept(s, t) && SignalsKept(s, t)
           && t.heartbeat == HeartbeatDone
       case _ => false
  }

  /** `runConnection` from `<-shutdown` to its last Wait. */
  predicate OrchestratorLocalStep(s: State, t: State) {
    && SignalsKept(s, t) && t.cell == s.cell && t.out == s.out && t.ledger == s.ledger
    && t.reader == s.reader && t.writer == s.writer && t.heartbeat == s.heartbeat && t.watcher == s.watcher
    && (s.orchestrator.SendClose? || CloseKept(s, t))
    && (s.orchestrator.CloseOut? || QueueKept(s, t))
    && match s.orchestrator
       case AwaitShutdown => s.shutdown && t.orchestrator == AwaitHeartbeat
       case AwaitHeartbeat => s.heartbeat.HeartbeatDone? && t.orchestrator == ReadClose
       case ReadClose => t.orchestrator == SendClose(s.cell.value)
       case SendClose(c) => t.socketClosed && t.frameSent == Some(c) && t.orchestrator == AwaitReader
       case AwaitReader => s.reader.ReaderDone? && t.orchestrator == CloseOut
       case CloseOut => t.outClosed && t.panicked == (s.panicked || s.outClosed) && t.orchestrator == AwaitWriter
       case AwaitWriter => s.writer.WriterDone? && t.orchestrator == OrchestratorDone
       case OrchestratorDone => false
  }

  predicate WatcherLocalStep(s: State, t: State) {
    && QueueKept(s, t)
    && t.reader == s.reader && t.writer == s.writer && t.heartbeat == s.heartbeat && t.orchestrator == s.orchestrator
    && match s.watcher
       case Watching => CloseKept(s, t) && SignalsKept(s, t) && t.watcher == WatcherSetsClose
       case WatcherSetsClose => SetClose(s, t, ServerShutdown) && t.watcher == WatcherTriggers
       case WatcherTriggers => CloseKept(s, t) && t.pong == s.pong && t.shutdown && t.watcher == WatcherDone
       case WatcherDone => false
  }

  predicate Step(s: State, a: Action, t: State) {
    match a
    case Read(f) => ReadStep(s, f, t)
    case ReaderStep => ReaderLocalStep(s, t)
    case WriterReceive => WriterReceiveStep(s, t)
    case Write(r) => WriteStep(s, r, t)
    case HeartbeatStep => HeartbeatLocalStep(s, t)
    case OrchestratorStep => OrchestratorLocalStep(s, t)
    case WatcherStep => WatcherLocalStep(s, t)
    case _ => HeartbeatSelect(s, a, t)
  }

  /** A run: the actions taken and every state passed through. */
  datatype Run = Run(states: seq<State>, actions: seq<Action>) {
    predicate Valid() {
      && |states| == |actions| + 1
      && forall i :: 0 <= i < |actions| ==> Step(states[i], actions[i], states[i + 1])
    }

    function Last(): State
      requires states != []
    {
      states[|states| - 1]
    }

    function Front(): Run
      requires states != [] && actions != []
    {
      Run(states[..|states| - 1], actions[..|actions| - 1])
    }
  }

  // ---------------------------------------------------------------- conservation of acks

  function ReaderHeld(r: Reader): multiset<Message> {
    if !r.Enqueueing? then multiset{}
    else match r.enq
      case Try(m) => multiset{m}
      case Drain(_, p, m) => multiset(p) + multiset{m}
      case Requeue(p, m) => multiset(p) + multiset{m}
      case Send(m) => multiset{m}
  }

  function WriterHeld(w: Writer): multiset<Message> {
    if w.Writing? then AckOf(w.msg) else multiset{}
  }

  predicate EnqWellFormed(e: Enq) {
    && e.msg.isAck
    && (e.Drain? ==> AllAcks(e.preserved) && |e.preserved| == e.i <= WRITER_QUEUE_CAPACITY)
    && (e.Requeue? ==> AllAcks(e.preserved) && |e.preserved| <= WRITER_QUEUE_CAPACITY)
  }

  /** Everywhere an ack can be once the reader has produced it. */
  function Located(s: State, m: Message): nat {
    s.ledger.written[m] + s.ledger.unmarshalled[m] + s.ledger.discarded[m]
    + Acks(s.out)[m] + ReaderHeld(s.reader)[m] + WriterHeld(s.writer)[m]
  }

  predicate BalancedFor(s: State, m: Message) {
    s.ledger.produced[m] == Located(s, m)
  }

  ghost predicate Balanced(s: State) {
    forall m :: BalancedFor(s, m)
  }

  predicate Shaped(s: State) {
    && |s.out| <= WRITER_QUEUE_CAPACITY
    && (s.reader.Enqueueing? ==> EnqWellFormed(s.reader.enq))
    && (s.heartbeat.Pinging? ==> !s.heartbeat.ping.isAck)
  }

  lemma {:induction false} PushAcks(s: State, t: State, m: Message)
    requires Push(s, t, m) && !s.outClosed
    ensures Acks(t.out) == Acks(s.out) + AckOf(m)
  {
    AcksAppend(s.out, [m]);
    AcksOne(m);
  }

  lemma {:induction false} PopAcks(s: State, t: State)
    requires Pop(s, t)
    ensures Acks(s.out) == AckOf(s.out[0]) + Acks(t.out)
  {
    AcksHead(s.out);
    AcksOne(s.out[0]);
  }

  lemma {:induction false} TrySendBalance(s: State, t: State, m: Message)
    requires BalancedFor(s, m) && !s.outClosed && s.reader.Enqueueing? && ReaderLocalStep(s, t)
    requires (s.reader.enq.Try? || s.reader.enq.Send?) && s.reader.enq.msg.isAck
    ensures BalancedFor(t, m)
  {
    if HasRoom(s) { PushAcks(s, t, s.reader.enq.msg); }
  }

  /** A drained ack moves into the reader's hands; a drained non-ack ends the drain. */
  lemma {:induction false} DrainHeld(s: State, t: State, m: Message)
    requires s.reader.Enqueueing? && s.reader.enq.Drain? && ReaderLocalStep(s, t)
    requires s.reader.enq.i < WRITER_QUEUE_CAPACITY && s.out != []
    ensures ReaderHeld(t.reader)[m] == ReaderHeld(s.reader)[m] + AckOf(s.out[0])[m]
  {
  }

  lemma {:induction false} DrainBalance(s: State, t: State, m: Message)
    requires BalancedFor(s, m) && s.reader.Enqueueing? && s.reader.enq.Drain? && ReaderLocalStep(s, t)
    ensures BalancedFor(t, m)
  {
    if s.reader.enq.i < WRITER_QUEUE_CAPACITY && s.out != [] {
      PopAcks(s, t);
      DrainHeld(s, t, m);
    } else {
      BalanceFrame(s, t, m);
    }
  }

  lemma {:induction false} RequeueBalance(s: State, t: State, m: Message)
    requires BalancedFor(s, m) && !s.outClosed && s.reader.Enqueueing? && s.reader.enq.Requeue? && ReaderLocalStep(s, t)
    requires AllAcks(s.reader.enq.preserved)
    ensures BalancedFor(t, m)
  {
    var p := s.reader.enq.preserved;
    if p == [] {
      BalanceFrame(s, t, m);
    } else {
      RequeuePushes(s, t);
      PushAcks(s, t, p[0]);
      HeldShrinks(p, s.reader.enq.msg, m);
    }
  }

  lemma {:induction false} RequeuePushes(s: State, t: State)
    requires !s.outClosed && s.reader.Enqueueing? && s.reader.enq.Requeue? && ReaderLocalStep(s, t)
    requires s.reader.enq.preserved != []
    ensures var (p, msg) := (s.reader.enq.preserved, s.reader.enq.msg);
            && Push(s, t, p[0]) && t.reader == Enqueueing(Requeue(p[1..], msg), s.reader.andThen)
            && t.ledger == s.ledger && t.writer == s.writer
  {
  }

  lemma {:induction false} HeldShrinks(p: seq<Message>, msg: Message, m: Message)
    requires p != [] && AllAcks(p)
    ensures (multiset(p) + multiset{msg})[m] == (multiset(p[1..]) + multiset{msg})[m] + AckOf(p[0])[m]
  {
    HeadCount(p, m);
  }

  lemma {:induction false} HeadCount(p: seq<Message>, m: Message)
    requires p != [] && AllAcks(p)
    ensures multiset(p)[m] == multiset(p[1..])[m] + AckOf(p[0])[m]
  {
    assert p == [p[0]] + p[1..];
  }

  /** The balance depends only on the queue, the ledger and the two holders. */
  lemma {:induction false} BalanceFrame(s: State, t: State, m: Message)
    requires BalancedFor(s, m) && Acks(t.out)[m] == Acks(s.out)[m] && t.ledger == s.ledger
    requires ReaderHeld(t.reader) == ReaderHeld(s.reader) && WriterHeld(t.writer) == WriterHeld(s.writer)
    ensures BalancedFor(t, m)
  {
  }

  lemma {:induction false} WriterReceiveBalance(s: State, t: State, m: Message)
    requires BalancedFor(s, m) && WriterReceiveStep(s, t)
    ensures BalancedFor(t, m)
  {
    if s.out == [] { BalanceFrame(s, t, m); } else { PopAcks(s, t); }
  }

  lemma {:induction false} WriteBalance(s: State, r: WriteResult, t: State, m: Message)
    requires BalancedFor(s, m) && WriteStep(s, r, t)
    ensures BalancedFor(t, m)
  {
  }

  lemma {:induction false} ReadBalance(s: State, f: Frame, t: State, m: Message)
    requires BalancedFor(s, m) && ReadStep(s, f, t)
    ensures BalancedFor(t, m)
  {
    if QueueKept(s, t) { BalanceFrame(s, t, m); }
  }

  lemma {:induction false} HeartbeatBalance(s: State, t: State, m: Message)
    requires BalancedFor(s, m) && Shaped(s) && HeartbeatLocalStep(s, t) && (s.heartbeat.Pinging? ==> !s.outClosed)
    ensures BalancedFor(t, m)
  {
    if s.heartbeat.Pinging? && HasRoom(s) { PushAcks(s, t, s.heartbeat.ping); }
    BalanceFrame(s, t, m);
  }

  lemma {:induction false} StepBalance(s: State, a: Action, t: State, m: Message)
    requires BalancedFor(s, m) && Shaped(s) && Sequenced(s) && Step(s, a, t)
    ensures BalancedFor(t, m)
  {
    match a {
      case Read(f) => ReadBalance(s, f, t, m);
      case ReaderStep =>
        if !s.reader.Enqueueing? { BalanceFrame(s, t, m); }
        else if s.reader.enq.Drain? { DrainBalance(s, t, m); }
        else if s.reader.enq.Requeue? { RequeueBalance(s, t, m); }
        else { TrySendBalance(s, t, m); }
      case WriterReceive => WriterReceiveBalance(s, t, m);
      case Write(r) => WriteBalance(s, r, t, m);
      case HeartbeatStep => HeartbeatBalance(s, t, m);
      case _ => BalanceFrame(s, t, m);
    }
  }

  lemma {:induction false} StepShaped(s: State, a: Action, t: State)
    requires Shaped(s) && Step(s, a, t)
    ensures Shaped(t)
  {
  }

  // ---------------------------------------------------------------- shutdown sequence

  function Phase(o: Orchestrator): nat {
    match o
    case AwaitShutdown => 0
    case AwaitHeartbeat => 1
    case ReadClose => 2
    case SendClose(_) => 3
    case AwaitReader => 4
    case CloseOut => 5
    case AwaitWriter => 6
    case OrchestratorDone => 7
  }

  predicate Sequenced(s: State) {
    var p := Phase(s.orchestrator);
    && !s.panicked
    && (p >= 1 ==> s.shutdown)
    && (p >= 2 ==> s.heartbeat.HeartbeatDone?)
    && (s.socketClosed <==> p >= 4)
    && (p >= 5 ==> s.reader.ReaderDone?)
    && (s.outClosed <==> p >= 6)
    && (p == 7 ==> s.writer.WriterDone?)
    && (s.writer.WriterDone? ==> s.outClosed && s.out == [])
  }

  lemma {:induction false} StepSequenced(s: State, a: Action, t: State)
    requires Sequenced(s) && Step(s, a, t)
    ensures Sequenced(t)
  {
  }

  // ---------------------------------------------------------------- the close frame

  predicate FirstCall(s: State, c: Close) {
    s.cell.calls != [] && c == s.cell.calls[0]
  }

  predicate CloseTyped(s: State) {
    && Bye !in s.cell.calls
    && (s.cell.isSet <==> s.cell.calls != [])
    && (s.cell.isSet ==> FirstCall(s, s.cell.value))
    && (s.shutdown ==> s.cell.isSet)
    && (s.reader.ReaderReturned? || s.reader.ReaderTriggered? || s.reader.ReaderDone? ==> s.cell.isSet)
    && (s.heartbeat.HeartbeatReturned? || s.heartbeat.HeartbeatTriggered? || s.heartbeat.HeartbeatDone? ==>
        s.cell.isSet)
    && (s.watcher.WatcherTriggers? || s.watcher.WatcherDone? ==> s.cell.isSet)
    && (s.reader.ReaderSetsClose? ==> s.reader.close != Bye)
    && (s.reader.Enqueueing? && s.reader.andThen.Some? ==> s.reader.andThen.value != Bye)
    && (s.orchestrator.SendClose? ==> FirstCall(s, s.orchestrator.close))
    && (s.frameSent.Some? ==> FirstCall(s, s.frameSent.value))
    && (Phase(s.orchestrator) >= 4 <==> s.frameSent.Some?)
  }

  lemma {:induction false} StepCloseTyped(s: State, a: Action, t: State)
    requires CloseTyped(s) && Sequenced(s) && Step(s, a, t)
    ensures CloseTyped(t)
  {
  }

  // ---------------------------------------------------------------- safety over every run

  ghost predicate Inv(s: State) {
    Shaped(s) && Balanced(s) && Sequenced(s) && CloseTyped(s)
  }

  lemma {:induction false} StepInv(s: State, a: Action, t: State)
    requires Inv(s) && Step(s, a, t)
    ensures Inv(t)
  {
    StepShaped(s, a, t);
    StepSequenced(s, a, t);
    StepCloseTyped(s, a, t);
    forall m ensures BalancedFor(t, m) {
      assert BalancedFor(s, m);
      StepBalance(s, a, t, m);
    }
  }

  lemma {:induction false} RunInv(r: Run)
    requires r.Valid() && Inv(r.states[0])
    ensures Inv(r.Last())
    decreases |r.actions|
  {
    if r.actions != [] {
      RunInv(r.Front());
      StepInv(r.Front().Last(), r.actions[|r.actions| - 1], r.Last());
    }
  }

  /** In every interleaving each ack produced is written, skipped because it cannot be marshalled,
      discarded by the writer after its first failed write, still queued, or in the hands of the
      reader's `enqueue` or the writer; and the channel never exceeds its 64 slots. */
  lemma {:induction false} AcksNeverDrop(r: Run)
    requires r.Valid() && r.states[0] == INIT
    ensures var s := r.Last();
            && |s.out| <= 64
            && s.ledger.produced == s.ledger.written + s.ledger.unmarshalled + s.ledger.discarded
                                    + Acks(s.out) + ReaderHeld(s.reader) + WriterHeld(s.writer)
  {
    RunInv(r);
    var s := r.Last();
    forall m ensures s.ledger.produced[m] == Located(s, m) {
      assert BalancedFor(s, m);
    }
  }

  /** No goroutine ever sends on the closed channel, and it is closed once. */
  lemma {:induction false} NeverPanics(r: Run)
    requires r.Valid() && r.states[0] == INIT
    ensures !r.Last().panicked
  {
    RunInv(r);
  }

  /** The close frame carries the first `setClose`, which always exists by then; so the default
      "bye" never reaches the wire. Shutdown itself is never triggered without a `setClose`. */
  lemma {:induction false} CloseFrameIsFirstSetClose(r: Run)
    requires r.Valid() && r.states[0] == INIT
    ensures var s := r.Last();
            && (s.shutdown ==> s.cell.calls != [])
            && (s.frameSent.Some? ==>
                  s.cell.calls != [] && s.frameSent.value == s.cell.calls[0] && s.frameSent.value != Bye)
  {
    RunInv(r);
  }
}
