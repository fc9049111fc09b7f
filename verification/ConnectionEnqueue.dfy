/** The steps of `enqueue` (internal/ws/gateway.go) with nobody interleaving compute the specification in Outbox.dfy. */
module ConnectionEnqueue {
  import opened Outbox
  import opened Connection
  import opened ConnectionShutdown

  predicate Solo(r: Run) {
    r.Valid() && forall i :: 0 <= i < |r.actions| ==> r.actions[i] == ReaderStep
  }

  lemma {:induction false} SoloCons(s: State, rest: Run) returns (r: Run)
    requires Solo(rest) && Step(s, ReaderStep, rest.states[0])
    ensures Solo(r) && r.states[0] == s && r.Last() == rest.Last()
  {
    r := Run([s] + rest.states, [ReaderStep] + rest.actions);
    forall i | 0 <= i < |r.actions|
      ensures Step(r.states[i], r.actions[i], r.states[i + 1]) && r.actions[i] == ReaderStep
    {
      if i > 0 { assert Step(rest.states[i - 1], rest.actions[i - 1], rest.states[i]); }
    }
  }

  lemma {:induction false} SoloRequeue(s: State) returns (r: Run)
    requires !s.outClosed && !s.panicked && s.reader.Enqueueing? && s.reader.enq.Requeue?
    requires |s.out| + |s.reader.enq.preserved| <= WRITER_QUEUE_CAPACITY
    ensures Solo(r) && r.states[0] == s
    ensures r.Last() == s.(out := s.out + s.reader.enq.preserved,
                           reader := Enqueueing(Send(s.reader.enq.msg), s.reader.andThen))
    decreases |s.reader.enq.preserved|
  {
    var t := EnqueueMoves(s);
    var p := s.reader.enq.preserved;
    var rest: Run;
    if p == [] {
      rest := Run([t], []);
      assert s.out + p == s.out;
    } else {
      rest := SoloRequeue(t);
      assert s.out + p == (s.out + [p[0]]) + p[1..];
    }
    r := SoloCons(s, rest);
  }

  lemma {:induction false} SoloDrain(s: State, q: seq<Message>) returns (r: Run)
    requires !s.outClosed && !s.panicked && s.reader.Enqueueing? && s.reader.enq.Drain?
    requires |q| == WRITER_QUEUE_CAPACITY && s.reader.enq.i <= FirstNonAck(q)
    requires s.out == q[s.reader.enq.i..] && s.reader.enq.preserved == q[..s.reader.enq.i]
    ensures Solo(r) && r.states[0] == s
    ensures var k := FirstNonAck(q);
            r.Last() == s.(out := if k < |q| then q[k + 1..] else [],
                           reader := Enqueueing(Requeue(q[..k], s.reader.enq.msg), s.reader.andThen))
    decreases WRITER_QUEUE_CAPACITY - s.reader.enq.i
  {
    var t := EnqueueMoves(s);
    var i, k := s.reader.enq.i, FirstNonAck(q);
    var rest := Run([t], []);
    if i < k { rest := SoloDrain(t, q); }
    r := SoloCons(s, rest);
  }

  lemma {:induction false} SoloFinish(s: State) returns (r: Run)
    requires !s.outClosed && !s.panicked && s.reader.Enqueueing? && s.reader.enq.Requeue?
    requires |s.out| + |s.reader.enq.preserved| <= WRITER_QUEUE_CAPACITY
    ensures Solo(r) && r.states[0] == s
    ensures var (p, m, next) := (s.reader.enq.preserved, s.reader.enq.msg, s.reader.andThen);
            r.Last() ==
                if |s.out| + |p| < WRITER_QUEUE_CAPACITY then s.(out := s.out + p + [m], reader := AfterEnqueue(next))
                        else s.(out := s.out + p, reader := Enqueueing(Send(m), next))
  {
    r := SoloRequeue(s);
    var last := r.Last();
    if |last.out| < WRITER_QUEUE_CAPACITY {
      var sent := EnqueueMoves(last);
      var tail := SoloCons(last, Run([sent], []));
      r := SoloJoin(r, tail);
    }
  }

  /** A full queue: drain up to the first non-ack, put the acks back, send. */
  lemma {:induction false} SoloFull(s: State) returns (r: Run)
    requires !s.outClosed && !s.panicked && |s.out| == WRITER_QUEUE_CAPACITY
    requires s.reader.Enqueueing? && s.reader.enq == Drain(0, [], s.reader.enq.msg) && s.reader.enq.msg.isAck
    ensures Solo(r) && r.states[0] == s
    ensures var e := EnqueueSpec(s.out, s.reader.enq.msg);
            r.Last() == s.(out := e.queue,
                           reader := if e.blocked then Enqueueing(Send(s.reader.enq.msg), s.reader.andThen)
                                     else AfterEnqueue(s.reader.andThen))
  {
    var k := FirstNonAck(s.out);
    if k == |s.out| { assert [] + s.out[..k] == s.out; }
    var drained := SoloDrain(s, s.out);
    var finished := SoloFinish(drained.Last());
    r := SoloJoin(drained, finished);
  }

  lemma {:induction false} FullSendBlocks(s: State)
    requires |s.out| == WRITER_QUEUE_CAPACITY && !s.outClosed && s.reader.Enqueueing? && s.reader.enq.Send?
    ensures forall t :: !Step(s, ReaderStep, t)
  {
  }

  lemma {:induction false} SpecBlocksFull(q: seq<Message>, msg: Message)
    requires |q| <= WRITER_QUEUE_CAPACITY && EnqueueSpec(q, msg).blocked
    ensures |EnqueueSpec(q, msg).queue| == WRITER_QUEUE_CAPACITY
  {
  }

  /** With nobody interleaving, the steps of `enqueue` compute EnqueueSpec: they end with exactly its
      queue, and with the caller either past `enqueue` or blocked for good on its last send. */
  lemma {:induction false} SoloEnqueue(s: State) returns (r: Run)
    requires !s.outClosed && !s.panicked && |s.out| <= WRITER_QUEUE_CAPACITY
    requires s.reader.Enqueueing? && s.reader.enq.Try? && s.reader.enq.msg.isAck
    ensures Solo(r) && r.states[0] == s
    ensures var e := EnqueueSpec(s.out, s.reader.enq.msg);
            && r.Last() == s.(out := e.queue,
                              reader := if e.blocked then Enqueueing(Send(s.reader.enq.msg), s.reader.andThen)
                                        else AfterEnqueue(s.reader.andThen))
            && (e.blocked ==> forall t :: !Step(r.Last(), ReaderStep, t))
  {
    var t := EnqueueMoves(s);
    if HasRoom(s) {
      r := SoloCons(s, Run([t], []));
    } else {
      r := SoloFull(t);
      r := SoloCons(s, r);
      if EnqueueSpec(s.out, s.reader.enq.msg).blocked {
        SpecBlocksFull(s.out, s.reader.enq.msg);
        FullSendBlocks(r.Last());
      }
    }
  }

  lemma {:induction false} SoloJoin(a: Run, b: Run) returns (r: Run)
    requires Solo(a) && Solo(b) && b.states[0] == a.Last()
    ensures Solo(r) && r.states[0] == a.states[0] && r.Last() == b.Last()
  {
    r := Run(a.states + b.states[1..], a.actions + b.actions);
    forall i | 0 <= i < |r.actions|
      ensures Step(r.states[i], r.actions[i], r.states[i + 1]) && r.actions[i] == ReaderStep
    {
      if i < |a.actions| {
        assert Step(a.states[i], a.actions[i], a.states[i + 1]);
      } else {
        var j := i - |a.actions|;
        assert Step(b.states[j], b.actions[j], b.states[j + 1]);
      }
    }
  }
}
