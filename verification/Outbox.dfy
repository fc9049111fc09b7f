/** The per-connection writer queue of the WebSocket gateway: `enqueue` and its backpressure rule
    (internal/ws/gateway.go), with nobody else touching the channel. Connection.dfy lets the other
    goroutines interleave with it. */
module Outbox {
  import opened Common

  const WRITER_QUEUE_CAPACITY: nat := 64

  datatype Message = Message(id: nat, isAck: bool)

  /** Index of the oldest non-ack, or |q| when every entry is an ack. */
  function FirstNonAck(q: seq<Message>): (k: nat)
    ensures k <= |q|
    ensures forall i :: 0 <= i < k ==> q[i].isAck
    ensures k < |q| ==> !q[k].isAck
  {
    if q == [] || !q[0].isAck then 0 else 1 + FirstNonAck(q[1..])
  }

  predicate AllAcks(q: seq<Message>) {
    forall i :: 0 <= i < |q| ==> q[i].isAck
  }

  /** The acks of a queue, with multiplicity. */
  function Acks(q: seq<Message>): multiset<Message> {
    if q == [] then multiset{}
    else Acks(q[..|q| - 1]) + (if q[|q| - 1].isAck then multiset{q[|q| - 1]} else multiset{})
  }

  /** What `enqueue` leaves in the channel, and whether the caller is still blocked on its last send. */
  datatype Enqueued = Enqueued(queue: seq<Message>, blocked: bool)

  function EnqueueSpec(q: seq<Message>, msg: Message): Enqueued {
    if |q| < WRITER_QUEUE_CAPACITY then Enqueued(q + [msg], false)
    else if !msg.isAck then Enqueued(q, false)
    else
      var k := FirstNonAck(q);
      if k < |q| then Enqueued(q[k + 1..] + q[..k] + [msg], false)
      else Enqueued(q, true)
  }

  lemma {:induction false} RegroupAcks(a: multiset<Message>, b: multiset<Message>, c: multiset<Message>)
    ensures a + b + c == a + (b + c)
  {
  }

  lemma {:induction false} AcksAppend(q: seq<Message>, r: seq<Message>)
    ensures Acks(q + r) == Acks(q) + Acks(r)
  {
    if r == [] {
      assert q + r == q;
    } else {
      var (init, last) := (r[..|r| - 1], r[|r| - 1]);
      var tail := if last.isAck then multiset{last} else multiset{};
      AcksAppend(q, init);
      assert (q + r)[..|q + r| - 1] == q + init;
      assert Acks(q + r) == Acks(q + init) + tail && Acks(r) == Acks(init) + tail;
      RegroupAcks(Acks(q), Acks(init), tail);
    }
  }

  lemma {:induction false} AcksOne(m: Message)
    ensures Acks([m]) == if m.isAck then multiset{m} else multiset{}
  {
    assert [m][..0] == [];
  }

  lemma {:induction false} AcksHead(q: seq<Message>)
    requires q != []
    ensures Acks(q) == Acks([q[0]]) + Acks(q[1..])
  {
    AcksAppend([q[0]], q[1..]);
    assert [q[0]] + q[1..] == q;
  }

  /** Turning the queue around a non-ack and adding msg keeps its acks. */
  lemma {:induction false} RotationAcks(front: seq<Message>, x: Message, rest: seq<Message>, msg: Message)
    requires !x.isAck
    ensures Acks(rest + front + [msg]) == Acks(front + [x] + rest) + Acks([msg])
  {
    AcksAppend(front + [x], rest);
    AcksAppend(front, [x]);
    AcksOne(x);
    AcksAppend(rest + front, [msg]);
    AcksAppend(rest, front);
  }

  /** Acks never drop: whatever the queue held, the acks after `enqueue` are the acks before it plus
      the new one, except that a caller blocked on an all-ack queue still holds its ack. Room is made
      only by dropping one non-ack, and never more than needed. */
  lemma {:induction false} EnqueueKeepsAcks(q: seq<Message>, msg: Message)
    requires |q| <= WRITER_QUEUE_CAPACITY
    ensures var e := EnqueueSpec(q, msg);
            && |e.queue| <= WRITER_QUEUE_CAPACITY
            && Acks(e.queue) + (if e.blocked then multiset{msg} else multiset{}) == Acks(q) + Acks([msg])
            && (e.blocked <==> msg.isAck && |q| == WRITER_QUEUE_CAPACITY && AllAcks(q))
            && (|q| == WRITER_QUEUE_CAPACITY ==> |e.queue| == |q|)
  {
    AcksAppend(q, [msg]);
    AcksOne(msg);
    if |q| == WRITER_QUEUE_CAPACITY && msg.isAck {
      var k := FirstNonAck(q);
      if k < |q| {
        var rest, front := q[k + 1..], q[..k];
        assert !AllAcks(q);
        assert q == front + [q[k]] + rest;
        RotationAcks(front, q[k], rest, msg);
      }
    }
  }

  /** A buffered Go channel, used without blocking. */
  class Channel {
    var buffer: seq<Message>

    predicate Valid() reads this {
      |buffer| <= WRITER_QUEUE_CAPACITY
    }

    constructor ()
      ensures Valid() && buffer == []
    {
      buffer := [];
    }

    /** `select { case out <- msg: default: }` */
    method TrySend(msg: Message) returns (sent: bool)
      requires Valid()
      modifies this
      ensures Valid()
      ensures sent <==> |old(buffer)| < WRITER_QUEUE_CAPACITY
      ensures buffer == if sent then old(buffer) + [msg] else old(buffer)
    {
      sent := |buffer| < WRITER_QUEUE_CAPACITY;
      if sent { buffer := buffer + [msg]; }
    }

    /** `select { case existing := <-out: default: }` */
    method TryReceive() returns (head: Option<Message>)
      requires Valid()
      modifies this
      ensures Valid()
      ensures old(buffer) == [] ==> head == None && buffer == []
      ensures old(buffer) != [] ==> head == Some(old(buffer)[0]) && buffer == old(buffer)[1..]
    {
      if buffer == [] { return None; }
      head := Some(buffer[0]);
      buffer := buffer[1..];
    }

    /** Drains a full channel until one non-ack has been evicted. */
    method Drain() returns (preserved: seq<Message>)
      requires |buffer| == WRITER_QUEUE_CAPACITY
      modifies this
      ensures Valid()
      ensures var (q, k) := (old(buffer), FirstNonAck(old(buffer)));
              preserved == q[..k] && buffer == if k < |q| then q[k + 1..] else []
    {
      ghost var q := buffer;
      ghost var k := FirstNonAck(q);
      preserved := [];
      for i := 0 to WRITER_QUEUE_CAPACITY
        invariant i <= k && preserved == q[..i] && buffer == q[i..]
      {
        var existing := TryReceive();
        if existing.None? { break; }
        if !existing.value.isAck { return; }
        preserved := preserved + [existing.value];
      }
    }

    /** Puts the preserved acks back, in order. */
    method Requeue(preserved: seq<Message>)
      requires Valid() && |buffer| + |preserved| <= WRITER_QUEUE_CAPACITY
      modifies this
      ensures Valid() && buffer == old(buffer) + preserved
    {
      for j := 0 to |preserved|
        invariant buffer == old(buffer) + preserved[..j]
      {
        var requeued := TrySend(preserved[j]);
        assert requeued && preserved[..j + 1] == preserved[..j] + [preserved[j]];
      }
      assert preserved[..|preserved|] == preserved;
    }

    /** enqueue: a full channel is drained up to its first non-ack, the acks drained before it are re-queued behind the
        rest, and the message follows. On a channel full of acks the last send blocks. */
    method Enqueue(msg: Message) returns (blocked: bool)
      requires Valid()
      modifies this
      ensures Valid()
      ensures Enqueued(buffer, blocked) == EnqueueSpec(old(buffer), msg)
    {
      var sent := TrySend(msg);
      if sent || !msg.isAck { return false; }
      var preserved := Drain();
      Requeue(preserved);
      assert [] + preserved == preserved;
      sent := TrySend(msg);
      return !sent;
    }
  }
}
