/** How many copies of one event the stream can hold while several workers and XAUTOCLAIM are at work
    (internal/ingest/consumer.go), over the runs of Ingest.dfy. A worker that has re-added an event still holds the old
    entry until it acks it. Apart from such entries an unsettled event has exactly one live copy, and every entry one
    holder, exactly for as long as every step is careful in the sense below. */
module IngestCopies {
  import opened Common
  import opened Ingest

  // ---------------------------------------------------------------- copies

  predicate Copy(st: Store, e: nat, k: nat) {
    Live(st, k) && st.stream[k].body.event == e
  }

  /** A live copy that no worker is about to ack. */
  ghost predicate Free(s: State, e: nat, k: nat) {
    Copy(s.store, e, k) && forall w :: w in s.tasks ==> s.tasks[w] != Acking(k)
  }

  ghost predicate Waits(s: State, e: nat, k: nat) {
    Free(s, e, k) && forall m: nat :: Free(s, e, m) ==> m == k
  }

  /** The deliveries an event has had or is waiting for. */
  function Attempts(st: Store, e: nat): set<nat> {
    set k: nat | k < |st.stream| && st.stream[k].body.event == e
  }

  predicate On(s: State, w: nat, e: nat) {
    w in s.tasks && s.tasks[w].id < |s.store.stream| && EventOf(s, s.tasks[w].id) == e
  }

  /** No two workers hold the same entry of e, and none holds an acked one. */
  ghost predicate Exclusive(s: State, e: nat) {
    && (forall w, v :: On(s, w, e) && On(s, v, e) && s.tasks[w].id == s.tasks[v].id ==> w == v)
    && (forall w :: On(s, w, e) ==> s.tasks[w].id !in s.store.acked)
  }

  /** Exactly one copy waits, it was re-added once per earlier attempt, and every entry has one holder. */
  ghost predicate Single(s: State, e: nat) {
    && (exists k: nat :: Waits(s, e, k) && s.store.stream[k].retries + 1 == |Attempts(s.store, e)|)
    && Exclusive(s, e)
  }

  ghost predicate Good(s: State, e: nat) {
    InStream(s.store, e) && !Settled(s.store, e) ==> Single(s, e)
  }

  ghost predicate Sound(s: State) {
    forall e :: Good(s, e)
  }

  // ---------------------------------------------------------------- the steps that keep it

  /** Message ids are minted fresh: an arriving event is nowhere yet. */
  ghost predicate FreshIds(s: State, a: Action) {
    a.Arrive? ==>
      && !InStream(s.store, a.body.event)
      && forall h :: h in s.handlers && !s.handlers[h].Replying? ==> s.handlers[h].body.event != a.body.event
  }

  /** Handlers that have not added yet carry distinct events, none of them in the stream. */
  ghost predicate Pending(s: State) {
    && (forall h :: h in s.handlers && !s.handlers[h].Replying? ==> !InStream(s.store, s.handlers[h].body.event))
    && (forall g, h ::
          g in s.handlers && h in s.handlers && g != h && !s.handlers[g].Replying? && !s.handlers[h].Replying?
          ==> s.handlers[g].body.event != s.handlers[h].body.event)
  }

  ghost predicate SettledAt(s: State, id: nat) {
    id < |s.store.stream| && Settled(s.store, EventOf(s, id))
  }

  /** While the event is unsettled: no reclaim of an entry a worker still holds; no ack that fails without effect; no
      re-add that takes effect and loses its answer; no crash between the re-add and the ack. */
  ghost predicate Careful(s: State, a: Action) {
    match a
    case Reclaim(w, id) => SettledAt(s, id) || forall v :: v in s.tasks ==> s.tasks[v].id != id
    case Ack(w, o) => w in s.tasks ==> SettledAt(s, s.tasks[w].id) || o.TookEffect()
    case AddOnFail(w, o) =>
      w in s.tasks ==> SettledAt(s, s.tasks[w].id) || !o.FailedAfterEffect? || LastRetry(s, s.tasks[w].id)
    case Crash(w) => w in s.tasks && s.tasks[w].Acking? ==> SettledAt(s, s.tasks[w].id)
    case _ => true
  }

  predicate LastRetry(s: State, id: nat) {
    id < |s.store.stream| && s.store.stream[id].retries + 1 >= MAX_RETRIES
  }

  // ---------------------------------------------------------------- one step

  lemma {:induction false} SettledStays(s: State, a: Action, t: State, e: nat)
    requires Step(s, a, t) && Settled(s.store, e)
    ensures Settled(t.store, e)
  {
    assert s.store.dlq <= t.store.dlq;
    if InDlq(s.store, e) {
      var i :| 0 <= i < |s.store.dlq| && s.store.dlq[i].body.event == e;
      assert t.store.dlq[i] == s.store.dlq[i];
    }
  }

  /** What e's copies and holders depend on. */
  ghost predicate SameCopies(s: State, t: State, e: nat) {
    && s.store.stream <= t.store.stream
    && (forall k :: |s.store.stream| <= k < |t.store.stream| ==> t.store.stream[k].body.event != e)
    && (forall k: nat :: Free(t, e, k) <==> Free(s, e, k))
  }

  lemma {:induction false} FrameGood(s: State, t: State, e: nat)
    requires Good(s, e) && SameCopies(s, t, e) && Exclusive(t, e) && (Settled(s.store, e) ==> Settled(t.store, e))
    ensures Good(t, e)
  {
    if InStream(t.store, e) && !Settled(t.store, e) {
      var m: nat :| m < |t.store.stream| && t.store.stream[m].body.event == e;
      assert s.store.stream[m].body.event == e;
      var k: nat :| Waits(s, e, k) && s.store.stream[k].retries + 1 == |Attempts(s.store, e)|;
      assert Attempts(t.store, e) == Attempts(s.store, e);
      assert Waits(t, e, k);
    }
  }

  lemma {:induction false} HandlerGood(s: State, a: Action, t: State, e: nat)
    requires Delivered(s) && Pending(s) && Good(s, e) && HandlerStep(s, a, t)
    ensures Good(t, e)
  {
    if !(a.Add? && a.outcome.TookEffect()) {
      assert forall k: nat :: Free(t, e, k) <==> Free(s, e, k);
      assert t.store == s.store && t.tasks == s.tasks;
      assert Single(s, e) ==> Exclusive(t, e);
      if InStream(t.store, e) && !Settled(t.store, e) { FrameGood(s, t, e); }
    } else {
      AddGood(s, a, t, e);
    }
  }

  lemma {:induction false} AddGood(s: State, a: Action, t: State, e: nat)
    requires Delivered(s) && Pending(s) && Good(s, e) && a.Add? && HandlerStep(s, a, t) && a.outcome.TookEffect()
    ensures Good(t, e)
  {
    var (b, n) := (s.handlers[a.h].body, |s.store.stream|);
    assert !InStream(s.store, b.event) && n !in s.store.acked;
    forall w | w in s.tasks ensures s.tasks[w].id < n { assert TaskInRange(s, w); }
    if e == b.event {
      forall k: nat | k < n ensures s.store.stream[k].body.event != e {}
      assert Waits(t, e, n);
      assert Attempts(t.store, e) == {n};
    } else if InStream(t.store, e) && !Settled(t.store, e) {
      var m: nat :| m < |t.store.stream| && t.store.stream[m].body.event == e;
      assert InStream(s.store, e) by { assert s.store.stream[m].body.event == e; }
      assert InDlq(s.store, e) ==> InDlq(t.store, e);
      assert SameCopies(s, t, e);
      assert Exclusive(t, e) by { assert forall w :: On(t, w, e) ==> On(s, w, e); }
      FrameGood(s, t, e);
    }
  }

  /** A worker picks up an entry nobody holds. */
  lemma {:induction false} PickUpGood(s: State, w: nat, id: nat, t: State, e: nat)
    requires Delivered(s) && Good(s, e) && t.store == s.store && w !in s.tasks && t.tasks == s.tasks[w := Got(id)]
    requires id < |s.store.stream| && id !in s.store.acked
    requires EventOf(s, id) == e && !Settled(s.store, e) ==> forall v :: v in s.tasks ==> s.tasks[v].id != id
    ensures Good(t, e)
  {
    if InStream(t.store, e) && !Settled(t.store, e) {
      forall k: nat ensures Free(t, e, k) <==> Free(s, e, k) {
        if Free(t, e, k) {
          forall v | v in s.tasks ensures s.tasks[v] != Acking(k) { assert t.tasks[v] == s.tasks[v]; }
        }
      }
      forall v | On(t, v, e) && v != w ensures On(s, v, e) {}
      FrameGood(s, t, e);
    }
  }

  /** A task moves on without acking, or acks for a settled event. */
  lemma {:induction false} MoveGood(s: State, w: nat, next: Task, t: State, e: nat)
    requires Delivered(s) && Good(s, e) && w in s.tasks && t.tasks == s.tasks[w := next] && next.id == s.tasks[w].id
    requires t.store.stream == s.store.stream && t.store.acked == s.store.acked
    requires Settled(s.store, e) ==> Settled(t.store, e)
    requires On(s, w, e) && !Settled(t.store, e) ==> !next.Acking? && !s.tasks[w].Acking?
    ensures Good(t, e)
  {
    if InStream(t.store, e) && !Settled(t.store, e) {
      assert TaskInRange(s, w);
      assert InStream(s.store, e);
      forall k: nat ensures Free(t, e, k) <==> Free(s, e, k) {
        if Free(t, e, k) {
          forall v | v in s.tasks ensures s.tasks[v] != Acking(k) { assert v != w ==> t.tasks[v] == s.tasks[v]; }
        }
        if Free(s, e, k) {
          forall v | v in t.tasks ensures t.tasks[v] != Acking(k) { assert v != w ==> t.tasks[v] == s.tasks[v]; }
        }
      }
      forall v | On(t, v, e) ensures On(s, v, e) && s.tasks[v].id == t.tasks[v].id {}
      FrameGood(s, t, e);
    }
  }

  /** A task ends without a trace: its entry is where it was. */
  lemma {:induction false} LeaveGood(s: State, w: nat, t: State, e: nat)
    requires Delivered(s) && Good(s, e) && t.store == s.store && t.tasks == s.tasks - {w}
    requires On(s, w, e) && !Settled(s.store, e) ==> !s.tasks[w].Acking?
    ensures Good(t, e)
  {
    if InStream(t.store, e) && !Settled(t.store, e) {
      forall k: nat ensures Free(t, e, k) <==> Free(s, e, k) {
        if Free(t, e, k) {
          forall v | v in s.tasks ensures s.tasks[v] != Acking(k) {
            if v != w { assert t.tasks[v] == s.tasks[v]; }
          }
        }
      }
      forall v | On(t, v, e) ensures On(s, v, e) && s.tasks[v] == t.tasks[v] {}
      FrameGood(s, t, e);
    }
  }

  /** An ack that takes effect: the entry was not free, and nobody else holds it. */
  lemma {:induction false} AckedGood(s: State, w: nat, t: State, e: nat)
    requires Delivered(s) && Good(s, e) && w in s.tasks && s.tasks[w].Acking? && t.tasks == s.tasks - {w}
    requires t.store == s.store.(acked := s.store.acked + {s.tasks[w].id})
    ensures Good(t, e)
  {
    assert InDlq(t.store, e) == InDlq(s.store, e);
    if InStream(t.store, e) && !Settled(t.store, e) {
      assert InStream(s.store, e);
      var id := s.tasks[w].id;
      forall k: nat ensures Free(t, e, k) <==> Free(s, e, k) {
        if Free(t, e, k) {
          forall v | v in s.tasks ensures s.tasks[v] != Acking(k) {
            if v != w { assert t.tasks[v] == s.tasks[v]; }
          }
        }
        if Free(s, e, k) { assert s.tasks[w] != Acking(k); }
      }
      forall v | On(t, v, e) ensures On(s, v, e) && s.tasks[v] == t.tasks[v] && t.tasks[v].id != id {
        assert On(s, v, e) && v != w;
        assert On(s, w, e) || EventOf(s, s.tasks[v].id) == e;
      }
      FrameGood(s, t, e);
    }
  }

  /** A re-add whose answer arrives: the old entry now waits for its ack, and the new one is the only free copy. */
  lemma {:induction false} ReaddGood(s: State, w: nat, t: State, e: nat)
    requires Delivered(s) && Good(s, e) && WorkStep(s, AddOnFail(w, Ok), t)
    ensures Good(t, e)
  {
    assert TaskInRange(s, w);
    var (id, n) := (s.tasks[w].id, |s.store.stream|);
    var entry := s.store.stream[id];
    if InStream(t.store, e) && !Settled(t.store, e) {
      DlqGrows(s.store, id, e);
      if entry.body.event != e {
        OtherReadd(s, w, t, e);
      } else {
        assert InStream(s.store, e);
        OwnReadd(s, w, t);
      }
    }
  }

  lemma {:induction false} DlqGrows(st: Store, id: nat, e: nat)
    requires id < |st.stream|
    ensures Settled(st, e) ==> Settled(Requeued(st, id), e)
    ensures st.stream[id].retries + 1 >= MAX_RETRIES && st.stream[id].body.event == e ==> Settled(Requeued(st, id), e)
  {
    var st' := Requeued(st, id);
    if st.stream[id].retries + 1 >= MAX_RETRIES { assert st'.dlq[|st.dlq|] == st.stream[id]; }
    if InDlq(st, e) {
      var i :| 0 <= i < |st.dlq| && st.dlq[i].body.event == e;
      assert st'.dlq[i] == st.dlq[i];
    }
  }

  lemma {:induction false} OtherReadd(s: State, w: nat, t: State, e: nat)
    requires Delivered(s) && Good(s, e) && WorkStep(s, AddOnFail(w, Ok), t) && !On(s, w, e)
    requires InStream(t.store, e) && !Settled(t.store, e) && !Settled(s.store, e)
    ensures Good(t, e)
  {
    assert TaskInRange(s, w);
    var (id, n) := (s.tasks[w].id, |s.store.stream|);
    var m: nat :| m < |t.store.stream| && t.store.stream[m].body.event == e;
    assert m < n && s.store.stream[m].body.event == e;
    forall k: nat ensures Free(t, e, k) <==> Free(s, e, k) {
      if Free(t, e, k) {
        forall v | v in s.tasks ensures s.tasks[v] != Acking(k) { assert v != w ==> t.tasks[v] == s.tasks[v]; }
      }
      if Free(s, e, k) {
        forall v | v in t.tasks ensures t.tasks[v] != Acking(k) { assert v != w ==> t.tasks[v] == s.tasks[v]; }
      }
    }
    forall v | On(t, v, e) ensures On(s, v, e) && s.tasks[v] == t.tasks[v] {
      if v in s.tasks { assert TaskInRange(s, v); }
    }
    FrameGood(s, t, e);
  }

  lemma {:induction false} OwnReadd(s: State, w: nat, t: State)
    requires Delivered(s) && WorkStep(s, AddOnFail(w, Ok), t) && s.tasks[w].id < |s.store.stream|
    requires !LastRetry(s, s.tasks[w].id) && Single(s, EventOf(s, s.tasks[w].id))
    ensures Single(t, EventOf(s, s.tasks[w].id))
  {
    var (id, n) := (s.tasks[w].id, |s.store.stream|);
    var e := EventOf(s, id);
    FailingIsFree(s, w, e);
    var k: nat :| Waits(s, e, k) && s.store.stream[k].retries + 1 == |Attempts(s.store, e)|;
    assert k == id && n !in s.store.acked;
    assert Attempts(t.store, e) == Attempts(s.store, e) + {n};
    forall m: nat | Free(t, e, m) ensures m == n {
      assert t.tasks[w] == Acking(id);
      if m < n {
        forall v | v in s.tasks ensures s.tasks[v] != Acking(m) { assert v != w ==> t.tasks[v] == s.tasks[v]; }
        assert Free(s, e, m);
      }
    }
    forall v | v in t.tasks ensures t.tasks[v].id < n { assert TaskInRange(s, v); }
    assert Waits(t, e, n);
    forall v | On(t, v, e) ensures On(s, v, e) && s.tasks[v].id == t.tasks[v].id {}
  }

  /** An entry whose handling has failed is the free copy: it is live, and nobody else holds it. */
  lemma {:induction false} FailingIsFree(s: State, w: nat, e: nat)
    requires Exclusive(s, e) && On(s, w, e) && !s.tasks[w].Acking?
    ensures Free(s, e, s.tasks[w].id)
  {
    forall v | v in s.tasks ensures s.tasks[v] != Acking(s.tasks[w].id) {
      if s.tasks[v].id == s.tasks[w].id { assert On(s, v, e); }
    }
  }

  lemma {:induction false} TransactionGood(s: State, a: Action, t: State, e: nat)
    requires Inv(s) && Good(s, e) && WorkStep(s, a, t) && (a.AuditTx? || a.PersistTx? || a.PushEmbed?)
    ensures Good(t, e)
  {
    assert TaskInRange(s, a.w) && AckJustified(s, a.w);
    if Settled(s.store, e) { SettledStays(s, a, t, e); }
    MoveGood(s, a.w, t.tasks[a.w], t, e);
  }

  lemma {:induction false} DeliveryGood(s: State, a: Action, t: State, e: nat)
    requires Inv(s) && Good(s, e) && DeliveryStep(s, a, t) && Careful(s, a)
    ensures Good(t, e)
  {
    match a {
      case WorkerEnsuresGroup =>
        assert forall k: nat :: Free(t, e, k) <==> Free(s, e, k);
        assert Exclusive(s, e) ==> Exclusive(t, e);
        if InStream(t.store, e) && !Settled(t.store, e) { FrameGood(s, t, e); }
      case ReadGroup(w) =>
        forall v | v in s.tasks ensures s.tasks[v].id != s.cursor { assert TaskInRange(s, v); }
        PickUpGood(s, w, s.cursor, t, e);
      case Reclaim(w, id) => PickUpGood(s, w, id, t, e);
      case Crash(w) =>
        if w in s.tasks { assert TaskInRange(s, w); }
        LeaveGood(s, w, t, e);
    }
  }

  lemma {:induction false} FailGood(s: State, w: nat, o: Outcome, t: State, e: nat)
    requires Inv(s) && Good(s, e) && WorkStep(s, AddOnFail(w, o), t) && Careful(s, AddOnFail(w, o))
    ensures Good(t, e)
  {
    assert TaskInRange(s, w);
    match o {
      case Ok => ReaddGood(s, w, t, e);
      case Failed => LeaveGood(s, w, t, e);
      case FailedAfterEffect => LostReaddGood(s, w, t, e);
    }
  }

  /** A lost answer is harmless for a settled event, and for one it has just dead-lettered. */
  lemma {:induction false} LostReaddGood(s: State, w: nat, t: State, e: nat)
    requires Inv(s) && Good(s, e) && WorkStep(s, AddOnFail(w, FailedAfterEffect), t)
    requires SettledAt(s, s.tasks[w].id) || LastRetry(s, s.tasks[w].id)
    ensures Good(t, e)
  {
    var id := s.tasks[w].id;
    DlqGrows(s.store, id, e);
    if InStream(t.store, e) && !Settled(t.store, e) {
      assert EventOf(s, id) != e;
      var m: nat :| m < |t.store.stream| && t.store.stream[m].body.event == e;
      assert s.store.stream[m].body.event == e;
      forall k: nat ensures Free(t, e, k) <==> Free(s, e, k) {
        if Free(t, e, k) {
          forall v | v in s.tasks ensures s.tasks[v] != Acking(k) { assert v != w ==> t.tasks[v] == s.tasks[v]; }
        }
      }
      forall v | On(t, v, e) ensures On(s, v, e) && s.tasks[v] == t.tasks[v] { assert TaskInRange(s, v); }
      FrameGood(s, t, e);
    }
  }

  lemma {:induction false} AckGood(s: State, w: nat, o: Outcome, t: State, e: nat)
    requires Inv(s) && Good(s, e) && WorkStep(s, Ack(w, o), t) && Careful(s, Ack(w, o))
    ensures Good(t, e)
  {
    assert TaskInRange(s, w);
    if o.TookEffect() { AckedGood(s, w, t, e); } else { LeaveGood(s, w, t, e); }
  }

  lemma {:induction false} StepGood(s: State, a: Action, t: State, e: nat)
    requires Inv(s) && Pending(s) && Good(s, e) && Step(s, a, t) && Careful(s, a)
    ensures Good(t, e)
  {
    match a {
      case Arrive(_, _) => HandlerGood(s, a, t, e);
      case EnsureGroup(_, _) => HandlerGood(s, a, t, e);
      case Add(_, _) => HandlerGood(s, a, t, e);
      case Reply(_) => HandlerGood(s, a, t, e);
      case Classify(w, row) =>
        assert TaskInRange(s, w);
        MoveGood(s, w, t.tasks[w], t, e);
      case AuditTx(_, _) => TransactionGood(s, a, t, e);
      case PersistTx(_, _) => TransactionGood(s, a, t, e);
      case PushEmbed(_, _) => TransactionGood(s, a, t, e);
      case AddOnFail(w, o) => FailGood(s, w, o, t, e);
      case Ack(w, o) => AckGood(s, w, o, t, e);
      case _ => DeliveryGood(s, a, t, e);
    }
  }

  lemma {:induction false} StepPending(s: State, a: Action, t: State)
    requires Delivered(s) && Pending(s) && Step(s, a, t) && FreshIds(s, a)
    ensures Pending(t)
  {
    forall h | h in t.handlers && !t.handlers[h].Replying? ensures !InStream(t.store, t.handlers[h].body.event) {
      if InStream(t.store, t.handlers[h].body.event) {
        var k: nat :| k < |t.store.stream| && t.store.stream[k].body.event == t.handlers[h].body.event;
        StepSource(s, a, t, k);
      }
    }
  }

  /** A new entry carries an event that is in the stream already, or that of the handler that adds it. */
  lemma {:induction false} StepSource(s: State, a: Action, t: State, k: nat)
    requires Delivered(s) && Step(s, a, t) && k < |t.store.stream|
    ensures InStream(s.store, t.store.stream[k].body.event)
            || (a.Add? && s.handlers[a.h].body == t.store.stream[k].body)
  {
    if k < |s.store.stream| {
      assert s.store.stream[k] == t.store.stream[k];
    } else if a.AddOnFail? {
      assert s.store.stream[s.tasks[a.w].id].body == t.store.stream[k].body;
    }
  }

  // ---------------------------------------------------------------- and only those

  lemma {:induction false} TwoFree(s: State, e: nat, k: nat, m: nat)
    requires Free(s, e, k) && Free(s, e, m) && k != m && !Settled(s.store, e)
    ensures !Good(s, e)
  {
    assert InStream(s.store, e);
    forall j: nat ensures !Waits(s, e, j) { assert j != k || j != m; }
  }

  /** A worker that leaves its re-added entry un-acked leaves two copies. */
  lemma {:induction false} LeftUnacked(s: State, w: nat, t: State)
    requires Delivered(s) && w in s.tasks && s.tasks[w].Acking? && s.tasks[w].id < |s.store.stream|
    requires t.store == s.store && t.tasks == s.tasks - {w}
    requires Good(s, EventOf(s, s.tasks[w].id)) && !SettledAt(s, s.tasks[w].id)
    ensures !Good(t, EventOf(s, s.tasks[w].id))
  {
    var id := s.tasks[w].id;
    var e := EventOf(s, id);
    assert On(s, w, e) && InStream(s.store, e);
    var k: nat :| Waits(s, e, k);
    assert k != id;
    assert forall v :: On(s, v, e) && v != w ==> s.tasks[v].id != id;
    forall v | v in t.tasks ensures t.tasks[v] != Acking(id) {
      assert v != w && t.tasks[v] == s.tasks[v];
      if v in s.tasks { assert TaskInRange(s, v) && (On(s, v, e) || s.tasks[v].id != id); }
    }
    assert Free(t, e, id) && Free(t, e, k);
    TwoFree(t, e, id, k);
  }

  lemma {:induction false} ReaddedTwice(s: State, w: nat, t: State)
    requires Delivered(s) && WorkStep(s, AddOnFail(w, FailedAfterEffect), t) && s.tasks[w].id < |s.store.stream|
    requires Good(s, EventOf(s, s.tasks[w].id)) && !SettledAt(s, s.tasks[w].id) && !LastRetry(s, s.tasks[w].id)
    ensures !Good(t, EventOf(s, s.tasks[w].id))
  {
    var (id, n) := (s.tasks[w].id, |s.store.stream|);
    var e := EventOf(s, id);
    assert On(s, w, e) && InStream(s.store, e) && InDlq(t.store, e) == InDlq(s.store, e);
    FailingIsFree(s, w, e);
    assert Free(t, e, id);
    forall v | v in t.tasks ensures t.tasks[v] != Acking(n) { assert TaskInRange(s, v); }
    assert Free(t, e, n);
    TwoFree(t, e, id, n);
  }

  lemma {:induction false} ReclaimedTwice(s: State, w: nat, id: nat, v: nat, t: State)
    requires Delivered(s) && DeliveryStep(s, Reclaim(w, id), t) && v in s.tasks && s.tasks[v].id == id
    requires id < |s.store.stream| && !SettledAt(s, id)
    ensures !Good(t, EventOf(s, id))
  {
    var e := EventOf(s, id);
    assert InStream(t.store, e) && On(t, w, e) && On(t, v, e) && w != v;
  }

  lemma {:induction false} StepCareful(s: State, a: Action, t: State)
    requires Inv(s) && Sound(s) && Step(s, a, t) && Sound(t)
    ensures Careful(s, a)
  {
    match a {
      case Reclaim(w, id) =>
        if !SettledAt(s, id) {
          forall v | v in s.tasks ensures s.tasks[v].id != id {
            if s.tasks[v].id == id { ReclaimedTwice(s, w, id, v, t); }
          }
        }
      case Ack(w, o) =>
        assert TaskInRange(s, w) && Good(s, EventOf(s, s.tasks[w].id)) && Good(t, EventOf(s, s.tasks[w].id));
        if !SettledAt(s, s.tasks[w].id) && !o.TookEffect() { LeftUnacked(s, w, t); }
      case AddOnFail(w, o) =>
        assert TaskInRange(s, w) && Good(s, EventOf(s, s.tasks[w].id)) && Good(t, EventOf(s, s.tasks[w].id));
        if !SettledAt(s, s.tasks[w].id) && !LastRetry(s, s.tasks[w].id) && o.FailedAfterEffect? {
          ReaddedTwice(s, w, t);
        }
      case Crash(w) =>
        if w in s.tasks && s.tasks[w].Acking? && !SettledAt(s, s.tasks[w].id) {
          assert TaskInRange(s, w) && Good(s, EventOf(s, s.tasks[w].id)) && Good(t, EventOf(s, s.tasks[w].id));
          LeftUnacked(s, w, t);
        }
      case _ =>
    }
  }

  // ---------------------------------------------------------------- over every run

  ghost predicate FreshRun(r: Run) {
    r.Valid() && r.states[0] == INIT && forall i :: 0 <= i < |r.actions| ==> FreshIds(r.states[i], r.actions[i])
  }

  ghost predicate CarefulUpTo(r: Run, n: nat)
    requires n <= |r.actions| < |r.states|
  {
    forall i :: 0 <= i < n ==> Careful(r.states[i], r.actions[i])
  }

  ghost predicate SoundUpTo(r: Run, n: nat)
    requires n < |r.states|
  {
    forall i :: 0 <= i <= n ==> Sound(r.states[i])
  }

  lemma {:induction false} RunPending(r: Run, n: nat)
    requires FreshRun(r) && n < |r.states|
    ensures Inv(r.states[n]) && Pending(r.states[n])
  {
    if n > 0 {
      RunPending(r, n - 1);
      StepInv(r.states[n - 1], r.actions[n - 1], r.states[n]);
      StepPending(r.states[n - 1], r.actions[n - 1], r.states[n]);
    }
  }

  /** For any number of workers and handlers, crashes, lost answers and redeliveries: every unsettled event has exactly
      one live copy apart from entries about to be acked, with one holder per entry, throughout the run, if and only if
      every step is careful. */
  lemma {:induction false} OneLiveCopyIff(r: Run, n: nat)
    requires FreshRun(r) && n < |r.states|
    ensures SoundUpTo(r, n) <==> CarefulUpTo(r, n)
  {
    if n == 0 {
      assert Sound(INIT);
    } else {
      OneLiveCopyIff(r, n - 1);
      RunPending(r, n - 1);
      if CarefulUpTo(r, n) {
        assert SoundUpTo(r, n - 1) && Careful(r.states[n - 1], r.actions[n - 1]);
        forall e ensures Good(r.states[n], e) {
          assert Good(r.states[n - 1], e);
          StepGood(r.states[n - 1], r.actions[n - 1], r.states[n], e);
        }
      }
      if SoundUpTo(r, n) {
        assert SoundUpTo(r, n - 1) && Sound(r.states[n - 1]) && Sound(r.states[n]);
        StepCareful(r.states[n - 1], r.actions[n - 1], r.states[n]);
      }
    }
  }

  /** In a careful run an unsettled event waits in exactly one copy, after at most five attempts. */
  lemma {:induction false} OneLiveCopyUntilSettled(r: Run, e: nat) returns (k: nat)
    requires FreshRun(r) && CarefulUpTo(r, |r.actions|) && InStream(r.Last().store, e) && !Settled(r.Last().store, e)
    ensures var s := r.Last();
            && Waits(s, e, k) && s.store.stream[k].retries + 1 == |Attempts(s.store, e)| <= 5
  {
    OneLiveCopyIff(r, |r.actions|);
    RunPending(r, |r.actions|);
    assert Sound(r.Last()) && Good(r.Last(), e);
    k :| Waits(r.Last(), e, k) && r.Last().store.stream[k].retries + 1 == |Attempts(r.Last().store, e)|;
  }

  /** In a careful run the step that dead-letters an unsettled event is its fifth failure. */
  lemma {:induction false} DeadLetterAtFifth(r: Run, e: nat, n: nat)
    requires FreshRun(r) && CarefulUpTo(r, |r.actions|) && n < |r.actions|
    requires !Settled(r.states[n].store, e) && InDlq(r.states[n + 1].store, e)
    ensures r.actions[n].AddOnFail? && |Attempts(r.states[n].store, e)| == 5
  {
    var (s, a, t) := (r.states[n], r.actions[n], r.states[n + 1]);
    OneLiveCopyIff(r, |r.actions|);
    RunPending(r, n);
    FailedEvent(s, a, t, e);
    assert Good(s, e) by { assert Sound(s); }
    FifthAttempt(s, a.w, e);
  }

  lemma {:induction false} FifthAttempt(s: State, w: nat, e: nat)
    requires Delivered(s) && Single(s, e) && On(s, w, e) && !s.tasks[w].Acking? && LastRetry(s, s.tasks[w].id)
    ensures |Attempts(s.store, e)| == 5
  {
    FailingIsFree(s, w, e);
  }

  lemma {:induction false} FailedEvent(s: State, a: Action, t: State, e: nat)
    requires Delivered(s) && Step(s, a, t) && !InDlq(s.store, e) && InDlq(t.store, e)
    ensures a.AddOnFail? && On(s, a.w, e) && s.tasks[a.w].Failing? && LastRetry(s, s.tasks[a.w].id)
    ensures InStream(s.store, e)
  {
    assert t.store.dlq != s.store.dlq;
    assert a.AddOnFail?;
    assert TaskInRange(s, a.w);
    var (i, id) := (|s.store.dlq|, s.tasks[a.w].id);
    var j :| 0 <= j < |t.store.dlq| && t.store.dlq[j].body.event == e;
    assert forall k :: 0 <= k < i ==> s.store.dlq[k].body.event != e && t.store.dlq[k] == s.store.dlq[k];
    assert j == i && t.store.dlq[i] == s.store.stream[id];
  }

  // ---------------------------------------------------------------- an input that is not careful

  /** Adds, re-adds and acks all succeed, and nobody crashes. */
  predicate AllAnswered(actions: seq<Action>) {
    forall i :: 0 <= i < |actions| ==>
      && !actions[i].Crash?
      && (actions[i].Add? || actions[i].AddOnFail? || actions[i].Ack? ==> actions[i].outcome.Ok?)
  }

  lemma {:induction false} Onward(r: Run, a: Action, t: State) returns (r': Run)
    requires FreshRun(r) && AllAnswered(r.actions) && Step(r.Last(), a, t) && FreshIds(r.Last(), a) && AllAnswered([a])
    ensures FreshRun(r') && AllAnswered(r'.actions) && r'.Last() == t
    ensures !(CarefulUpTo(r, |r.actions|) && Careful(r.Last(), a)) ==> !CarefulUpTo(r', |r'.actions|)
  {
    r' := r.Then(a, t);
    assert [a][0] == a;
    assert r'.states[|r.actions|] == r.Last() && r'.actions[|r.actions|] == a;
    if i :| 0 <= i < |r.actions| && !Careful(r.states[i], r.actions[i]) {
      assert r'.states[i] == r.states[i] && r'.actions[i] == r.actions[i];
    }
  }

  const LATE := Body(0, false)

  function HeldState(stream: seq<Entry>, acked: set<nat>, tasks: map<nat, Task>): State {
    State(EMPTY.(stream := stream, acked := acked), Some(0), 1, map[0 := Replying(LATE, true)], tasks, {}, {})
  }

  lemma {:induction false} OverlapStart() returns (r: Run)
    ensures FreshRun(r) && AllAnswered(r.actions) && r.Last() == HeldState([Entry(LATE, 0)], {}, map[0 := Got(0)])
  {
    var s1 := INIT.(handlers := map[0 := Ensuring(LATE)]);
    var s2 := s1.(group := Some(0), handlers := map[0 := Adding(LATE)]);
    var s3 := s2.(store := EMPTY.(stream := [Entry(LATE, 0)]), handlers := map[0 := Replying(LATE, true)]);
    r := Onward(Run([INIT], []), Arrive(0, LATE), s1);
    r := Onward(r, EnsureGroup(0, Ok), s2);
    r := Onward(r, Add(0, Ok), s3);
    r := Onward(r, ReadGroup(0), HeldState([Entry(LATE, 0)], {}, map[0 := Got(0)]));
  }

  lemma {:induction false} OverlapReclaims() returns (r: Run)
    ensures FreshRun(r) && AllAnswered(r.actions) && !CarefulUpTo(r, |r.actions|)
    ensures r.Last() == HeldState([Entry(LATE, 0)], {}, map[0 := Got(0), 1 := Got(0)])
  {
    r := OverlapStart();
    assert r.Last().tasks[0].id == 0;
    r := Onward(r, Reclaim(1, 0), HeldState([Entry(LATE, 0)], {}, map[0 := Got(0), 1 := Got(0)]));
  }

  /** Two workers on one entry: both fail it ... */
  lemma {:induction false} OverlapFails(r: Run) returns (r': Run)
    requires FreshRun(r) && AllAnswered(r.actions)
    requires r.Last() == HeldState([Entry(LATE, 0)], {}, map[0 := Got(0), 1 := Got(0)])
    requires !CarefulUpTo(r, |r.actions|)
    ensures FreshRun(r') && AllAnswered(r'.actions) && !CarefulUpTo(r', |r'.actions|)
    ensures r'.Last() == HeldState([Entry(LATE, 0)], {}, map[0 := Failing(0), 1 := Failing(0)])
  {
    var row := Row(Clean, []);
    r' := Onward(r, Classify(0, row), HeldState([Entry(LATE, 0)], {}, map[0 := Failing(0), 1 := Got(0)]));
    r' := Onward(r', Classify(1, row), HeldState([Entry(LATE, 0)], {}, map[0 := Failing(0), 1 := Failing(0)]));
  }

  /** ... and both re-add it. */
  lemma {:induction false} OverlapReadds(r: Run) returns (r': Run)
    requires FreshRun(r) && AllAnswered(r.actions) && !CarefulUpTo(r, |r.actions|)
    requires r.Last() == HeldState([Entry(LATE, 0)], {}, map[0 := Failing(0), 1 := Failing(0)])
    ensures FreshRun(r') && AllAnswered(r'.actions) && !CarefulUpTo(r', |r'.actions|)
    ensures r'.Last() ==
            HeldState([Entry(LATE, 0), Entry(LATE, 1), Entry(LATE, 1)], {}, map[0 := Acking(0), 1 := Acking(0)])
  {
    var two := [Entry(LATE, 0), Entry(LATE, 1)];
    r' := Onward(r, AddOnFail(0, Ok), HeldState(two, {}, map[0 := Acking(0), 1 := Failing(0)]));
    r' := Onward(r', AddOnFail(1, Ok), HeldState(two + [Entry(LATE, 1)], {}, map[0 := Acking(0), 1 := Acking(0)]));
  }

  lemma {:induction false} OverlapAcks(r: Run) returns (r': Run)
    requires FreshRun(r) && AllAnswered(r.actions) && !CarefulUpTo(r, |r.actions|)
    requires r.Last() ==
             HeldState([Entry(LATE, 0), Entry(LATE, 1), Entry(LATE, 1)], {}, map[0 := Acking(0), 1 := Acking(0)])
    ensures FreshRun(r') && AllAnswered(r'.actions) && !CarefulUpTo(r', |r'.actions|)
    ensures r'.Last() == HeldState([Entry(LATE, 0), Entry(LATE, 1), Entry(LATE, 1)], {0}, map[])
  {
    var three := [Entry(LATE, 0), Entry(LATE, 1), Entry(LATE, 1)];
    r' := Onward(r, Ack(0, Ok), HeldState(three, {0}, map[1 := Acking(0)]));
    r' := Onward(r', Ack(1, Ok), HeldState(three, {0}, map[]));
  }

  /** Every add, re-add and ack succeeds and nobody crashes, but an entry is reclaimed while a worker still holds it:
      both fail it, both re-add it, and two copies of one unsettled event are live. */
  lemma {:induction false} OverlappingReclaimDuplicates() returns (r: Run)
    ensures FreshRun(r) && AllAnswered(r.actions) && !CarefulUpTo(r, |r.actions|)
    ensures var s := r.Last(); !Settled(s.store, 0) && Free(s, 0, 1) && Free(s, 0, 2)
  {
    r := OverlapReclaims();
    r := OverlapFails(r);
    r := OverlapReadds(r);
    r := OverlapAcks(r);
  }

  // ---------------------------------------------------------------- once settled

  /** Careful about every event, and no transaction loses its answer. */
  ghost predicate Calm(s: State, a: Action) {
    match a
    case Reclaim(w, id) => forall v :: v in s.tasks ==> s.tasks[v].id != id
    case Ack(w, o) => o.TookEffect()
    case AddOnFail(w, o) => !o.FailedAfterEffect?
    case Crash(w) => w in s.tasks ==> !s.tasks[w].Acking? && !s.tasks[w].Embedding?
    case AuditTx(w, o) => !o.FailedAfterEffect?
    case PersistTx(w, o) => !o.FailedAfterEffect?
    case _ => true
  }

  ghost predicate Closing(s: State, e: nat, k: nat) {
    exists w :: On(s, w, e) && s.tasks[w].id == k
  }

  /** The event is in one sink only, every live copy is held by a worker about to ack it, and no worker does anything
      else with it. */
  ghost predicate Finished(s: State, e: nat) {
    && (forall w :: On(s, w, e) ==> s.tasks[w].Acking? || s.tasks[w].Embedding?)
    && (forall k: nat :: Copy(s.store, e, k) ==> Closing(s, e, k))
    && Exclusive(s, e)
    && |Attempts(s.store, e)| <= MAX_RETRIES
    && (e in s.store.persisted ==> e !in s.store.audited && !InDlq(s.store, e))
    && (e in s.store.audited ==> !InDlq(s.store, e))
    && (InDlq(s.store, e) ==> |Attempts(s.store, e)| == MAX_RETRIES)
  }

  ghost predicate Closed(s: State, e: nat) {
    Settled(s.store, e) ==> InStream(s.store, e) && Finished(s, e)
  }

  lemma {:induction false} CalmIsCareful(s: State, a: Action)
    requires Calm(s, a)
    ensures Careful(s, a)
  {
  }

  /** Nothing of a finished event can be picked up. */
  lemma {:induction false} FinishedHeld(s: State, e: nat, id: nat)
    requires Finished(s, e) && Live(s.store, id) && forall v :: v in s.tasks ==> s.tasks[v].id != id
    ensures s.store.stream[id].body.event != e
  {
    assert !Closing(s, e, id);
    assert !Copy(s.store, e, id);
  }

  predicate SameSinks(s: State, t: State, e: nat) {
    && (e in t.store.persisted <==> e in s.store.persisted)
    && (e in t.store.audited <==> e in s.store.audited)
    && (forall i :: 0 <= i < |t.store.dlq| && t.store.dlq[i].body.event == e ==> i < |s.store.dlq|)
    && s.store.dlq <= t.store.dlq
  }

  predicate SameEntries(s: State, t: State, e: nat) {
    && s.store.stream <= t.store.stream
    && (forall k :: |s.store.stream| <= k < |t.store.stream| ==> t.store.stream[k].body.event != e)
    && (forall k: nat :: k < |s.store.stream| && s.store.stream[k].body.event == e ==>
        (k in t.store.acked <==> k in s.store.acked))
  }

  /** e's holders are the same workers on the same entries, still about to ack. */
  ghost predicate SameHolders(s: State, t: State, e: nat) {
    && (forall w :: On(t, w, e) <==> On(s, w, e))
    && (forall w :: On(s, w, e) && w in t.tasks ==>
        t.tasks[w].id == s.tasks[w].id && (t.tasks[w].Acking? || t.tasks[w].Embedding?))
  }

  lemma {:induction false} FrameFinished(s: State, t: State, e: nat)
    requires Finished(s, e) && SameSinks(s, t, e) && SameEntries(s, t, e) && SameHolders(s, t, e)
    ensures Finished(t, e)
  {
    assert Attempts(t.store, e) == Attempts(s.store, e);
    SinksFrame(s, t, e);
    forall k: nat | Copy(t.store, e, k) ensures Closing(t, e, k) {
      assert Copy(s.store, e, k) && Closing(s, e, k);
      var w :| On(s, w, e) && s.tasks[w].id == k;
      assert On(t, w, e);
    }
  }

  lemma {:induction false} SinksFrame(s: State, t: State, e: nat)
    requires SameSinks(s, t, e)
    ensures InDlq(t.store, e) <==> InDlq(s.store, e)
  {
    if InDlq(s.store, e) {
      var i :| 0 <= i < |s.store.dlq| && s.store.dlq[i].body.event == e;
      assert t.store.dlq[i] == s.store.dlq[i];
    }
    if InDlq(t.store, e) {
      var i :| 0 <= i < |t.store.dlq| && t.store.dlq[i].body.event == e;
      assert s.store.dlq[i] == t.store.dlq[i];
    }
  }

  lemma {:induction false} AddFinished(s: State, a: Action, t: State, e: nat)
    requires Delivered(s) && Pending(s) && InStream(s.store, e) && Finished(s, e) && HandlerStep(s, a, t)
    ensures Finished(t, e)
  {
    forall w | w in s.tasks ensures s.tasks[w].id < |s.store.stream| { assert TaskInRange(s, w); }
    if a.Add? { assert s.handlers[a.h].body.event != e; }
    FrameFinished(s, t, e);
  }

  lemma {:induction false} DeliveryFinished(s: State, a: Action, t: State, e: nat)
    requires Delivered(s) && Finished(s, e) && DeliveryStep(s, a, t) && Calm(s, a)
    ensures Finished(t, e)
  {
    if a.ReadGroup? || a.Reclaim? {
      var id := if a.ReadGroup? then s.cursor else a.id;
      forall v | v in s.tasks ensures s.tasks[v].id != id { assert TaskInRange(s, v); }
      FinishedHeld(s, e, id);
    }
    FrameFinished(s, t, e);
  }

  lemma {:induction false} MovedHolders(s: State, w: nat, next: Task, t: State, e: nat)
    requires Finished(s, e) && w in s.tasks && t.tasks == s.tasks[w := next] && next.id == s.tasks[w].id
    requires t.store.stream == s.store.stream && (On(s, w, e) ==> next.Acking?)
    ensures SameHolders(s, t, e)
  {
  }

  lemma {:induction false} WorkFinished(s: State, a: Action, t: State, e: nat)
    requires Delivered(s) && Finished(s, e) && Step(s, a, t)
    requires a.Classify? || a.AuditTx? || a.PersistTx? || a.PushEmbed?
    ensures Finished(t, e)
  {
    assert TaskInRange(s, a.w);
    var next := t.tasks[a.w];
    assert t.tasks == s.tasks[a.w := next] && next.id == s.tasks[a.w].id;
    assert On(s, a.w, e) ==> next.Acking?;
    MovedHolders(s, a.w, next, t, e);
    assert SameSinks(s, t, e) && SameEntries(s, t, e);
    FrameFinished(s, t, e);
  }

  lemma {:induction false} ReaddFinished(s: State, w: nat, o: Outcome, t: State, e: nat)
    requires Delivered(s) && Finished(s, e) && WorkStep(s, AddOnFail(w, o), t)
    ensures Finished(t, e)
  {
    forall v | v in s.tasks ensures s.tasks[v].id < |s.store.stream| { assert TaskInRange(s, v); }
    assert !On(s, w, e);
    FrameFinished(s, t, e);
  }

  lemma {:induction false} AckFinished(s: State, w: nat, o: Outcome, t: State, e: nat)
    requires Delivered(s) && Finished(s, e) && WorkStep(s, Ack(w, o), t) && o.TookEffect()
    ensures Finished(t, e)
  {
    assert TaskInRange(s, w);
    var id := s.tasks[w].id;
    if !On(s, w, e) {
      FrameFinished(s, t, e);
    } else {
      assert Attempts(t.store, e) == Attempts(s.store, e) && InDlq(t.store, e) == InDlq(s.store, e);
      forall k: nat | Copy(t.store, e, k) ensures Closing(t, e, k) {
        assert Copy(s.store, e, k) && Closing(s, e, k);
        var v :| On(s, v, e) && s.tasks[v].id == k;
        assert On(t, v, e);
      }
      forall v | On(t, v, e) ensures On(s, v, e) && t.tasks[v] == s.tasks[v] && t.tasks[v].id != id {}
    }
  }

  lemma {:induction false} StepFinished(s: State, a: Action, t: State, e: nat)
    requires Delivered(s) && Pending(s) && InStream(s.store, e) && Finished(s, e) && Step(s, a, t) && Calm(s, a)
    ensures Finished(t, e)
  {
    match a {
      case Arrive(_, _) => AddFinished(s, a, t, e);
      case EnsureGroup(_, _) => AddFinished(s, a, t, e);
      case Add(_, _) => AddFinished(s, a, t, e);
      case Reply(_) => AddFinished(s, a, t, e);
      case Classify(_, _) => WorkFinished(s, a, t, e);
      case AuditTx(_, _) => WorkFinished(s, a, t, e);
      case PersistTx(_, _) => WorkFinished(s, a, t, e);
      case PushEmbed(_, _) => WorkFinished(s, a, t, e);
      case AddOnFail(w, o) => ReaddFinished(s, w, o, t, e);
      case Ack(w, o) => AckFinished(s, w, o, t, e);
      case _ => DeliveryFinished(s, a, t, e);
    }
  }

  /** The step that settles an event: one worker's transaction, or its fifth failure. */
  lemma {:induction false} Settles(s: State, a: Action, t: State, e: nat)
    requires Delivered(s) && Step(s, a, t) && Calm(s, a) && !Settled(s.store, e) && Settled(t.store, e)
    ensures (a.AuditTx? || a.PersistTx? || a.AddOnFail?) && On(s, a.w, e) && !s.tasks[a.w].Acking?
    ensures t.tasks == s.tasks[a.w := t.tasks[a.w]] && t.tasks[a.w].id == s.tasks[a.w].id
    ensures t.tasks[a.w].Acking? || t.tasks[a.w].Embedding?
    ensures t.store.stream == s.store.stream && t.store.acked == s.store.acked
    ensures InDlq(t.store, e) ==> LastRetry(s, s.tasks[a.w].id)
    ensures e in t.store.persisted ==> e !in t.store.audited && !InDlq(t.store, e)
    ensures e in t.store.audited ==> !InDlq(t.store, e)
  {
    if InDlq(t.store, e) {
      FailedEvent(s, a, t, e);
    } else {
      assert t.store.persisted != s.store.persisted || t.store.audited != s.store.audited;
      assert a.AuditTx? || a.PersistTx?;
      assert TaskInRange(s, a.w);
    }
  }

  lemma {:induction false} SettlesFinished(s: State, a: Action, t: State, e: nat)
    requires Delivered(s) && Single(s, e) && Step(s, a, t) && Calm(s, a) && !Settled(s.store, e) && Settled(t.store, e)
    ensures Finished(t, e)
  {
    Settles(s, a, t, e);
    var w := a.w;
    FailingIsFree(s, w, e);
    var k: nat :| Waits(s, e, k) && s.store.stream[k].retries + 1 == |Attempts(s.store, e)|;
    assert k == s.tasks[w].id && Attempts(t.store, e) == Attempts(s.store, e);
    forall v | On(t, v, e)
      ensures On(s, v, e) && t.tasks[v].id == s.tasks[v].id && (t.tasks[v].Acking? || t.tasks[v].Embedding?)
    {
      if v != w && !s.tasks[v].Acking? { FailingIsFree(s, v, e); }
    }
    forall m: nat | Copy(t.store, e, m) ensures Closing(t, e, m) {
      assert Copy(s.store, e, m);
      HeldCopy(s, e, m, k, w);
      var v :| On(s, v, e) && s.tasks[v].id == m;
      assert On(t, v, e);
    }
  }

  lemma {:induction false} HeldCopy(s: State, e: nat, m: nat, k: nat, w: nat)
    requires Copy(s.store, e, m) && Waits(s, e, k) && On(s, w, e) && s.tasks[w].id == k
    ensures Closing(s, e, m)
  {
    if m != k {
      assert !Free(s, e, m);
      var v :| v in s.tasks && s.tasks[v] == Acking(m);
      assert On(s, v, e);
    }
  }

  ghost predicate CalmRun(r: Run) {
    FreshRun(r) && forall i :: 0 <= i < |r.actions| ==> Calm(r.states[i], r.actions[i])
  }

  lemma {:induction false} RunClosed(r: Run, n: nat, e: nat)
    requires CalmRun(r) && n < |r.states|
    ensures Closed(r.states[n], e)
  {
    if n > 0 {
      var (s, a, t) := (r.states[n - 1], r.actions[n - 1], r.states[n]);
      RunClosed(r, n - 1, e);
      RunPending(r, n - 1);
      CalmGood(r, n - 1, e);
      StepClosed(s, a, t, e);
    }
  }

  lemma {:induction false} StreamStays(s: State, a: Action, t: State, e: nat)
    requires Step(s, a, t) && InStream(s.store, e)
    ensures InStream(t.store, e)
  {
    var k: nat :| k < |s.store.stream| && s.store.stream[k].body.event == e;
    assert s.store.stream <= t.store.stream;
    assert t.store.stream[k] == s.store.stream[k];
  }

  lemma {:induction false} StepClosed(s: State, a: Action, t: State, e: nat)
    requires Delivered(s) && Pending(s) && Closed(s, e) && Good(s, e) && Step(s, a, t) && Calm(s, a)
    ensures Closed(t, e)
  {
    if Settled(s.store, e) {
      StepFinished(s, a, t, e);
      StreamStays(s, a, t, e);
    } else if Settled(t.store, e) {
      SettlesClosed(s, a, t, e);
    }
  }

  lemma {:induction false} SettlesClosed(s: State, a: Action, t: State, e: nat)
    requires Delivered(s) && Good(s, e) && Step(s, a, t) && Calm(s, a) && !Settled(s.store, e) && Settled(t.store, e)
    ensures Closed(t, e)
  {
    Settles(s, a, t, e);
    assert InStream(s.store, e);
    SettlesFinished(s, a, t, e);
    StreamStays(s, a, t, e);
  }

  lemma {:induction false} CalmGood(r: Run, n: nat, e: nat)
    requires CalmRun(r) && n < |r.states|
    ensures Good(r.states[n], e)
  {
    forall i | 0 <= i < n ensures Careful(r.states[i], r.actions[i]) { CalmIsCareful(r.states[i], r.actions[i]); }
    OneLiveCopyIff(r, n);
    assert Sound(r.states[n]);
  }

  /** Calm runs of any number of workers: an event settles in exactly one of the three sinks and stays there alone, it
      is delivered at most five times, it is dead-lettered only after five, and once it is settled the only live copies
      are entries a worker is about to ack. */
  lemma {:induction false} SettlesOnce(r: Run, e: nat)
    requires CalmRun(r) && Settled(r.Last().store, e)
    ensures var s := r.Last();
            && |Attempts(s.store, e)| <= 5 && (InDlq(s.store, e) ==> |Attempts(s.store, e)| == 5)
            && !(e in s.store.persisted && e in s.store.audited)
            && !(e in s.store.persisted && InDlq(s.store, e)) && !(e in s.store.audited && InDlq(s.store, e))
            && (forall k: nat :: Copy(s.store, e, k) ==> Closing(s, e, k))
            && (forall w :: On(s, w, e) ==> s.tasks[w].Acking? || s.tasks[w].Embedding?)
  {
    RunClosed(r, |r.actions|, e);
  }
}
