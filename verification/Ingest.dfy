/** Server-side ingest: the WebSocket handler that XADDs and then acks (internal/ingest/handler.go), and
    the consumer group that persists, audits, retries or dead-letters (internal/ingest/consumer.go).
    Any number of handlers and workers move one Redis or Postgres call at a time; each call can succeed,
    fail, or take effect and lose its answer, and a worker can crash between any two calls. */
module Ingest {
  import opened Common

  const MAX_RETRIES: nat := 5

  // ---------------------------------------------------------------- state

  /** A queued event as the stream carries it. `decodes` is whether decodeQueuedEvent accepts it. */
  datatype Body = Body(event: nat, decodes: bool)

  datatype Entry = Entry(body: Body, retries: nat)

  datatype Verdict = Dirty | Clean | Strippable

  datatype Row = Row(verdict: Verdict, text: string)

  /** Redis and Postgres. The stream is append-only; an entry's id is its index. */
  datatype Store = Store(
    stream: seq<Entry>, acked: set<nat>, dlq: seq<Entry>, embedQueue: multiset<nat>,
    persisted: map<nat, Row>, audited: set<nat>)

  datatype Handler = Ensuring(body: Body) | Adding(body: Body) | Replying(body: Body, ok: bool)

  /** A worker inside HandleMessage, by the call it is about to make for entry `id`. */
  datatype Task =
    | Got(id: nat)
    | Auditing(id: nat, row: Row)
    | Persisting(id: nat, row: Row)
    | Embedding(id: nat)
    | Failing(id: nat)
    | Acking(id: nat)

  datatype State = State(
    store: Store, group: Option<nat>, cursor: nat,
    handlers: map<nat, Handler>, tasks: map<nat, Task>,
    okAcked: set<nat>, verdicts: set<(nat, Row)>)

  const EMPTY := Store([], {}, [], multiset{}, map[], {})
  const INIT := State(EMPTY, None, 0, map[], map[], {}, {})

  // ---------------------------------------------------------------- steps

  datatype Action =
    | Arrive(h: nat, body: Body)
    | EnsureGroup(h: nat, outcome: Outcome)
    | Add(h: nat, outcome: Outcome)
    | Reply(h: nat)
    | WorkerEnsuresGroup
    | ReadGroup(w: nat)
    | Reclaim(w: nat, id: nat)
    | Classify(w: nat, row: Row)
    | AuditTx(w: nat, outcome: Outcome)
    | PersistTx(w: nat, outcome: Outcome)
    | PushEmbed(w: nat, outcome: Outcome)
    | AddOnFail(w: nat, outcome: Outcome)
    | Ack(w: nat, outcome: Outcome)
    | Crash(w: nat)

  /** XGROUP CREATE ... $ MKSTREAM: a new group starts at the current end; an existing one is kept. */
  function GroupAfter(s: State): Option<nat> {
    if s.group.Some? then s.group else Some(|s.store.stream|)
  }

  function CursorAfter(s: State): nat {
    if s.group.Some? then s.cursor else |s.store.stream|
  }

  predicate QueueKept(s: State, t: State) {
    t.store == s.store && t.group == s.group && t.cursor == s.cursor
  }

  predicate WorkersKept(s: State, t: State) {
    t.tasks == s.tasks && t.verdicts == s.verdicts
  }

  predicate HandlersKept(s: State, t: State) {
    t.handlers == s.handlers && t.okAcked == s.okAcked
  }

  predicate HandlerStep(s: State, a: Action, t: State) {
    && WorkersKept(s, t)
    && match a
       case Arrive(h, b) => h !in s.handlers && QueueKept(s, t) && t.okAcked == s.okAcked
           && t.handlers == s.handlers[h := Ensuring(b)]
       case EnsureGroup(h, o) =>
         && h in s.handlers && s.handlers[h].Ensuring? && t.store == s.store && t.okAcked == s.okAcked
         && t.group == (if o.TookEffect() then GroupAfter(s) else s.group)
         && t.cursor == (if o.TookEffect() then CursorAfter(s) else s.cursor)
         && t.handlers ==
             s.handlers[h := if o.Ok? then Adding(s.handlers[h].body) else Replying(s.handlers[h].body, false)]
       case Add(h, o) =>
         && h in s.handlers && s.handlers[h].Adding? && t.group == s.group && t.cursor == s.cursor
         && t.okAcked == s.okAcked
         && t.store ==
             (if o.TookEffect() then s.store.(stream := s.store.stream + [Entry(s.handlers[h].body, 0)]) else s.store)
         && t.handlers == s.handlers[h := Replying(s.handlers[h].body, o.Ok?)]
       case Reply(h) =>
         && h in s.handlers && s.handlers[h].Replying? && QueueKept(s, t)
         && t.okAcked == (if s.handlers[h].ok then s.okAcked + {s.handlers[h].body.event} else s.okAcked)
         && t.handlers == s.handlers - {h}
       case _ => false
  }

  /** XREADGROUP, XAUTOCLAIM and the consumer-side XGROUP CREATE. */
  predicate DeliveryStep(s: State, a: Action, t: State) {
    && HandlersKept(s, t) && t.verdicts == s.verdicts && t.store == s.store
    && match a
       case WorkerEnsuresGroup => t.group == GroupAfter(s) && t.cursor == CursorAfter(s) && t.tasks == s.tasks
       case ReadGroup(w) =>
         && w !in s.tasks && s.group.Some? && s.cursor < |s.store.stream|
         && t.group == s.group && t.cursor == s.cursor + 1 && t.tasks == s.tasks[w := Got(s.cursor)]
       case Reclaim(w, id) =>
         && w !in s.tasks && s.group.Some? && s.group.value <= id < s.cursor && id !in s.store.acked
         && t.group == s.group && t.cursor == s.cursor && t.tasks == s.tasks[w := Got(id)]
       case Crash(w) => t.group == s.group && t.cursor == s.cursor && t.tasks == s.tasks - {w}
       case _ => false
  }

  /** The event a worker is handling. */
  function EventOf(s: State, id: nat): nat
    requires id < |s.store.stream|
  {
    s.store.stream[id].body.event
  }

  predicate ClassifyStep(s: State, w: nat, row: Row, t: State) {
    && HandlersKept(s, t) && QueueKept(s, t)
    && w in s.tasks && s.tasks[w].Got? && s.tasks[w].id < |s.store.stream|
    && var id := s.tasks[w].id;
       if !s.store.stream[id].body.decodes then t.verdicts == s.verdicts && t.tasks == s.tasks[w := Failing(id)]
       else
         && t.verdicts == s.verdicts + {(EventOf(s, id), row)}
         && t.tasks == s.tasks[w := if row.verdict.Dirty? then Auditing(id, row) else Persisting(id, row)]
  }

  predicate AuditStep(s: State, w: nat, o: Outcome, t: State) {
    && w in s.tasks && s.tasks[w].Auditing? && s.tasks[w].id < |s.store.stream|
    && var id := s.tasks[w].id;
       && t.store == (if o.TookEffect() then s.store.(audited := s.store.audited + {EventOf(s, id)}) else s.store)
       && t.tasks == s.tasks[w := if o.Ok? then Acking(id) else Failing(id)]
  }

  /** One transaction: insert-if-absent on the event id. Only the inserter goes on to the embed queue. */
  predicate PersistStep(s: State, w: nat, o: Outcome, t: State) {
    && w in s.tasks && s.tasks[w].Persisting? && s.tasks[w].id < |s.store.stream|
    && var id := s.tasks[w].id;
       var e := EventOf(s, id);
       && t.store == (if o.TookEffect() && e !in s.store.persisted
                      then s.store.(persisted := s.store.persisted[e := s.tasks[w].row]) else s.store)
       && t.tasks ==
           s.tasks[w := if !o.Ok? then Failing(id) else if e in s.store.persisted then Acking(id) else Embedding(id)]
  }

  predicate EmbedStep(s: State, w: nat, o: Outcome, t: State) {
    && w in s.tasks && s.tasks[w].Embedding? && s.tasks[w].id < |s.store.stream|
    && var id := s.tasks[w].id;
       && t.store ==
           (if o.TookEffect() then s.store.(embedQueue := s.store.embedQueue + multiset{EventOf(s, id)}) else s.store)
       && t.tasks == s.tasks[w := Acking(id)]
  }

  /** `fail`: re-add with one more retry, or dead-letter at the fifth failure; ack only after that worked. */
  predicate FailStep(s: State, w: nat, o: Outcome, t: State) {
    && w in s.tasks && s.tasks[w].Failing? && s.tasks[w].id < |s.store.stream|
    && var id := s.tasks[w].id;
       && t.store == (if o.TookEffect() then Requeued(s.store, id) else s.store)
       && t.tasks == (if o.Ok? then s.tasks[w := Acking(id)] else s.tasks - {w})
  }

  function Requeued(st: Store, id: nat): Store
    requires id < |st.stream|
  {
    var e := st.stream[id];
    if e.retries + 1 >= MAX_RETRIES then st.(dlq := st.dlq + [e])
    else st.(stream := st.stream + [Entry(e.body, e.retries + 1)])
  }

  predicate AckStep(s: State, w: nat, o: Outcome, t: State) {
    && w in s.tasks && s.tasks[w].Acking?
    && t.store == (if o.TookEffect() then s.store.(acked := s.store.acked + {s.tasks[w].id}) else s.store)
    && t.tasks == s.tasks - {w}
  }

  predicate WorkStep(s: State, a: Action, t: State) {
    && HandlersKept(s, t) && t.group == s.group && t.cursor == s.cursor && t.verdicts == s.verdicts
    && match a
       case AuditTx(w, o) => AuditStep(s, w, o, t)
       case PersistTx(w, o) => PersistStep(s, w, o, t)
       case PushEmbed(w, o) => EmbedStep(s, w, o, t)
       case AddOnFail(w, o) => FailStep(s, w, o, t)
       case Ack(w, o) => AckStep(s, w, o, t)
       case _ => false
  }

  predicate Step(s: State, a: Action, t: State) {
    if a.Arrive? || a.EnsureGroup? || a.Add? || a.Reply? then HandlerStep(s, a, t)
    else if a.WorkerEnsuresGroup? || a.ReadGroup? || a.Reclaim? || a.Crash? then DeliveryStep(s, a, t)
    else if a.Classify? then ClassifyStep(s, a.w, a.row, t)
    else WorkStep(s, a, t)
  }

  /** A run: the actions taken and every state passed through. */
  datatype Run = Run(states: seq<State>, actions: seq<Action>) {
    predicate Valid() {
      && |states| == |actions| + 1
      && forall i :: 0 <= i < |actions| ==> Step(states[i], actions[i], states[i + 1])
    }

    function Last(): State
      requires states != []
    {
      states[|states| - 1]
    }

    function Front(): Run
      requires states != [] && actions != []
    {
      Run(states[..|states| - 1], actions[..|actions| - 1])
    }

    function Then(a: Action, t: State): Run {
      Run(states + [t], actions + [a])
    }
  }

  // ---------------------------------------------------------------- delivery and retry bounds

  predicate TaskInRange(s: State, w: nat)
    requires w in s.tasks
  {
    s.tasks[w].id < s.cursor
  }

  /** Every entry was added after the group existed, so the group sees all of them; and retries stay
      below the limit, with dead letters carrying exactly the fourth retry. */
  predicate Delivered(s: State) {
    && (s.group.None? ==> s.store.stream == [] && s.cursor == 0)
    && (s.group.Some? ==> s.group.value == 0)
    && s.cursor <= |s.store.stream|
    && (forall h :: h in s.handlers && s.handlers[h].Adding? ==> s.group.Some?)
    && (forall w :: w in s.tasks ==> TaskInRange(s, w))
    && (forall k :: k in s.store.acked ==> k < s.cursor)
    && (forall k :: 0 <= k < |s.store.stream| ==> s.store.stream[k].retries < MAX_RETRIES)
    && (forall k :: 0 <= k < |s.store.dlq| ==> s.store.dlq[k].retries == MAX_RETRIES - 1)
  }

  lemma {:induction false} StepDelivered(s: State, a: Action, t: State)
    requires Delivered(s) && Step(s, a, t)
    ensures Delivered(t)
  {
    if a.AddOnFail? { assert TaskInRange(s, a.w); }
    if a.Ack? { assert TaskInRange(s, a.w); }
    if a.Classify? || a.AuditTx? || a.PersistTx? || a.PushEmbed? || a.AddOnFail? {
      assert TaskInRange(s, a.w);
    }
    forall w | w in t.tasks ensures TaskInRange(t, w) {
      if w in s.tasks { assert TaskInRange(s, w); }
    }
  }

  // ---------------------------------------------------------------- no loss

  ghost predicate InDlq(st: Store, e: nat) {
    exists i :: 0 <= i < |st.dlq| && st.dlq[i].body.event == e
  }

  ghost predicate Settled(st: Store, e: nat) {
    e in st.persisted || e in st.audited || InDlq(st, e)
  }

  predicate Live(st: Store, k: nat) {
    k < |st.stream| && k !in st.acked
  }

  ghost predicate LiveAbove(st: Store, e: nat, j: int) {
    exists k: nat :: j < k && Live(st, k) && st.stream[k].body.event == e
  }

  /** Event e is settled, or an entry newer than j still carries it. */
  ghost predicate Covered(st: Store, e: nat, j: int) {
    Settled(st, e) || LiveAbove(st, e, j)
  }

  ghost predicate AckJustified(s: State, w: nat)
    requires w in s.tasks
  {
    && (s.tasks[w].Acking? && s.tasks[w].id < |s.store.stream| ==>
        Covered(s.store, EventOf(s, s.tasks[w].id), s.tasks[w].id))
    && (s.tasks[w].Embedding? && s.tasks[w].id < |s.store.stream| ==> EventOf(s, s.tasks[w].id) in s.store.persisted)
  }

  ghost predicate Lossless(s: State) {
    && (forall k :: k in s.store.acked && k < |s.store.stream| ==> Covered(s.store, s.store.stream[k].body.event, k))
    && (forall w :: w in s.tasks ==> AckJustified(s, w))
  }

  /** Growing the store without acking keeps every coverage. */
  predicate Grows(a: Store, b: Store) {
    && a.stream <= b.stream && a.acked == b.acked && a.dlq <= b.dlq
    && a.persisted.Keys <= b.persisted.Keys && a.audited <= b.audited
  }

  lemma {:induction false} CoveredGrows(a: Store, b: Store, e: nat, j: int)
    requires Grows(a, b) && Covered(a, e, j)
    ensures Covered(b, e, j)
  {
    if InDlq(a, e) {
      var i :| 0 <= i < |a.dlq| && a.dlq[i].body.event == e;
      assert b.dlq[i] == a.dlq[i];
    } else if LiveAbove(a, e, j) {
      var k: nat :| j < k && Live(a, k) && a.stream[k].body.event == e;
      assert Live(b, k) && b.stream[k] == a.stream[k];
    }
  }

  /** Acking k keeps coverage above j < k, because k itself was covered above k. */
  lemma {:induction false} CoveredAcks(a: Store, k: nat, e: nat, j: int)
    requires k < |a.stream| && Covered(a, a.stream[k].body.event, k) && Covered(a, e, j)
    ensures Covered(a.(acked := a.acked + {k}), e, j)
  {
    var b := a.(acked := a.acked + {k});
    if Settled(a, e) {
      assert Settled(b, e);
    } else {
      var m: nat :| j < m && Live(a, m) && a.stream[m].body.event == e;
      if m == k {
        var n: nat :| k < n && Live(a, n) && a.stream[n].body.event == e;
        assert Live(b, n);
      } else {
        assert Live(b, m);
      }
    }
  }

  lemma {:induction false} AckLossless(s: State, w: nat, o: Outcome, t: State)
    requires Delivered(s) && Lossless(s) && WorkStep(s, Ack(w, o), t)
    ensures Lossless(t)
  {
    assert TaskInRange(s, w) && AckJustified(s, w);
    var k := s.tasks[w].id;
    if o.TookEffect() {
      forall j | j in t.store.acked && j < |t.store.stream| ensures Covered(t.store, t.store.stream[j].body.event, j) {
        CoveredAcks(s.store, k, s.store.stream[j].body.event, j);
      }
    }
    forall v | v in t.tasks ensures AckJustified(t, v) {
      assert AckJustified(s, v) && TaskInRange(s, v);
      if o.TookEffect() && s.tasks[v].Acking? { CoveredAcks(s.store, k, EventOf(s, s.tasks[v].id), s.tasks[v].id); }
    }
  }

  /** Steps that do not ack: old coverage survives, and the one task that moved is justified. */
  lemma {:induction false} GrowLossless(s: State, t: State, w: nat)
    requires Delivered(s) && Lossless(s) && Grows(s.store, t.store)
    requires forall v :: v in t.tasks && v != w ==> v in s.tasks && t.tasks[v] == s.tasks[v]
    requires w in t.tasks ==> AckJustified(t, w)
    ensures Lossless(t)
  {
    forall j | j in t.store.acked && j < |t.store.stream| ensures Covered(t.store, t.store.stream[j].body.event, j) {
      CoveredGrows(s.store, t.store, s.store.stream[j].body.event, j);
    }
    forall v | v in t.tasks ensures AckJustified(t, v) {
      if v != w {
        assert AckJustified(s, v) && TaskInRange(s, v);
        var id := s.tasks[v].id;
        assert EventOf(t, id) == EventOf(s, id);
        if s.tasks[v].Acking? { CoveredGrows(s.store, t.store, EventOf(s, id), id); }
      }
    }
  }

  lemma {:induction false} FailLossless(s: State, w: nat, o: Outcome, t: State)
    requires Delivered(s) && Lossless(s) && WorkStep(s, AddOnFail(w, o), t)
    ensures Lossless(t)
  {
    assert TaskInRange(s, w);
    var id := s.tasks[w].id;
    var e := s.store.stream[id];
    if o.Ok? {
      if e.retries + 1 >= MAX_RETRIES {
        assert t.store.dlq[|s.store.dlq|] == e;
        assert InDlq(t.store, e.body.event);
      } else {
        assert Live(t.store, |s.store.stream|) && t.store.stream[|s.store.stream|].body == e.body;
      }
      assert AckJustified(t, w);
    }
    GrowLossless(s, t, w);
  }

  lemma {:induction false} HandlerLossless(s: State, a: Action, t: State)
    requires Delivered(s) && Lossless(s) && HandlerStep(s, a, t)
    ensures Lossless(t)
  {
    forall v | v in t.tasks ensures AckJustified(t, v) {
      assert AckJustified(s, v) && TaskInRange(s, v);
      if s.tasks[v].Acking? { CoveredGrows(s.store, t.store, EventOf(s, s.tasks[v].id), s.tasks[v].id); }
    }
    forall j | j in t.store.acked && j < |t.store.stream| ensures Covered(t.store, t.store.stream[j].body.event, j) {
      CoveredGrows(s.store, t.store, s.store.stream[j].body.event, j);
    }
  }

  lemma {:induction false} StepLossless(s: State, a: Action, t: State)
    requires Delivered(s) && Lossless(s) && Step(s, a, t)
    ensures Lossless(t)
  {
    match a {
      case Ack(w, o) => AckLossless(s, w, o, t);
      case AddOnFail(w, o) => FailLossless(s, w, o, t);
      case AuditTx(w, o) => assert TaskInRange(s, w); GrowLossless(s, t, w);
      case PersistTx(w, o) => assert TaskInRange(s, w); GrowLossless(s, t, w);
      case PushEmbed(w, o) => assert TaskInRange(s, w) && AckJustified(s, w); GrowLossless(s, t, w);
      case Classify(w, _) => GrowLossless(s, t, w);
      case ReadGroup(w) => GrowLossless(s, t, w);
      case Reclaim(w, _) => GrowLossless(s, t, w);
      case Crash(w) => GrowLossless(s, t, w);
      case WorkerEnsuresGroup => GrowLossless(s, t, 0);
      case _ => HandlerLossless(s, a, t);
    }
  }

  // ---------------------------------------------------------------- where acked events come from

  ghost predicate InStream(st: Store, e: nat) {
    exists k: nat :: k < |st.stream| && st.stream[k].body.event == e
  }

  ghost predicate Sourced(s: State) {
    && (forall e :: e in s.okAcked ==> InStream(s.store, e))
    && (forall h :: h in s.handlers && s.handlers[h].Replying? && s.handlers[h].ok ==>
        InStream(s.store, s.handlers[h].body.event))
  }

  lemma {:induction false} StepSourced(s: State, a: Action, t: State)
    requires Sourced(s) && Step(s, a, t)
    ensures Sourced(t)
  {
    assert s.store.stream <= t.store.stream;
    forall e | InStream(s.store, e) ensures InStream(t.store, e) {
      var k: nat :| k < |s.store.stream| && s.store.stream[k].body.event == e;
      assert t.store.stream[k] == s.store.stream[k];
    }
    if a.Add? && a.outcome.Ok? {
      assert t.store.stream[|s.store.stream|].body == s.handlers[a.h].body;
      assert InStream(t.store, s.handlers[a.h].body.event);
    }
  }

  // ---------------------------------------------------------------- what is persisted

  predicate Vetted(s: State, w: nat)
    requires w in s.tasks
  {
    var task := s.tasks[w];
    && (task.Persisting? && task.id < |s.store.stream| ==>
        !task.row.verdict.Dirty? && (EventOf(s, task.id), task.row) in s.verdicts)
    && (task.Auditing? && task.id < |s.store.stream| ==>
        task.row.verdict.Dirty? && (EventOf(s, task.id), task.row) in s.verdicts)
  }

  /** Persisted rows carry the text of a verdict that was not Dirty, audited events had a Dirty one. */
  ghost predicate Screened(s: State) {
    && (forall w :: w in s.tasks ==> Vetted(s, w))
    && (forall e :: e in s.store.persisted ==>
        !s.store.persisted[e].verdict.Dirty? && (e, s.store.persisted[e]) in s.verdicts)
    && (forall e :: e in s.store.audited ==> exists row: Row :: row.verdict.Dirty? && (e, row) in s.verdicts)
  }

  lemma {:induction false} StepScreened(s: State, a: Action, t: State)
    requires Delivered(s) && Screened(s) && Step(s, a, t)
    ensures Screened(t)
  {
    forall w | w in t.tasks ensures Vetted(t, w) {
      if w in s.tasks { assert Vetted(s, w) && TaskInRange(s, w); }
    }
    if a.AuditTx? || a.PersistTx? { assert Vetted(s, a.w) && TaskInRange(s, a.w); }
  }

  // ---------------------------------------------------------------- at most one embed job

  predicate Embeds(s: State, w: nat, e: nat) {
    w in s.tasks && s.tasks[w].Embedding? && s.tasks[w].id < |s.store.stream| && EventOf(s, s.tasks[w].id) == e
  }

  ghost predicate EmbedsOnce(s: State) {
    && (forall e :: s.store.embedQueue[e] <= if e in s.store.persisted then 1 else 0)
    && (forall w, e :: Embeds(s, w, e) ==> s.store.embedQueue[e] == 0 && e in s.store.persisted)
    && (forall w, v, e :: Embeds(s, w, e) && Embeds(s, v, e) ==> w == v)
  }

  lemma {:induction false} StepEmbedsOnce(s: State, a: Action, t: State)
    requires Delivered(s) && EmbedsOnce(s) && Step(s, a, t)
    ensures EmbedsOnce(t)
  {
    if a.PersistTx? { PersistEmbedsOnce(s, a.w, a.outcome, t); }
    else if a.PushEmbed? { PushEmbedsOnce(s, a.w, a.outcome, t); }
    else {
      forall w, e | Embeds(t, w, e) ensures Embeds(s, w, e) { EmbedderWas(s, a, t, w, e); }
      assert t.store.embedQueue == s.store.embedQueue && t.store.persisted == s.store.persisted;
    }
  }

  lemma {:induction false} EmbedderWas(s: State, a: Action, t: State, w: nat, e: nat)
    requires Delivered(s) && Step(s, a, t) && !a.PersistTx? && !a.PushEmbed? && Embeds(t, w, e)
    ensures Embeds(s, w, e)
  {
    if w in s.tasks { assert TaskInRange(s, w); }
  }

  lemma {:induction false} PersistEmbedsOnce(s: State, w: nat, o: Outcome, t: State)
    requires Delivered(s) && EmbedsOnce(s) && WorkStep(s, PersistTx(w, o), t)
    ensures EmbedsOnce(t)
  {
    forall v, e | Embeds(t, v, e) && v != w ensures Embeds(s, v, e) { assert TaskInRange(s, v); }
  }

  lemma {:induction false} PushEmbedsOnce(s: State, w: nat, o: Outcome, t: State)
    requires Delivered(s) && EmbedsOnce(s) && WorkStep(s, PushEmbed(w, o), t)
    ensures EmbedsOnce(t)
  {
    assert Embeds(s, w, EventOf(s, s.tasks[w].id));
    forall v, e | Embeds(t, v, e) ensures v != w && Embeds(s, v, e) { assert TaskInRange(s, v); }
  }

  // ---------------------------------------------------------------- over every run

  ghost predicate Inv(s: State) {
    Delivered(s) && Lossless(s) && Sourced(s) && Screened(s) && EmbedsOnce(s)
  }

  lemma {:induction false} StepInv(s: State, a: Action, t: State)
    requires Inv(s) && Step(s, a, t)
    ensures Inv(t)
  {
    StepDelivered(s, a, t);
    StepLossless(s, a, t);
    StepSourced(s, a, t);
    StepScreened(s, a, t);
    StepEmbedsOnce(s, a, t);
  }

  lemma {:induction false} RunInv(r: Run)
    requires r.Valid() && Inv(r.states[0])
    ensures Inv(r.Last())
    decreases |r.actions|
  {
    if r.actions != [] {
      RunInv(r.Front());
      StepInv(r.Front().Last(), r.actions[|r.actions| - 1], r.Last());
    }
  }

  /** Settled, or an un-acked entry the group delivers. */
  ghost predicate StillHeld(s: State, e: nat) {
    || Settled(s.store, e)
    || exists k: nat :: Live(s.store, k) && s.store.stream[k].body.event == e && s.group.Some? && s.group.value <= k
  }

  lemma {:induction false} AckedIsHeld(s: State, e: nat)
    requires Inv(s) && e in s.okAcked
    ensures StillHeld(s, e)
  {
    var k: nat :| k < |s.store.stream| && s.store.stream[k].body.event == e;
    if k in s.store.acked && !Settled(s.store, e) {
      assert LiveAbove(s.store, e, k);
      var m: nat :| k < m && Live(s.store, m) && s.store.stream[m].body.event == e;
    } else if !Settled(s.store, e) {
      assert Live(s.store, k);
    }
  }

  /** No loss: with crashes and lost answers anywhere and any redelivery, every event the daemon saw
      acked "ok" is persisted, audited, dead-lettered, or still an un-acked entry the group delivers. */
  lemma {:induction false} NoLoss(r: Run, e: nat)
    requires r.Valid() && r.states[0] == INIT && e in r.Last().okAcked
    ensures StillHeld(r.Last(), e)
  {
    RunInv(r);
    AckedIsHeld(r.Last(), e);
  }

  /** A body is only ever persisted under a verdict that was not Dirty, with that verdict's text; only
      bodies that were once judged Dirty are audited. */
  lemma {:induction false} DirtyNeverPersisted(r: Run)
    requires r.Valid() && r.states[0] == INIT
    ensures var s := r.Last();
            && (forall e :: e in s.store.persisted ==>
                  !s.store.persisted[e].verdict.Dirty? && (e, s.store.persisted[e]) in s.verdicts)
            && (forall e :: e in s.store.audited ==> exists row: Row :: row.verdict.Dirty? && (e, row) in s.verdicts)
  {
    RunInv(r);
  }

  /** When the classifier is a function of the event, nothing is both persisted and audited. */
  lemma {:induction false} StableClassifierSeparates(r: Run, classify: nat -> Row, e: nat)
    requires r.Valid() && r.states[0] == INIT
    requires forall v :: v in r.Last().verdicts ==> v.1 == classify(v.0)
    ensures e in r.Last().store.persisted ==> r.Last().store.persisted[e] == classify(e) && !classify(e).verdict.Dirty?
    ensures e in r.Last().store.audited ==> classify(e).verdict.Dirty?
  {
    DirtyNeverPersisted(r);
    var s := r.Last();
    if e in s.store.persisted { assert (e, s.store.persisted[e]) in s.verdicts; }
    if e in s.store.audited {
      var row: Row :| row.verdict.Dirty? && (e, row) in s.verdicts;
    }
  }

  /** Each event id yields at most one embed job, and only after it was persisted. */
  lemma {:induction false} AtMostOneEmbedJob(r: Run, e: nat)
    requires r.Valid() && r.states[0] == INIT
    ensures r.Last().store.embedQueue[e] <= 1
    ensures r.Last().store.embedQueue[e] == 1 ==> e in r.Last().store.persisted
  {
    RunInv(r);
  }

  /** Live entries carry 0..4 retries; a dead letter is always a fifth failure. */
  lemma {:induction false} RetriesBounded(r: Run)
    requires r.Valid() && r.states[0] == INIT
    ensures forall k :: 0 <= k < |r.Last().store.stream| ==> r.Last().store.stream[k].retries <= 4
    ensures forall k :: 0 <= k < |r.Last().store.dlq| ==> r.Last().store.dlq[k].retries == 4
  {
    RunInv(r);
  }
}
