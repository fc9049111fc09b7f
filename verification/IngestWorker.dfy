/** HandleMessage as one worker executes it (internal/ingest/consumer.go), call by call. The code is
    tied to the protocol in Ingest.dfy by a ghost history: whatever the calls answer, it takes only
    protocol steps, in order. With Redis answering, its whole effect is stated outright. */
module IngestWorker {
  import opened Common
  import opened Ingest

  // ---------------------------------------------------------------- the retries field

  /** The values a stream field can come back as; go-redis returns text. */
  datatype Field = Absent | Number(n: int) | Text(s: string)

  function Digit(d: nat): char
    requires d < 10
  {
    '0' + d as char
  }

  /** How XADD stores a count: decimal text. */
  function Itoa(n: nat): string {
    if n < 10 then [Digit(n)] else Itoa(n / 10) + [Digit(n % 10)]
  }

  predicate IsDigit(c: char) {
    '0' <= c <= '9'
  }

  /** strconv.Atoi on digits, with any other text reading as 0. */
  function Atoi(s: string): nat {
    if s == [] || exists i :: 0 <= i < |s| && !IsDigit(s[i]) then 0
    else Atoi(s[..|s| - 1]) * 10 + (s[|s| - 1] - '0') as nat
  }

  function ReadRetries(f: Field): int {
    match f
    case Absent => 0
    case Number(n) => n
    case Text(s) => Atoi(s)
  }

  lemma {:induction false} ItoaDigits(n: nat)
    ensures Itoa(n) != [] && forall i :: 0 <= i < |Itoa(n)| ==> IsDigit(Itoa(n)[i])
  {
    if n >= 10 { ItoaDigits(n / 10); }
  }

  /** The count `fail` writes is the count the next delivery reads. */
  lemma {:induction false} RetriesRoundTrip(n: nat)
    ensures ReadRetries(Text(Itoa(n))) == n
  {
    ItoaDigits(n);
    var s := Itoa(n);
    if n >= 10 {
      RetriesRoundTrip(n / 10);
      assert s[..|s| - 1] == Itoa(n / 10);
    } else {
      assert s == [Digit(n)] && s[..0] == [] && IsDigit(s[0]);
      assert (s[0] - '0') as nat == n && Atoi([]) == 0;
    }
  }

  // ---------------------------------------------------------------- one handling

  /** What each call of one handling answers. */
  datatype Calls = Calls(row: Row, audit: Outcome, persist: Outcome, embed: Outcome, add: Outcome, ack: Outcome) {
    /** Redis answers, and a failed transaction leaves nothing behind. */
    predicate Reliable() {
      add.Ok? && ack.Ok? && !audit.FailedAfterEffect? && !persist.FailedAfterEffect?
    }
  }

  predicate Fails(b: Body, c: Calls) {
    !b.decodes || (if c.row.verdict.Dirty? then !c.audit.Ok? else !c.persist.Ok?)
  }

  /** The effect of one handling under reliable calls: the entry is acked, and its event either ended in
      exactly one sink or was re-added with one more retry. */
  predicate HandledReliably(st: Store, id: nat, c: Calls, st': Store)
    requires id < |st.stream|
  {
    var entry := st.stream[id];
    var e := entry.body.event;
    && st'.acked == st.acked + {id}
    && if Fails(entry.body, c) then
         && st'.persisted == st.persisted && st'.audited == st.audited
         && if entry.retries + 1 >= MAX_RETRIES then st'.dlq == st.dlq + [entry] && st'.stream == st.stream
            else st'.stream == st.stream + [Entry(entry.body, entry.retries + 1)] && st'.dlq == st.dlq
       else
         && st'.stream == st.stream && st'.dlq == st.dlq
         && if c.row.verdict.Dirty? then st'.audited == st.audited + {e} && st'.persisted == st.persisted
            else
              && st'.audited == st.audited
              && st'.persisted == if e in st.persisted then st.persisted else st.persisted[e := c.row]
  }

  class Worker {
    const me: nat
    var store: Store
    ghost var history: Run

    ghost predicate Valid() reads this {
      history.Valid() && history.states[0] == INIT && history.Last().store == store
    }

    ghost predicate At(task: Task) reads this
      requires Valid()
    {
      me in history.Last().tasks && history.Last().tasks[me] == task && task.id < |store.stream|
    }

    ghost predicate Idle() reads this
      requires Valid()
    {
      me !in history.Last().tasks
    }

    ghost method Record(a: Action, t: State)
      requires history.Valid() && history.states[0] == INIT && Ingest.Step(history.Last(), a, t)
      modifies this`history
      ensures history.Valid() && history.states[0] == INIT && history.Last() == t
    {
      history := history.Then(a, t);
    }

    method AuditLeak(ghost row: Row, id: nat, o: Outcome)
      requires Valid() && At(Auditing(id, row))
      modifies this
      ensures Valid() && At(if o.Ok? then Acking(id) else Failing(id))
      ensures store == if o.TookEffect()
                       then old(store).(audited := old(store).audited + {old(store).stream[id].body.event})
                       else old(store)
    {
      ghost var s := history.Last();
      if o.TookEffect() { store := store.(audited := store.audited + {store.stream[id].body.event}); }
      Record(AuditTx(me, o), s.(store := store, tasks := s.tasks[me := if o.Ok? then Acking(id) else Failing(id)]));
    }

    method Persist(id: nat, row: Row, o: Outcome) returns (inserted: bool)
      requires Valid() && At(Persisting(id, row))
      modifies this
      ensures var e := old(store).stream[id].body.event;
              && inserted == (e !in old(store).persisted)
              && store == if o.TookEffect() && inserted then old(store).(persisted := old(store).persisted[e := row])
                  else old(store)
      ensures Valid() && At(if !o.Ok? then Failing(id) else if inserted then Embedding(id) else Acking(id))
    {
      ghost var s := history.Last();
      var e := store.stream[id].body.event;
      inserted := e !in store.persisted;
      if o.TookEffect() && inserted { store := store.(persisted := store.persisted[e := row]); }
      ghost var next := if !o.Ok? then Failing(id) else if inserted then Embedding(id) else Acking(id);
      Record(PersistTx(me, o), s.(store := store, tasks := s.tasks[me := next]));
    }

    method EnqueueEmbedding(id: nat, o: Outcome)
      requires Valid() && At(Embedding(id))
      modifies this
      ensures Valid() && At(Acking(id))
      ensures store == if o.TookEffect()
                       then old(store).(embedQueue :=
                              old(store).embedQueue + multiset{old(store).stream[id].body.event})
                       else old(store)
    {
      ghost var s := history.Last();
      if o.TookEffect() { store := store.(embedQueue := store.embedQueue + multiset{store.stream[id].body.event}); }
      Record(PushEmbed(me, o), s.(store := store, tasks := s.tasks[me := Acking(id)]));
    }

    method XAck(id: nat, o: Outcome)
      requires Valid() && At(Acking(id))
      modifies this
      ensures Valid() && Idle()
      ensures store == if o.TookEffect() then old(store).(acked := old(store).acked + {id}) else old(store)
    {
      ghost var s := history.Last();
      if o.TookEffect() { store := store.(acked := store.acked + {id}); }
      Record(Ack(me, o), s.(store := store, tasks := s.tasks - {me}));
    }

    method Fail(id: nat, c: Calls)
      requires Valid() && At(Failing(id))
      modifies this
      ensures Valid() && Idle()
      ensures c.add.Ok? && c.ack.Ok? ==> store == Requeued(old(store), id).(acked := old(store).acked + {id})
    {
      ghost var s := history.Last();
      var entry := store.stream[id];
      if c.add.TookEffect() {
        if entry.retries + 1 >= MAX_RETRIES {
          store := store.(dlq := store.dlq + [entry]);
        } else {
          store := store.(stream := store.stream + [Entry(entry.body, entry.retries + 1)]);
        }
      }
      Record(AddOnFail(me, c.add),
          s.(store := store, tasks := if c.add.Ok? then s.tasks[me := Acking(id)] else s.tasks - {me}));
      if c.add.Ok? { XAck(id, c.ack); }
    }

    /** Decode, classify, audit or persist, embed, ack; any failure goes through Fail. */
    method HandleMessage(id: nat, c: Calls)
      requires Valid() && At(Got(id))
      modifies this
      ensures Valid() && Idle()
      ensures c.Reliable() ==> HandledReliably(old(store), id, c, store)
    {
      ghost var s := history.Last();
      var body := store.stream[id].body;
      ghost var verdicts := if body.decodes then s.verdicts + {(body.event, c.row)} else s.verdicts;
      ghost var next := if !body.decodes then Failing(id) else if c.row.verdict.Dirty? then Auditing(id, c.row)
          else Persisting(id, c.row);
      Record(Ingest.Classify(me, c.row), s.(verdicts := verdicts, tasks := s.tasks[me := next]));
      if !body.decodes {
        Fail(id, c);
      } else if c.row.verdict.Dirty? {
        AuditLeak(c.row, id, c.audit);
        if c.audit.Ok? { XAck(id, c.ack); } else { Fail(id, c); }
      } else {
        var inserted := Persist(id, c.row, c.persist);
        if !c.persist.Ok? { Fail(id, c); }
        else {
          if inserted { EnqueueEmbedding(id, c.embed); }
          XAck(id, c.ack);
        }
      }
    }
  }
}
