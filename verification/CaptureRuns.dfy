/** Whole runs of the capture daemon: any number of passes and restarts, each with arbitrary append
    failures, lost publishes, lost acks and failed marks. */
module CaptureRuns {
  import opened Capture

  /** Every ok ack read is one the server sent; `acked` are the messages it acked "ok" over the whole run. */
  ghost predicate HonestTry(t: Try, acked: set<nat>) {
    forall i :: 0 <= i < |t.frames| && t.frames[i].Ack? && t.frames[i].ok ==> t.frames[i].msg in acked
  }

  ghost predicate Honest(tries: seq<Try>, acked: set<nat>) {
    forall i :: 0 <= i < |tries| ==> HonestTry(tries[i], acked)
  }

  predicate Minted(log: seq<Published>, msg: nat) {
    exists k :: 0 <= k < |log| && log[k].msg == msg
  }

  /** Message ids are minted fresh (uuid.New). */
  predicate FreshTries(log: seq<Published>, tries: seq<Try>) {
    && (forall i :: 0 <= i < |tries| ==> !Minted(log, tries[i].msg))
    && (forall i, j :: 0 <= i < j < |tries| ==> tries[i].msg != tries[j].msg)
  }

  const START := World(Table([], 1), [], {})

  ghost predicate IsRun(worlds: seq<World>, passes: seq<Pass>, acked: set<nat>) {
    && |worlds| == |passes| + 1 && worlds[0] == START
    && forall i :: 0 <= i < |passes| ==>
         && passes[i].durable <= |passes[i].events| && Honest(passes[i].tries, acked)
         && FreshTries(worlds[i].log, passes[i].tries)
         && worlds[i + 1] == AfterPass(worlds[i], passes[i])
  }

  // ---------------------------------------------------------------- invariant

  function FirstUnsent(rows: seq<Row>): (n: nat)
    ensures n <= |rows|
    ensures forall i :: 0 <= i < n ==> rows[i].sent
    ensures n < |rows| ==> !rows[n].sent
  {
    if rows == [] || !rows[0].sent then 0 else 1 + FirstUnsent(rows[1..])
  }

  /** Sent rows are a prefix of id order. */
  predicate SentPrefix(rows: seq<Row>) {
    forall i :: FirstUnsent(rows) <= i < |rows| ==> !rows[i].sent
  }

  ghost predicate Proven(w: World, i: nat)
    requires i < |w.table.rows|
  {
    exists k :: 0 <= k < |w.log| && w.log[k].row == w.table.rows[i].id && w.log[k].msg in w.confirmed
  }

  /** Rows are published in id order, never past an unsent one, and each attempt has its own message id. */
  ghost predicate LogOk(table: Table, log: seq<Published>) {
    && (forall k :: 0 <= k < |log| ==> 1 <= log[k].row < table.nextId)
    && (forall k, l :: 0 <= k < l < |log| ==> log[k].row <= log[l].row && log[k].msg != log[l].msg)
    && (forall k, i :: 0 <= k < |log| && FirstUnsent(table.rows) <= i < |table.rows| ==> log[k].row <= table.rows[i].id)
  }

  ghost predicate Inv(w: World, acked: set<nat>) {
    && TableOk(w.table) && SentPrefix(w.table.rows) && LogOk(w.table, w.log)
    && w.confirmed <= acked
    && (forall i :: 0 <= i < FirstUnsent(w.table.rows) ==> Proven(w, i))
  }

  /** Rows are never removed, renumbered or un-sent. */
  ghost predicate Kept(a: seq<Row>, b: seq<Row>) {
    && |a| <= |b|
    && forall i :: 0 <= i < |a| ==> b[i].id == a[i].id && b[i].event == a[i].event && (a[i].sent ==> b[i].sent)
  }

  lemma {:induction false} UnsentIsSuffix(rows: seq<Row>)
    requires SentPrefix(rows)
    ensures Unsent(rows) == rows[FirstUnsent(rows)..]
  {
    if rows != [] {
      if rows[0].sent {
        UnsentIsSuffix(rows[1..]);
      } else {
        AllUnsent(rows);
      }
    }
  }

  lemma {:induction false} AllUnsent(rows: seq<Row>)
    requires forall i :: 0 <= i < |rows| ==> !rows[i].sent
    ensures Unsent(rows) == rows
  {
    if rows != [] { AllUnsent(rows[1..]); }
  }

  lemma {:induction false} FirstUnsentIs(rows: seq<Row>, n: nat)
    requires n <= |rows| && (forall i :: 0 <= i < n ==> rows[i].sent) && (n < |rows| ==> !rows[n].sent)
    ensures FirstUnsent(rows) == n
  {
  }

  // ---------------------------------------------------------------- appending

  lemma {:induction false} AppendedInv(w: World, e: Event, acked: set<nat>)
    requires Inv(w, acked)
    ensures var w' := w.(table := Appended(w.table, e)); Inv(w', acked) && Kept(w.table.rows, w'.table.rows)
  {
    var w' := w.(table := Appended(w.table, e));
    if !Holds(w.table.rows, e) {
      var n := FirstUnsent(w.table.rows);
      FirstUnsentIs(w'.table.rows, n);
      forall i | 0 <= i < n ensures Proven(w', i) { assert Proven(w, i); }
    }
  }

  lemma {:induction false} AppendedAllInv(w: World, es: seq<Event>, acked: set<nat>)
    requires Inv(w, acked)
    ensures var w' := w.(table := AppendedAll(w.table, es)); Inv(w', acked) && Kept(w.table.rows, w'.table.rows)
  {
    if es != [] {
      AppendedAllInv(w, es[..|es| - 1], acked);
      AppendedInv(w.(table := AppendedAll(w.table, es[..|es| - 1])), es[|es| - 1], acked);
    }
  }

  /** Re-appending an event the table holds changes nothing: no row is added and none is un-sent. */
  lemma {:induction false} ReappendIsNoOp(t: Table, e: Event)
    ensures Appended(Appended(t, e), e) == Appended(t, e)
    ensures Holds(t.rows, e) ==> Appended(t, e) == t
  {
    var t1 := Appended(t, e);
    assert Holds(t1.rows, e) by {
      if !Holds(t.rows, e) { assert t1.rows[|t.rows|].event == e; }
    }
  }

  // ---------------------------------------------------------------- publishing and marking

  lemma {:induction false} ConfirmedIsAcked(t: Try, acked: set<nat>)
    requires HonestTry(t, acked) && t.Confirmed()
    ensures t.msg in acked
  {
    var i: nat :| AckedAt(t.frames, t.msg, i);
  }

  lemma {:induction false} MarkedAt(rows: seq<Row>, n: nat)
    requires n < |rows| && forall i, j :: 0 <= i < j < |rows| ==> rows[i].id < rows[j].id
    ensures Marked(rows, rows[n].id) == rows[n := rows[n].(sent := true)]
  {
    var after := Marked(rows, rows[n].id);
    forall i | 0 <= i < |rows| ensures after[i] == rows[n := rows[n].(sent := true)][i] {
      if i < n { assert rows[i].id < rows[n].id; }
      if n < i { assert rows[n].id < rows[i].id; }
    }
  }

  lemma {:induction false} MarkedRows(rows: seq<Row>, n: nat)
    requires n == FirstUnsent(rows) < |rows| && SentPrefix(rows)
    requires forall i, j :: 0 <= i < j < |rows| ==> rows[i].id < rows[j].id
    ensures var after := Marked(rows, rows[n].id);
            && FirstUnsent(after) == n + 1 && SentPrefix(after) && Kept(rows, after)
            && after[n + 1..] == rows[n + 1..]
  {
    MarkedAt(rows, n);
    FirstUnsentIs(Marked(rows, rows[n].id), n + 1);
  }

  /** Publishing the front row keeps the log in order. */
  lemma {:induction false} LogGrows(table: Table, log: seq<Published>, n: nat, msg: nat)
    requires TableOk(table) && LogOk(table, log) && n == FirstUnsent(table.rows) < |table.rows| && !Minted(log, msg)
    ensures LogOk(table, log + [Published(table.rows[n].id, msg)])
  {
    forall k | 0 <= k < |log| ensures log[k].row <= table.rows[n].id {}
    forall i | n < i < |table.rows| ensures table.rows[n].id < table.rows[i].id {}
  }

  function MarkFront(table: Table, n: nat): Table
    requires n < |table.rows|
  {
    table.(rows := Marked(table.rows, table.rows[n].id))
  }

  /** Marking the front row keeps the log behind the rows still unsent. */
  lemma {:induction false} MarkKeepsLog(table: Table, log: seq<Published>, n: nat)
    requires TableOk(table) && SentPrefix(table.rows) && LogOk(table, log)
    requires n == FirstUnsent(table.rows) < |table.rows|
    ensures TableOk(MarkFront(table, n)) && SentPrefix(MarkFront(table, n).rows) && LogOk(MarkFront(table, n), log)
  {
    MarkedAt(table.rows, n);
    MarkedRows(table.rows, n);
  }

  lemma {:induction false} ProvenGrows(w: World, w': World, i: nat)
    requires i < |w.table.rows| <= |w'.table.rows| && w'.table.rows[i].id == w.table.rows[i].id
    requires w.log <= w'.log && w.confirmed <= w'.confirmed && Proven(w, i)
    ensures Proven(w', i)
  {
    var k :| 0 <= k < |w.log| && w.log[k].row == w.table.rows[i].id && w.log[k].msg in w.confirmed;
    assert w'.log[k] == w.log[k];
  }

  /** Publishing the front row. */
  lemma {:induction false} PublishInv(w: World, n: nat, msg: nat, acked: set<nat>)
    requires Inv(w, acked) && n == FirstUnsent(w.table.rows) < |w.table.rows| && !Minted(w.log, msg)
    ensures Inv(w.(log := w.log + [Published(w.table.rows[n].id, msg)]), acked)
  {
    var w' := w.(log := w.log + [Published(w.table.rows[n].id, msg)]);
    LogGrows(w.table, w.log, n, msg);
    forall i | 0 <= i < n ensures Proven(w', i) { ProvenGrows(w, w', i); }
  }

  /** Marking the front row, whose last attempt was confirmed. */
  lemma {:induction false} MarkInv(w: World, n: nat, acked: set<nat>)
    requires Inv(w, acked) && n == FirstUnsent(w.table.rows) < |w.table.rows| && Proven(w, n)
    ensures var w' := w.(table := MarkFront(w.table, n));
            && Inv(w', acked) && Kept(w.table.rows, w'.table.rows) && FirstUnsent(w'.table.rows) == n + 1
            && w'.table.rows[n + 1..] == w.table.rows[n + 1..]
  {
    var w' := w.(table := MarkFront(w.table, n));
    MarkKeepsLog(w.table, w.log, n);
    MarkedRows(w.table.rows, n);
    forall i | 0 <= i < n + 1 ensures Proven(w', i) { ProvenGrows(w, w', i); }
  }

  lemma {:induction false} ConfirmInv(w: World, msg: nat, acked: set<nat>)
    requires Inv(w, acked) && msg in acked
    ensures Inv(w.(confirmed := w.confirmed + {msg}), acked)
  {
    var w' := w.(confirmed := w.confirmed + {msg});
    forall i | 0 <= i < FirstUnsent(w.table.rows) ensures Proven(w', i) { ProvenGrows(w, w', i); }
  }

  /** One whole attempt at the front row: publish, confirm, mark. */
  lemma {:induction false} AttemptInv(w: World, t: Try, acked: set<nat>)
    requires Inv(w, acked) && HonestTry(t, acked) && !Minted(w.log, t.msg)
    requires FirstUnsent(w.table.rows) < |w.table.rows|
    ensures var n := FirstUnsent(w.table.rows);
            var w' := Attempt(w, w.table.rows[n].id, t);
            && Inv(w', acked) && Kept(w.table.rows, w'.table.rows)
            && (t.Confirmed() && t.mark.TookEffect() ==>
                  FirstUnsent(w'.table.rows) == n + 1 && w'.table.rows[n + 1..] == w.table.rows[n + 1..])
  {
    var n := FirstUnsent(w.table.rows);
    var id := w.table.rows[n].id;
    var w1 := w.(log := w.log + [Published(id, t.msg)]);
    PublishInv(w, n, t.msg, acked);
    if t.Confirmed() {
      ConfirmedIsAcked(t, acked);
      ConfirmInv(w1, t.msg, acked);
      var w2 := w1.(confirmed := w1.confirmed + {t.msg});
      assert w2.log[|w.log|] == Published(id, t.msg);
      MarkInv(w2, n, acked);
    }
  }

  lemma {:induction false} AttemptNext(w: World, todo: seq<Row>, t: Try, acked: set<nat>)
    requires Inv(w, acked) && HonestTry(t, acked) && !Minted(w.log, t.msg)
    requires todo != [] && todo <= w.table.rows[FirstUnsent(w.table.rows)..]
    ensures var after := Attempt(w, todo[0].id, t);
            && Inv(after, acked) && Kept(w.table.rows, after.table.rows)
            && (t.Confirmed() && t.mark.Ok? ==> todo[1..] <= after.table.rows[FirstUnsent(after.table.rows)..])
  {
    var n := FirstUnsent(w.table.rows);
    assert todo[0] == w.table.rows[n];
    AttemptInv(w, t, acked);
    assert todo[1..] <= w.table.rows[n + 1..];
  }

  lemma {:induction false} FreshRest(log: seq<Published>, row: nat, tries: seq<Try>)
    requires tries != [] && FreshTries(log, tries)
    ensures !Minted(log, tries[0].msg) && FreshTries(log + [Published(row, tries[0].msg)], tries[1..])
  {
    var longer := log + [Published(row, tries[0].msg)];
    forall i | 0 <= i < |tries[1..]| ensures !Minted(longer, tries[1..][i].msg) {
      assert tries[1..][i] == tries[i + 1] && !Minted(log, tries[i + 1].msg);
      forall k | 0 <= k < |longer| ensures longer[k].msg != tries[i + 1].msg {
        if k < |log| { assert longer[k] == log[k]; }
      }
    }
  }

  /** The publish loop sends the unsent rows from the oldest on, without gaps. */
  lemma {:induction false} DeliveredInv(w: World, todo: seq<Row>, tries: seq<Try>, acked: set<nat>)
    requires Inv(w, acked) && Honest(tries, acked) && FreshTries(w.log, tries)
    requires todo <= w.table.rows[FirstUnsent(w.table.rows)..]
    ensures var w' := Delivered(w, todo, tries); Inv(w', acked) && Kept(w.table.rows, w'.table.rows)
    decreases |todo|
  {
    if todo != [] && tries != [] {
      FreshRest(w.log, todo[0].id, tries);
      AttemptNext(w, todo, tries[0], acked);
      if tries[0].Confirmed() && tries[0].mark.Ok? {
        DeliveredInv(Attempt(w, todo[0].id, tries[0]), todo[1..], tries[1..], acked);
      }
    }
  }

  lemma {:induction false} PassInv(w: World, p: Pass, acked: set<nat>)
    requires Inv(w, acked) && p.durable <= |p.events| && Honest(p.tries, acked) && FreshTries(w.log, p.tries)
    ensures var w' := AfterPass(w, p); Inv(w', acked) && Kept(w.table.rows, w'.table.rows)
  {
    AppendedAllInv(w, p.events[..p.durable], acked);
    var w1 := w.(table := AppendedAll(w.table, p.events[..p.durable]));
    UnsentIsSuffix(w1.table.rows);
    if p.appendOk { DeliveredInv(w1, Take(Unsent(w1.table.rows), p.limit), p.tries, acked); }
  }

  lemma {:induction false} RunInv(worlds: seq<World>, passes: seq<Pass>, acked: set<nat>)
    requires IsRun(worlds, passes, acked)
    ensures Inv(worlds[|passes|], acked)
    decreases |passes|
  {
    if passes != [] {
      var n := |passes| - 1;
      RunInv(worlds[..n + 1], passes[..n], acked);
      PassInv(worlds[n], passes[n], acked);
    }
  }

  /** Over every run: sent rows are a prefix of id order; each sent row was published under a message whose ok ack was
      read; and the rows are published in non-decreasing order, so a replay only ever repeats the row at the front,
      under a new message id. The order in which the server adds them is another matter: see EndToEndOrder. */
  lemma {:induction false} SentMeansAcked(worlds: seq<World>, passes: seq<Pass>, acked: set<nat>)
    requires IsRun(worlds, passes, acked)
    ensures var w := worlds[|passes|];
            && (forall i, j :: 0 <= i < j < |w.table.rows| && w.table.rows[j].sent ==> w.table.rows[i].sent)
            && (forall i :: 0 <= i < |w.table.rows| && w.table.rows[i].sent ==>
                  exists k :: 0 <= k < |w.log| && w.log[k].row == w.table.rows[i].id && w.log[k].msg in acked)
            && (forall k, l :: 0 <= k < l < |w.log| ==> w.log[k].row <= w.log[l].row && w.log[k].msg != w.log[l].msg)
  {
    RunInv(worlds, passes, acked);
    var w := worlds[|passes|];
    forall i | 0 <= i < |w.table.rows| && w.table.rows[i].sent
      ensures exists k :: 0 <= k < |w.log| && w.log[k].row == w.table.rows[i].id && w.log[k].msg in acked
    {
      assert Proven(w, i);
    }
  }

  /** Over every run no captured event is lost or un-sent: once appended, its row stays, with its id. */
  lemma {:induction false} RowsAreKept(worlds: seq<World>, passes: seq<Pass>, acked: set<nat>, from: nat)
    requires IsRun(worlds, passes, acked) && from <= |passes|
    ensures Kept(worlds[from].table.rows, worlds[|passes|].table.rows)
    decreases |passes|
  {
    if from < |passes| {
      var n := |passes| - 1;
      RowsAreKept(worlds[..n + 1], passes[..n], acked, from);
      RunInv(worlds[..n + 1], passes[..n], acked);
      PassInv(worlds[n], passes[n], acked);
    }
  }

  /** The first n attempts are all confirmed and marked. */
  ghost predicate Healthy(tries: seq<Try>, n: nat) {
    n <= |tries| && forall i :: 0 <= i < n ==> tries[i].Confirmed() && tries[i].mark.Ok?
  }

  function Ids(rows: seq<Row>): set<nat> {
    set r | r in rows :: r.id
  }

  /** Progress: when nothing fails, a pass marks exactly the rows it lists. */
  lemma {:induction false} HealthyDelivery(w: World, todo: seq<Row>, tries: seq<Try>)
    requires Healthy(tries, |todo|)
    ensures var (before, after) := (w.table.rows, Delivered(w, todo, tries).table.rows);
            && |after| == |before|
            && forall i :: 0 <= i < |before| ==>
                 after[i] == if before[i].id in Ids(todo) then before[i].(sent := true) else before[i]
    decreases |todo|
  {
    if todo != [] {
      assert todo == [todo[0]] + todo[1..];
      assert Ids(todo) == {todo[0].id} + Ids(todo[1..]);
      assert tries[0].Confirmed();
      HealthyDelivery(Attempt(w, todo[0].id, tries[0]), todo[1..], tries[1..]);
    }
  }
}
