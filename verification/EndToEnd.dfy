/** The daemon's WAL and the server's ingest in one machine: daemon steps (append, list, publish, read the ack, mark)
    and the steps of Ingest.dfy interleave freely. The message id a publish mints is the event id the server queues
    (internal/ingest/handler.go). A publish that times out does not stop the server, which works on a background context
    (internal/ws/gateway.go), so its XADD can land at any later time. */
module EndToEnd {
  import opened Common
  import Ingest
  import C = Capture
  import CR = CaptureRuns

  // ---------------------------------------------------------------- the daemon, step by step

  datatype Phase =
    | Idle
    | Busy(todo: seq<C.Row>)
    | Waiting(todo: seq<C.Row>, msg: nat)
    | Marking(todo: seq<C.Row>, msg: nat)

  /** `marked` are the messages whose mark took effect. */
  datatype Daemon = Daemon(world: C.World, phase: Phase, marked: set<nat>)

  /** Stop is a timeout, an error ack, a lost connection, a crash or the end of a pass. */
  datatype DaemonAction =
    | Append(event: C.Event) | List(limit: nat) | Publish(msg: nat) | Confirm | Mark(outcome: Outcome) | Stop

  ghost predicate DaemonStep(d: Daemon, a: DaemonAction, t: Daemon) {
    match a
    case Append(e) =>
      && d.phase.Idle? && t.phase == Idle && t.marked == d.marked
      && t.world == d.world.(table := C.Appended(d.world.table, e))
    case List(n) =>
      d.phase.Idle? && t == d.(phase := Busy(C.Take(C.Unsent(d.world.table.rows), n)))
    case Publish(m) =>
      && d.phase.Busy? && d.phase.todo != [] && !CR.Minted(d.world.log, m)
      && t.phase == Waiting(d.phase.todo, m) && t.marked == d.marked
      && t.world == d.world.(log := d.world.log + [C.Published(d.phase.todo[0].id, m)])
    case Confirm =>
      && d.phase.Waiting? && t.phase == Marking(d.phase.todo, d.phase.msg) && t.marked == d.marked
      && t.world == d.world.(confirmed := d.world.confirmed + {d.phase.msg})
    case Mark(o) =>
      && d.phase.Marking? && d.phase.todo != []
      && t.phase == (if o.Ok? then Busy(d.phase.todo[1..]) else Idle)
      && t.marked == (if o.TookEffect() then d.marked + {d.phase.msg} else d.marked)
      && t.world == if o.TookEffect()
                    then d.world.(table := d.world.table.(rows := C.Marked(d.world.table.rows, d.phase.todo[0].id)))
                    else d.world
    case Stop => t == d.(phase := Idle)
  }

  // ---------------------------------------------------------------- daemon and server

  /** `arrived` are the messages the server has received; each frame is received at most once. */
  datatype State = State(daemon: Daemon, server: Ingest.State, arrived: set<nat>)

  datatype Action = Local(local: DaemonAction) | Remote(remote: Ingest.Action)

  const INIT := State(Daemon(CR.START, Idle, {}), Ingest.INIT, {})

  ghost predicate Step(s: State, a: Action, t: State) {
    match a
    case Local(d) =>
      && DaemonStep(s.daemon, d, t.daemon) && t.server == s.server && t.arrived == s.arrived
      && (d.Publish? ==> d.msg !in s.arrived)
      && (d.Confirm? ==> s.daemon.phase.Waiting? && s.daemon.phase.msg in s.server.okAcked)
    case Remote(i) =>
      && Ingest.Step(s.server, i, t.server) && t.daemon == s.daemon
      && (i.Arrive? ==> i.body.event !in s.arrived)
      && t.arrived == if i.Arrive? then s.arrived + {i.body.event} else s.arrived
  }

  datatype Run = Run(states: seq<State>, actions: seq<Action>) {
    ghost predicate Valid() {
      && |states| == |actions| + 1 && states[0] == INIT
      && forall i :: 0 <= i < |actions| ==> Step(states[i], actions[i], states[i + 1])
    }

    function Last(): State
      requires states != []
    {
      states[|states| - 1]
    }
  }

  // ---------------------------------------------------------------- the daemon's side

  ghost predicate AtFront(d: Daemon, todo: seq<C.Row>) {
    todo <= d.world.table.rows[CR.FirstUnsent(d.world.table.rows)..]
  }

  /** The attempt in progress is the last one made, and it is at the front row. */
  ghost predicate InProgress(d: Daemon, todo: seq<C.Row>, msg: nat) {
    && todo != [] && AtFront(d, todo) && d.world.log != []
    && d.world.log[|d.world.log| - 1] == C.Published(todo[0].id, msg)
  }

  ghost predicate PhaseOk(d: Daemon) {
    match d.phase
    case Idle => true
    case Busy(todo) => AtFront(d, todo)
    case Waiting(todo, m) => InProgress(d, todo, m)
    case Marking(todo, m) => InProgress(d, todo, m) && m in d.world.confirmed
  }

  ghost predicate SentUnder(d: Daemon, i: nat)
    requires i < |d.world.table.rows|
  {
    exists p ::
        0 <= p < |d.world.log| && d.world.log[p].row == d.world.table.rows[i].id && d.world.log[p].msg in d.marked
  }

  /** A marked message's row is behind every unsent row. */
  ghost predicate Behind(rows: seq<C.Row>, log: seq<C.Published>, marked: set<nat>) {
    forall p, i :: 0 <= p < |log| && log[p].msg in marked && CR.FirstUnsent(rows) <= i < |rows| ==>
        log[p].row < rows[i].id
  }

  /** Marked messages go up in row id. */
  ghost predicate Ascending(log: seq<C.Published>, marked: set<nat>) {
    forall p, q :: 0 <= p < q < |log| && log[p].msg in marked && log[q].msg in marked ==> log[p].row < log[q].row
  }

  ghost predicate MarkedOk(d: Daemon) {
    && d.marked <= d.world.confirmed
    && Behind(d.world.table.rows, d.world.log, d.marked) && Ascending(d.world.log, d.marked)
    && (forall i :: 0 <= i < CR.FirstUnsent(d.world.table.rows) ==> SentUnder(d, i))
  }

  ghost predicate DaemonOk(d: Daemon, acked: set<nat>) {
    && CR.Inv(d.world, acked) && PhaseOk(d) && MarkedOk(d)
    && forall m :: m in d.world.confirmed ==> CR.Minted(d.world.log, m)
  }

  lemma {:induction false} AppendOk(d: Daemon, e: C.Event, t: Daemon, acked: set<nat>)
    requires DaemonOk(d, acked) && DaemonStep(d, Append(e), t)
    ensures DaemonOk(t, acked)
  {
    CR.AppendedInv(d.world, e, acked);
    var n := CR.FirstUnsent(d.world.table.rows);
    CR.FirstUnsentIs(t.world.table.rows, n);
    forall i | 0 <= i < n ensures SentUnder(t, i) { assert SentUnder(d, i); }
  }

  lemma {:induction false} ListOk(d: Daemon, n: nat, t: Daemon, acked: set<nat>)
    requires DaemonOk(d, acked) && DaemonStep(d, List(n), t)
    ensures DaemonOk(t, acked)
  {
    CR.UnsentIsSuffix(d.world.table.rows);
    forall i | 0 <= i < CR.FirstUnsent(d.world.table.rows) ensures SentUnder(t, i) { assert SentUnder(d, i); }
  }

  /** A longer log keeps what it proves about sent rows. */
  lemma {:induction false} SentUnderGrows(d: Daemon, t: Daemon, i: nat)
    requires i < |d.world.table.rows| <= |t.world.table.rows| && t.world.table.rows[i].id == d.world.table.rows[i].id
    requires d.world.log <= t.world.log && d.marked <= t.marked && SentUnder(d, i)
    ensures SentUnder(t, i)
  {
    var p :| 0 <= p < |d.world.log| && d.world.log[p].row == d.world.table.rows[i].id && d.world.log[p].msg in d.marked;
    assert t.world.log[p] == d.world.log[p];
  }

  lemma {:induction false} PublishMarked(d: Daemon, m: nat, t: Daemon)
    requires MarkedOk(d) && DaemonStep(d, Publish(m), t) && m !in d.world.confirmed
    ensures MarkedOk(t)
  {
    assert m !in d.marked;
    forall i | 0 <= i < CR.FirstUnsent(d.world.table.rows) ensures SentUnder(t, i) { SentUnderGrows(d, t, i); }
  }

  lemma {:induction false} PublishOk(d: Daemon, m: nat, t: Daemon, acked: set<nat>)
    requires DaemonOk(d, acked) && DaemonStep(d, Publish(m), t)
    ensures DaemonOk(t, acked)
  {
    var n := CR.FirstUnsent(d.world.table.rows);
    assert d.phase.todo[0] == d.world.table.rows[n];
    CR.PublishInv(d.world, n, m, acked);
    forall m' | m' in t.world.confirmed ensures CR.Minted(t.world.log, m') {
      MintedGrows(d.world.log, t.world.log, m');
    }
    PublishMarked(d, m, t);
  }

  lemma {:induction false} MintedGrows(log: seq<C.Published>, longer: seq<C.Published>, m: nat)
    requires log <= longer && CR.Minted(log, m)
    ensures CR.Minted(longer, m)
  {
    var k :| 0 <= k < |log| && log[k].msg == m;
    assert longer[k] == log[k];
  }

  lemma {:induction false} ConfirmOk(d: Daemon, t: Daemon, acked: set<nat>)
    requires DaemonOk(d, acked) && DaemonStep(d, Confirm, t) && d.phase.msg in acked
    ensures DaemonOk(t, acked)
  {
    CR.ConfirmInv(d.world, d.phase.msg, acked);
    assert d.world.log[|d.world.log| - 1].msg == d.phase.msg;
    forall i | 0 <= i < CR.FirstUnsent(d.world.table.rows) ensures SentUnder(t, i) { assert SentUnder(d, i); }
  }

  /** Marking the front row under the last message of the log. */
  lemma {:induction false} MarkAscends(rows: seq<C.Row>, log: seq<C.Published>, marked: set<nat>, n: nat, msg: nat)
    requires n == CR.FirstUnsent(rows) < |rows| && Behind(rows, log, marked) && Ascending(log, marked)
    requires log != [] && log[|log| - 1] == C.Published(rows[n].id, msg)
    requires forall k, l :: 0 <= k < l < |log| ==> log[k].msg != log[l].msg
    ensures Ascending(log, marked + {msg})
  {
    forall p | 0 <= p < |log| - 1 ensures log[p].msg != msg { assert log[p].msg != log[|log| - 1].msg; }
  }

  lemma {:induction false} MarkBehind(rows: seq<C.Row>, rows': seq<C.Row>, log: seq<C.Published>, marked: set<nat>,
      n: nat, msg: nat)
    requires n == CR.FirstUnsent(rows) < |rows| && Behind(rows, log, marked)
    requires log != [] && log[|log| - 1] == C.Published(rows[n].id, msg)
    requires forall k, l :: 0 <= k < l < |log| ==> log[k].msg != log[l].msg
    requires rows' == rows[n := rows[n].(sent := true)] && CR.FirstUnsent(rows') == n + 1
    requires forall i :: n < i < |rows| ==> rows[n].id < rows[i].id
    ensures Behind(rows', log, marked + {msg})
  {
    forall p | 0 <= p < |log| - 1 ensures log[p].msg != msg { assert log[p].msg != log[|log| - 1].msg; }
  }

  lemma {:induction false} MarkSent(d: Daemon, o: Outcome, t: Daemon, n: nat)
    requires MarkedOk(d) && PhaseOk(d) && DaemonStep(d, Mark(o), t) && o.TookEffect()
    requires n == CR.FirstUnsent(d.world.table.rows) < |d.world.table.rows| && d.phase.todo[0] == d.world.table.rows[n]
    requires t.world.table.rows == d.world.table.rows[n := d.world.table.rows[n].(sent := true)]
    ensures forall i :: 0 <= i < n + 1 ==> SentUnder(t, i)
  {
    var log := d.world.log;
    assert log[|log| - 1].msg in t.marked;
    forall i | 0 <= i < n + 1 ensures SentUnder(t, i) {
      if i < n { SentUnderGrows(d, t, i); }
    }
  }

  lemma {:induction false} MarkMarked(d: Daemon, o: Outcome, t: Daemon, n: nat)
    requires MarkedOk(d) && PhaseOk(d) && DaemonStep(d, Mark(o), t) && o.TookEffect()
    requires C.TableOk(d.world.table) && CR.LogOk(d.world.table, d.world.log)
    requires n == CR.FirstUnsent(d.world.table.rows) < |d.world.table.rows| && d.phase.todo[0] == d.world.table.rows[n]
    requires t.world.table.rows == d.world.table.rows[n := d.world.table.rows[n].(sent := true)]
    requires CR.FirstUnsent(t.world.table.rows) == n + 1
    ensures MarkedOk(t)
  {
    var (rows, log) := (d.world.table.rows, d.world.log);
    MarkAscends(rows, log, d.marked, n, d.phase.msg);
    MarkBehind(rows, t.world.table.rows, log, d.marked, n, d.phase.msg);
    MarkSent(d, o, t, n);
  }

  lemma {:induction false} MarkWorld(d: Daemon, o: Outcome, t: Daemon, n: nat, acked: set<nat>)
    requires CR.Inv(d.world, acked) && PhaseOk(d) && DaemonStep(d, Mark(o), t) && o.TookEffect()
    requires n == CR.FirstUnsent(d.world.table.rows)
    ensures n < |d.world.table.rows| && d.phase.todo[0] == d.world.table.rows[n]
    ensures t.world.table.rows == d.world.table.rows[n := d.world.table.rows[n].(sent := true)]
    ensures CR.FirstUnsent(t.world.table.rows) == n + 1 && CR.Inv(t.world, acked) && PhaseOk(t)
  {
    var rows := d.world.table.rows;
    assert d.phase.todo[0] == rows[n];
    assert CR.Proven(d.world, n) by { assert d.world.log[|d.world.log| - 1].row == rows[n].id; }
    CR.MarkInv(d.world, n, acked);
    CR.MarkedAt(rows, n);
    assert d.phase.todo[1..] <= rows[n + 1..];
  }

  lemma {:induction false} MarkOk(d: Daemon, o: Outcome, t: Daemon, acked: set<nat>)
    requires DaemonOk(d, acked) && DaemonStep(d, Mark(o), t)
    ensures DaemonOk(t, acked)
  {
    var n := CR.FirstUnsent(d.world.table.rows);
    if o.TookEffect() {
      MarkWorld(d, o, t, n, acked);
      MarkMarked(d, o, t, n);
    } else {
      forall i | 0 <= i < n ensures SentUnder(t, i) { SentUnderGrows(d, t, i); }
    }
  }

  lemma {:induction false} StopOk(d: Daemon, t: Daemon, acked: set<nat>)
    requires DaemonOk(d, acked) && DaemonStep(d, Stop, t)
    ensures DaemonOk(t, acked)
  {
    forall i | 0 <= i < CR.FirstUnsent(d.world.table.rows) ensures SentUnder(t, i) { assert SentUnder(d, i); }
  }

  lemma {:induction false} AckedGrows(d: Daemon, acked: set<nat>, more: set<nat>)
    requires DaemonOk(d, acked) && acked <= more
    ensures DaemonOk(d, more)
  {
  }

  lemma {:induction false} DaemonKept(d: Daemon, a: DaemonAction, t: Daemon, acked: set<nat>)
    requires DaemonOk(d, acked) && DaemonStep(d, a, t) && (a.Confirm? ==> d.phase.msg in acked)
    ensures DaemonOk(t, acked)
  {
    match a {
      case Append(e) => AppendOk(d, e, t, acked);
      case List(n) => ListOk(d, n, t, acked);
      case Publish(m) => PublishOk(d, m, t, acked);
      case Confirm => ConfirmOk(d, t, acked);
      case Mark(o) => MarkOk(d, o, t, acked);
      case Stop => StopOk(d, t, acked);
    }
  }

  // ---------------------------------------------------------------- the server's side: each message lands once

  /** Entry k is the XADD of message m (a re-add by a worker carries a retry count). */
  predicate First(st: Ingest.Store, k: nat, m: nat) {
    k < |st.stream| && st.stream[k].retries == 0 && st.stream[k].body.event == m
  }

  ghost predicate Landed(st: Ingest.Store, m: nat) {
    exists k: nat :: First(st, k, m)
  }

  predicate PendingIn(s: Ingest.State, h: nat) {
    h in s.handlers && !s.handlers[h].Replying?
  }

  ghost predicate Once(s: Ingest.State, arrived: set<nat>) {
    && (forall h :: h in s.handlers ==> s.handlers[h].body.event in arrived)
    && (forall k :: 0 <= k < |s.store.stream| ==> s.store.stream[k].body.event in arrived)
    && (forall h :: PendingIn(s, h) ==> !Landed(s.store, s.handlers[h].body.event))
    && (forall g, h :: PendingIn(s, g) && PendingIn(s, h) && s.handlers[g].body.event == s.handlers[h].body.event ==>
        g == h)
    && (forall k: nat, l: nat, m :: First(s.store, k, m) && First(s.store, l, m) ==> k == l)
    && (forall m :: m in s.okAcked ==> Landed(s.store, m))
    && (forall h :: h in s.handlers && s.handlers[h].Replying? && s.handlers[h].ok ==>
        Landed(s.store, s.handlers[h].body.event))
  }

  predicate Adds(a: Ingest.Action) { a.Add? && a.outcome.TookEffect() }

  /** Only an XADD by a handler makes a message land. */
  lemma {:induction false} FirstFrame(s: Ingest.State, a: Ingest.Action, t: Ingest.State, m: nat)
    requires Ingest.Delivered(s) && Ingest.Step(s, a, t) && !Adds(a)
    ensures forall k: nat :: First(t.store, k, m) <==> First(s.store, k, m)
    ensures Landed(t.store, m) <==> Landed(s.store, m)
  {
    if a.AddOnFail? { assert Ingest.TaskInRange(s, a.w); }
    assert s.store.stream <= t.store.stream;
    assert forall k :: |s.store.stream| <= k < |t.store.stream| ==> t.store.stream[k].retries > 0;
    forall k: nat ensures First(t.store, k, m) <==> First(s.store, k, m) {
      if k < |s.store.stream| { assert t.store.stream[k] == s.store.stream[k]; }
    }
    if Landed(t.store, m) {
      var k: nat :| First(t.store, k, m);
      assert First(s.store, k, m);
    }
    if Landed(s.store, m) {
      var k: nat :| First(s.store, k, m);
      assert First(t.store, k, m);
    }
  }

  lemma {:induction false} AddLands(s: Ingest.State, a: Ingest.Action, t: Ingest.State, m: nat)
    requires Ingest.HandlerStep(s, a, t) && Adds(a)
    ensures forall k: nat :: First(t.store, k, m) <==>
            First(s.store, k, m) || (k == |s.store.stream| && m == s.handlers[a.h].body.event)
    ensures Landed(t.store, m) <==> Landed(s.store, m) || m == s.handlers[a.h].body.event
  {
    var n := |s.store.stream|;
    if m == s.handlers[a.h].body.event { assert First(t.store, n, m); }
    if Landed(s.store, m) {
      var k: nat :| First(s.store, k, m);
      assert First(t.store, k, m);
    }
    if Landed(t.store, m) {
      var k: nat :| First(t.store, k, m);
      assert k < n ==> First(s.store, k, m);
    }
  }

  lemma {:induction false} AddOnce(s: Ingest.State, a: Ingest.Action, t: Ingest.State, arrived: set<nat>)
    requires Once(s, arrived) && Ingest.HandlerStep(s, a, t) && Adds(a)
    ensures Once(t, arrived)
  {
    var e := s.handlers[a.h].body.event;
    assert PendingIn(s, a.h);
    forall m ensures Landed(t.store, m) <==> Landed(s.store, m) || m == e { AddLands(s, a, t, m); }
    forall k: nat, l: nat, m | First(t.store, k, m) && First(t.store, l, m) ensures k == l { AddLands(s, a, t, m); }
    forall h | PendingIn(t, h) ensures PendingIn(s, h) && t.handlers[h] == s.handlers[h] && h != a.h {}
  }

  lemma {:induction false} OtherOnce(s: Ingest.State, a: Ingest.Action, t: Ingest.State, arrived: set<nat>)
    requires Once(s, arrived) && Ingest.Delivered(s) && Ingest.Step(s, a, t) && !Adds(a)
    requires a.Arrive? ==> a.body.event !in arrived
    ensures Once(t, if a.Arrive? then arrived + {a.body.event} else arrived)
  {
    forall m ensures Landed(t.store, m) <==> Landed(s.store, m) { FirstFrame(s, a, t, m); }
    forall k: nat, l: nat, m | First(t.store, k, m) && First(t.store, l, m) ensures k == l { FirstFrame(s, a, t, m); }
    forall k | 0 <= k < |t.store.stream| ensures t.store.stream[k].body.event in arrived {
      EntryArrived(s, a, t, k, arrived);
    }
    if a.Arrive? { assert !Landed(s.store, a.body.event); }
    forall h | PendingIn(t, h) ensures (a.Arrive? && h == a.h && t.handlers[h].body == a.body)
                                       || (PendingIn(s, h) && t.handlers[h].body == s.handlers[h].body) {}
  }

  lemma {:induction false} EntryArrived(s: Ingest.State, a: Ingest.Action, t: Ingest.State, k: nat, arrived: set<nat>)
    requires Once(s, arrived) && Ingest.Delivered(s) && Ingest.Step(s, a, t) && !Adds(a) && k < |t.store.stream|
    ensures t.store.stream[k].body.event in arrived
  {
    if k < |s.store.stream| {
      assert t.store.stream[k] == s.store.stream[k];
    } else {
      assert t.store.stream[k].body == s.store.stream[s.tasks[a.w].id].body;
    }
  }

  // ---------------------------------------------------------------- landing order

  /** A confirmed attempt has landed before any later one lands. */
  ghost predicate ConfirmedFirst(w: C.World, st: Ingest.Store) {
    forall p, q, k: nat, l: nat ::
      0 <= p < q < |w.log| && w.log[p].msg in w.confirmed ==>
        First(st, k, w.log[p].msg) && First(st, l, w.log[q].msg) ==> k < l
  }

  /** Attempts p and q landed as entries k and l, in that order. */
  predicate Before(w: C.World, st: Ingest.Store, p: int, q: int, k: nat, l: nat) {
    0 <= p < |w.log| && 0 <= q < |w.log| && First(st, k, w.log[p].msg) && First(st, l, w.log[q].msg) && k < l
  }

  /** Rows land in non-decreasing order. */
  ghost predicate InOrder(w: C.World, st: Ingest.Store) {
    forall p, q, k: nat, l: nat :: Before(w, st, p, q, k, l) ==> w.log[p].row <= w.log[q].row
  }

  ghost predicate Inv(s: State) {
    && Ingest.Inv(s.server) && Once(s.server, s.arrived) && DaemonOk(s.daemon, s.server.okAcked)
    && ConfirmedFirst(s.daemon.world, s.server.store)
  }

  lemma {:induction false} RemoteFirst(s: State, i: Ingest.Action, t: State)
    requires Inv(s) && Step(s, Remote(i), t)
    ensures ConfirmedFirst(t.daemon.world, t.server.store)
  {
    var w := s.daemon.world;
    forall p, q, k: nat, l: nat | 0 <= p < q < |w.log| && w.log[p].msg in w.confirmed
                                  && First(t.server.store, k, w.log[p].msg) && First(t.server.store, l, w.log[q].msg)
      ensures k < l
    {
      RemoteOrder(s, i, t, w.log[p].msg, w.log[q].msg, k, l);
    }
  }

  /** Of a confirmed message and another one: the confirmed one is there already, so only the other can land now. */
  lemma {:induction false} RemoteOrder(s: State, i: Ingest.Action, t: State, m: nat, m': nat, k: nat, l: nat)
    requires Ingest.Delivered(s.server) && Once(s.server, s.arrived) && Step(s, Remote(i), t) && m in s.server.okAcked
    requires First(t.server.store, k, m) && First(t.server.store, l, m')
    ensures First(s.server.store, k, m)
    ensures First(s.server.store, l, m') || k < l
  {
    if Adds(i) {
      AddLands(s.server, i, t.server, m);
      AddLands(s.server, i, t.server, m');
      assert PendingIn(s.server, i.h) && Landed(s.server.store, m);
    } else {
      FirstFrame(s.server, i, t.server, m);
      FirstFrame(s.server, i, t.server, m');
    }
  }

  lemma {:induction false} LocalFirst(s: State, a: DaemonAction, t: State)
    requires Inv(s) && Step(s, Local(a), t)
    ensures ConfirmedFirst(t.daemon.world, t.server.store)
  {
    var (w, w', st) := (s.daemon.world, t.daemon.world, s.server.store);
    forall p, q, k: nat, l: nat | 0 <= p < q < |w'.log| && w'.log[p].msg in w'.confirmed
                                  && First(st, k, w'.log[p].msg) && First(st, l, w'.log[q].msg)
      ensures k < l
    {
      if a.Publish? {
        assert w'.log[q].msg in s.arrived && q < |w.log|;
        assert w'.log[p] == w.log[p] && w'.log[q] == w.log[q];
      } else if a.Confirm? {
        var last := |w.log| - 1;
        assert w.log[last].msg == s.daemon.phase.msg && w.log[p].msg != w.log[last].msg;
      }
    }
  }

  lemma {:induction false} StepInv(s: State, a: Action, t: State)
    requires Inv(s) && Step(s, a, t)
    ensures Inv(t)
  {
    match a {
      case Local(d) =>
        DaemonKept(s.daemon, d, t.daemon, s.server.okAcked);
        LocalFirst(s, d, t);
      case Remote(i) =>
        Ingest.StepInv(s.server, i, t.server);
        if Adds(i) { AddOnce(s.server, i, t.server, s.arrived); } else { OtherOnce(s.server, i, t.server, s.arrived); }
        AckedGrows(s.daemon, s.server.okAcked, t.server.okAcked);
        RemoteFirst(s, i, t);
    }
  }

  lemma {:induction false} InitInv()
    ensures Inv(INIT)
  {
    assert forall k: nat, m :: !First(Ingest.EMPTY, k, m);
  }

  lemma {:induction false} RunInv(r: Run, n: nat)
    requires r.Valid() && n < |r.states|
    ensures Inv(r.states[n])
  {
    if n == 0 {
      InitInv();
    } else {
      RunInv(r, n - 1);
      StepInv(r.states[n - 1], r.actions[n - 1], r.states[n]);
    }
  }
}
