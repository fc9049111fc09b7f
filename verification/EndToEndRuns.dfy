/** Concrete joint runs of daemon and server that show what does not hold, and the daemon's code as daemon steps. */
module EndToEndRuns {
  import opened Common
  import Ingest
  import C = Capture
  import CR = CaptureRuns
  import opened EndToEnd
  import opened EndToEndOrder

  // ---------------------------------------------------------------- runs that show what fails

  lemma {:induction false} Onward(r: Run, a: Action, t: State) returns (r': Run)
    requires r.Valid() && Step(r.Last(), a, t)
    ensures r'.Valid() && r'.Last() == t
  {
    r' := Run(r.states + [t], r.actions + [a]);
  }

  function Queued(s: Ingest.State, m: nat): Ingest.State {
    s.(store := s.store.(stream := s.store.stream + [Ingest.Entry(Ingest.Body(m, true), 0)]))
  }

  /** A handler receives message m and is about to add it. */
  lemma {:induction false} Receive(r: Run, h: nat, m: nat) returns (r': Run)
    requires r.Valid() && h !in r.Last().server.handlers && m !in r.Last().arrived && r.Last().server.group == Some(0)
    ensures r'.Valid()
    ensures var s := r.Last();
            r'.Last() == s.(arrived := s.arrived + {m},
                            server := s.server.(handlers :=
                              s.server.handlers[h := Ingest.Adding(Ingest.Body(m, true))]))
  {
    var s := r.Last();
    var b := Ingest.Body(m, true);
    var t := s.(arrived := s.arrived + {m},
        server := s.server.(handlers := s.server.handlers[h := Ingest.Ensuring(b)]));
    r' := Onward(r, Remote(Ingest.Arrive(h, b)), t);
    var u := t.(server := t.server.(handlers := s.server.handlers[h := Ingest.Adding(b)]));
    assert t.server.handlers[h := Ingest.Adding(b)] == s.server.handlers[h := Ingest.Adding(b)];
    r' := Onward(r', Remote(Ingest.EnsureGroup(h, Ok)), u);
  }

  /** It adds the message and acks it. */
  lemma {:induction false} AddAndAck(r: Run, h: nat, m: nat) returns (r': Run)
    requires r.Valid() && h in r.Last().server.handlers
    requires r.Last().server.handlers[h] == Ingest.Adding(Ingest.Body(m, true))
    ensures r'.Valid()
    ensures var s := r.Last();
            r'.Last() == s.(server := Queued(s.server, m).(
              handlers := s.server.handlers - {h}, okAcked := s.server.okAcked + {m}))
  {
    var s := r.Last();
    var done := Ingest.Replying(Ingest.Body(m, true), true);
    var t := s.(server := Queued(s.server, m).(handlers := s.server.handlers[h := done]));
    r' := Onward(r, Remote(Ingest.Add(h, Ok)), t);
    var u := t.(server := t.server.(handlers := s.server.handlers - {h}, okAcked := s.server.okAcked + {m}));
    assert t.server.handlers - {h} == s.server.handlers - {h};
    r' := Onward(r', Remote(Ingest.Reply(h)), u);
  }

  const E1 := C.Event(1, "a", 1, "")
  const E2 := C.Event(2, "a", 1, "")

  function Rows(first: bool, second: bool): C.Table {
    C.Table([C.Row(1, E1, first), C.Row(2, E2, second)], 3)
  }

  /** Two captured rows, nothing published, the group made. */
  lemma {:induction false} TwoRows() returns (r: Run)
    ensures r.Valid()
    ensures r.Last() == State(Daemon(C.World(Rows(false, false), [], {}), Idle, {}), Ingest.INIT.(group := Some(0)), {})
  {
    var t0 := C.Table([], 1);
    var t1 := C.Table([C.Row(1, E1, false)], 2);
    assert C.Appended(t0, E1) == t1;
    assert C.Appended(t1, E2) == Rows(false, false);
    r := Run([INIT], []);
    var d := INIT.daemon;
    r := Onward(r, Local(Append(E1)), INIT.(daemon := d.(world := C.World(t1, [], {}))));
    r := Onward(r, Local(Append(E2)), INIT.(daemon := d.(world := C.World(Rows(false, false), [], {}))));
    r := Onward(r, Remote(Ingest.WorkerEnsuresGroup),
                State(d.(world := C.World(Rows(false, false), [], {})), Ingest.INIT.(group := Some(0)), {}));
  }

  lemma {:induction false} RowsUnsent()
    ensures C.Take(C.Unsent(Rows(false, false).rows), 2) == Rows(false, false).rows
    ensures C.Marked(Rows(false, false).rows, 1) == Rows(true, false).rows
  {
    var rows := Rows(false, false).rows;
    assert rows[1..] == [rows[1]] && rows[1..][1..] == [];
    assert C.Unsent([rows[1]]) == [rows[1]] by { assert [rows[1]][1..] == []; }
  }

  /** List the two rows and publish the first under m, once more. */
  lemma {:induction false} PublishFront(r: Run, w: C.World, m: nat) returns (r': Run)
    requires r.Valid() && r.Last().daemon == Daemon(w, Idle, {}) && w.table == Rows(false, false)
    requires !CR.Minted(w.log, m) && m !in r.Last().arrived
    ensures r'.Valid()
    ensures r'.Last() ==
            r.Last().(daemon := Daemon(w.(log := w.log + [C.Published(1, m)]), Waiting(Rows(false, false).rows, m), {}))
  {
    RowsUnsent();
    var s := r.Last();
    r' := Onward(r, Local(List(2)), s.(daemon := s.daemon.(phase := Busy(Rows(false, false).rows))));
    r' := Onward(r', Local(Publish(m)),
                 s.(daemon := Daemon(w.(log := w.log + [C.Published(1, m)]), Waiting(Rows(false, false).rows, m), {})));
  }

  /** The attempt in progress is added, acked, confirmed and marked with outcome o. */
  lemma {:induction false} ConfirmFront(r: Run, w: C.World, h: nat, m: nat, o: Outcome) returns (r': Run)
    requires r.Valid() && r.Last().daemon == Daemon(w, Waiting(Rows(false, false).rows, m), {})
    requires w.table == Rows(false, false)
    requires h in r.Last().server.handlers && r.Last().server.handlers[h] == Ingest.Adding(Ingest.Body(m, true))
    ensures r'.Valid()
    ensures var (s, t) := (r.Last(), r'.Last());
            && t.arrived == s.arrived
            && t.server == Queued(s.server, m).(handlers := s.server.handlers - {h}, okAcked := s.server.okAcked + {m})
            && t.daemon == Daemon(C.World(Rows(o.TookEffect(), false), w.log, w.confirmed + {m}),
                                  if o.Ok? then Busy(Rows(false, false).rows[1..]) else Idle,
                                  if o.TookEffect() then {m} else {})
  {
    RowsUnsent();
    r' := AddAndAck(r, h, m);
    var s := r'.Last();
    var sure := w.(confirmed := w.confirmed + {m});
    r' := Onward(r', Local(Confirm), s.(daemon := Daemon(sure, Marking(Rows(false, false).rows, m), {})));
    r' := Onward(r', Local(Mark(o)),
                 s.(daemon := Daemon(sure.(table := Rows(o.TookEffect(), false)),
                                     if o.Ok? then Busy(Rows(false, false).rows[1..]) else Idle,
                                     if o.TookEffect() then {m} else {})));
  }

  /** The first attempt at row 1 reaches the server, which is slow; the daemon gives up on it and publishes
      row 1 again. */
  lemma {:induction false} SlowStart() returns (r: Run)
    ensures r.Valid()
    ensures var s := r.Last();
            && s.daemon == Daemon(C.World(Rows(false, false), [C.Published(1, 0), C.Published(1, 1)], {}),
                                  Waiting(Rows(false, false).rows, 1), {})
            && s.server == Ingest.INIT.(group := Some(0), handlers := map[0 := Ingest.Adding(Ingest.Body(0, true))])
            && s.arrived == {0}
  {
    r := TwoRows();
    r := PublishFront(r, C.World(Rows(false, false), [], {}), 0);
    r := Receive(r, 0, 0);
    var w := C.World(Rows(false, false), [C.Published(1, 0)], {});
    r := Onward(r, Local(Stop), r.Last().(daemon := Daemon(w, Idle, {})));
    r := PublishFront(r, w, 1);
  }

  /** ... with success, and goes on to row 2. */
  lemma {:induction false} SlowMiddle() returns (r: Run)
    ensures r.Valid()
    ensures var s := r.Last();
            && s.daemon.world ==
                C.World(Rows(true, false), [C.Published(1, 0), C.Published(1, 1), C.Published(2, 2)], {1})
            && s.server.handlers ==
                map[0 := Ingest.Adding(Ingest.Body(0, true)), 2 := Ingest.Adding(Ingest.Body(2, true))]
            && s.server.store.stream == [Ingest.Entry(Ingest.Body(1, true), 0)]
  {
    r := SlowStart();
    r := Receive(r, 1, 1);
    r := ConfirmFront(r, r.Last().daemon.world, 1, 1, Ok);
    var s := r.Last();
    var todo := Rows(false, false).rows[1..];
    r := Onward(r, Local(Publish(2)),
                s.(daemon := Daemon(s.daemon.world.(log := s.daemon.world.log + [C.Published(2, 2)]),
                                    Waiting(todo, 2), s.daemon.marked)));
    r := Receive(r, 2, 2);
  }

  /** A late XADD: the stream receives rows 1, 2, 1. */
  lemma {:induction false} LateAddReorders() returns (r: Run)
    ensures r.Valid()
    ensures var (w, st) := (r.Last().daemon.world, r.Last().server.store);
            && w.log == [C.Published(1, 0), C.Published(1, 1), C.Published(2, 2)]
            && First(st, 0, 1) && First(st, 1, 2) && First(st, 2, 0)
    ensures !Orderly(r.Last())
  {
    r := SlowMiddle();
    r := AddAndAck(r, 2, 2);
    r := AddAndAck(r, 0, 0);
    assert Before(r.Last().daemon.world, r.Last().server.store, 2, 0, 1, 2);
  }

  /** A failed mark: row 1 is confirmed twice, so on confirmed messages row ids do not strictly increase. */
  lemma {:induction false} ConfirmedTwice() returns (r: Run)
    ensures r.Valid()
    ensures var (w, st) := (r.Last().daemon.world, r.Last().server.store);
            && w.log == [C.Published(1, 0), C.Published(1, 1)] && w.confirmed == {0, 1}
            && First(st, 0, 0) && First(st, 1, 1)
  {
    r := TwoRows();
    r := PublishFront(r, C.World(Rows(false, false), [], {}), 0);
    r := Receive(r, 0, 0);
    r := ConfirmFront(r, r.Last().daemon.world, 0, 0, Failed);
    r := PublishFront(r, C.World(Rows(false, false), [C.Published(1, 0)], {0}), 1);
    r := Receive(r, 1, 1);
    r := ConfirmFront(r, r.Last().daemon.world, 1, 1, Ok);
  }

  // ---------------------------------------------------------------- the daemon's code takes these steps

  datatype DaemonRun = DaemonRun(states: seq<Daemon>, actions: seq<DaemonAction>) {
    ghost predicate Valid() {
      && |states| == |actions| + 1
      && forall i :: 0 <= i < |actions| ==> DaemonStep(states[i], actions[i], states[i + 1])
    }

    function Last(): Daemon
      requires states != []
    {
      states[|states| - 1]
    }
  }

  lemma {:induction false} Then(r: DaemonRun, a: DaemonAction, t: Daemon) returns (r': DaemonRun)
    requires r.Valid() && DaemonStep(r.Last(), a, t)
    ensures r'.Valid() && r'.Last() == t && r'.states[0] == r.states[0]
  {
    r' := DaemonRun(r.states + [t], r.actions + [a]);
  }

  /** One attempt of the publish loop: publish, then confirm and mark, or give up. */
  lemma {:induction false} AttemptIsSteps(r: DaemonRun, todo: seq<C.Row>, t: C.Try) returns (r': DaemonRun)
    requires r.Valid() && todo != [] && r.Last().phase == Busy(todo) && !CR.Minted(r.Last().world.log, t.msg)
    ensures r'.Valid() && r'.states[0] == r.states[0] && r'.Last().world == C.Attempt(r.Last().world, todo[0].id, t)
    ensures r'.Last().phase == if t.Confirmed() && t.mark.Ok? then Busy(todo[1..]) else Idle
  {
    var d := r.Last();
    var d1 := d.(phase := Waiting(todo, t.msg),
        world := d.world.(log := d.world.log + [C.Published(todo[0].id, t.msg)]));
    r' := Then(r, Publish(t.msg), d1);
    if t.Confirmed() {
      var d2 := d1.(phase := Marking(todo, t.msg), world := d1.world.(confirmed := d1.world.confirmed + {t.msg}));
      r' := Then(r', Confirm, d2);
      r' := Then(r', Mark(t.mark),
          Daemon(C.Attempt(d.world, todo[0].id, t), if t.mark.Ok? then Busy(todo[1..]) else Idle,
                                          if t.mark.TookEffect() then d.marked + {t.msg} else d.marked));
    } else {
      r' := Then(r', Stop, d1.(phase := Idle));
    }
  }

  lemma {:induction false} DeliveredIsSteps(r: DaemonRun, todo: seq<C.Row>, tries: seq<C.Try>) returns (r': DaemonRun)
    requires r.Valid() && r.Last().phase == Busy(todo) && CR.FreshTries(r.Last().world.log, tries)
    ensures r'.Valid() && r'.states[0] == r.states[0]
    ensures r'.Last().phase == Idle && r'.Last().world == C.Delivered(r.Last().world, todo, tries)
    decreases |todo|
  {
    if todo == [] || tries == [] {
      r' := Then(r, Stop, r.Last().(phase := Idle));
    } else {
      CR.FreshRest(r.Last().world.log, todo[0].id, tries);
      r' := AttemptIsSteps(r, todo, tries[0]);
      if tries[0].Confirmed() && tries[0].mark.Ok? {
        r' := DeliveredIsSteps(r', todo[1..], tries[1..]);
      }
    }
  }

  lemma {:induction false} AppendsAreSteps(r: DaemonRun, es: seq<C.Event>) returns (r': DaemonRun)
    requires r.Valid() && r.Last().phase == Idle
    ensures r'.Valid() && r'.states[0] == r.states[0] && r'.Last().phase == Idle
    ensures r'.Last().world == r.Last().world.(table := C.AppendedAll(r.Last().world.table, es))
    decreases |es|
  {
    r' := r;
    if es != [] {
      r' := AppendsAreSteps(r, es[..|es| - 1]);
      var d := r'.Last();
      r' := Then(r', Append(es[|es| - 1]), d.(world := d.world.(table := C.Appended(d.world.table, es[|es| - 1]))));
    }
  }

  /** A whole pass of the daemon's code is a sequence of daemon steps from idle to idle. */
  lemma {:induction false} PassIsSteps(d: Daemon, p: C.Pass) returns (r: DaemonRun)
    requires d.phase == Idle && p.durable <= |p.events| && CR.FreshTries(d.world.log, p.tries)
    ensures r.Valid() && r.states[0] == d && r.Last().phase == Idle && r.Last().world == C.AfterPass(d.world, p)
  {
    r := AppendsAreSteps(DaemonRun([d], []), p.events[..p.durable]);
    if p.appendOk {
      var w := r.Last().world;
      var todo := C.Take(C.Unsent(w.table.rows), p.limit);
      r := Then(r, List(p.limit), r.Last().(phase := Busy(todo)));
      r := DeliveredIsSteps(r, todo, p.tries);
    }
  }
}
