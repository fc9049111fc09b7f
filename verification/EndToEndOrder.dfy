/** What holds of every joint run of daemon and server (EndToEnd.dfy): no sent row is lost, and in which order rows land
    in the stream. */
module EndToEndOrder {
  import Ingest
  import C = Capture
  import CR = CaptureRuns
  import opened EndToEnd

  // ---------------------------------------------------------------- what holds of every joint run

  /** The handler's order (XADD, then ack): an ok ack is only ever sent for a message that is in the stream, once. */
  lemma {:induction false} AcksOnlyAfterAdd(r: Run, m: nat)
    requires r.Valid() && m in r.Last().server.okAcked
    ensures exists k: nat ::
              First(r.Last().server.store, k, m) && forall l: nat :: First(r.Last().server.store, l, m) ==> l == k
  {
    RunInv(r, |r.actions|);
    assert Landed(r.Last().server.store, m);
  }

  /** A row the daemon has marked sent, and so will never publish again, is persisted, audited, dead-lettered or still
      deliverable on the server under one of the message ids it was published with. */
  lemma {:induction false} SentRowsAreNeverLost(r: Run, i: nat)
    requires r.Valid() && i < |r.Last().daemon.world.table.rows| && r.Last().daemon.world.table.rows[i].sent
    ensures var (w, s) := (r.Last().daemon.world, r.Last().server);
            exists p :: 0 <= p < |w.log| && w.log[p].row == w.table.rows[i].id && Landed(s.store, w.log[p].msg)
                        && Ingest.StillHeld(s, w.log[p].msg)
  {
    RunInv(r, |r.actions|);
    var (w, s) := (r.Last().daemon.world, r.Last().server);
    assert CR.Proven(w, i);
    var p :| 0 <= p < |w.log| && w.log[p].row == w.table.rows[i].id && w.log[p].msg in w.confirmed;
    Ingest.AckedIsHeld(s, w.log[p].msg);
    assert Landed(s.store, w.log[p].msg);
  }

  /** Stream order on confirmed messages is publish order: a confirmed attempt lands before every later attempt, so
      among confirmed messages row ids never go down. */
  lemma {:induction false} ConfirmedLandInOrder(r: Run, p: nat, q: nat, k: nat, l: nat)
    requires r.Valid() && p < |r.Last().daemon.world.log| && q < |r.Last().daemon.world.log|
    requires var (w, st) := (r.Last().daemon.world, r.Last().server.store);
             First(st, k, w.log[p].msg) && First(st, l, w.log[q].msg) && w.log[p].msg in w.confirmed
    ensures p < q ==> k < l
    ensures var w := r.Last().daemon.world;
            w.log[q].msg in w.confirmed && k < l ==> p < q && w.log[p].row <= w.log[q].row
  {
    RunInv(r, |r.actions|);
    var w := r.Last().daemon.world;
    assert p == q ==> k == l;
  }

  /** The stream, restricted to the messages whose mark took effect, lists every sent row exactly once, in strictly
      increasing id order. */
  lemma {:induction false} SentRowsLandInOrder(r: Run)
    requires r.Valid()
    ensures var (d, st) := (r.Last().daemon, r.Last().server.store);
            var (rows, log) := (d.world.table.rows, d.world.log);
            && (forall i :: 0 <= i < |rows| && rows[i].sent ==>
                  exists p ::
                      0 <= p < |log| && log[p].row == rows[i].id && log[p].msg in d.marked && Landed(st, log[p].msg))
            && (forall p, q, k: nat, l: nat ::
                  Before(d.world, st, p, q, k, l) && log[p].msg in d.marked && log[q].msg in d.marked
                  ==> log[p].row < log[q].row)
  {
    RunInv(r, |r.actions|);
    var (d, st) := (r.Last().daemon, r.Last().server.store);
    var (rows, log) := (d.world.table.rows, d.world.log);
    forall i | 0 <= i < |rows| && rows[i].sent
      ensures exists p :: 0 <= p < |log| && log[p].row == rows[i].id && log[p].msg in d.marked && Landed(st, log[p].msg)
    {
      assert SentUnder(d, i);
      var p :| 0 <= p < |log| && log[p].row == rows[i].id && log[p].msg in d.marked;
      assert log[p].msg in r.Last().server.okAcked;
    }
    forall p, q, k: nat, l: nat | Before(d.world, st, p, q, k, l) && log[p].msg in d.marked && log[q].msg in d.marked
      ensures log[p].row < log[q].row
    {
      assert log[p].msg in d.world.confirmed && log[q].msg in d.world.confirmed;
      assert p != q;
    }
  }

  // ---------------------------------------------------------------- the whole stream

  /** The XADD of an attempt the daemon has given up on lands after a later row's. */
  ghost predicate LateAdd(s: State, a: Action) {
    && a.Remote? && Adds(a.remote) && a.remote.h in s.server.handlers && s.server.handlers[a.remote.h].Adding?
    && exists p :: 0 <= p < |s.daemon.world.log| && LateAt(s, s.server.handlers[a.remote.h].body.event, p)
  }

  ghost predicate LateAt(s: State, m: nat, p: nat)
    requires p < |s.daemon.world.log|
  {
    var w := s.daemon.world;
    && w.log[p].msg == m && m !in w.confirmed && !(s.daemon.phase.Waiting? && s.daemon.phase.msg == m)
    && LaterRowLanded(w, s.server.store, w.log[p].row)
  }

  ghost predicate LaterRowLanded(w: C.World, st: Ingest.Store, row: nat) {
    exists q :: 0 <= q < |w.log| && w.log[q].row > row && Landed(st, w.log[q].msg)
  }

  /** Whoever lands after a later row was given up on: it is not confirmed, and not the attempt in progress. */
  lemma {:induction false} LateIsAbandoned(s: State, p: nat)
    requires Inv(s) && p < |s.daemon.world.log| && !Landed(s.server.store, s.daemon.world.log[p].msg)
    requires LaterRowLanded(s.daemon.world, s.server.store, s.daemon.world.log[p].row)
    ensures LateAt(s, s.daemon.world.log[p].msg, p)
  {
    var w := s.daemon.world;
    var q :| 0 <= q < |w.log| && w.log[q].row > w.log[p].row && Landed(s.server.store, w.log[q].msg);
    assert p < q;
    assert w.log[p].msg != w.log[|w.log| - 1].msg;
  }

  lemma {:induction false} SameOrder(s: State, a: Action, t: State)
    requires Ingest.Delivered(s.server) && Once(s.server, s.arrived) && Step(s, a, t) && !(a.Remote? && Adds(a.remote))
    ensures InOrder(t.daemon.world, t.server.store) <==> InOrder(s.daemon.world, s.server.store)
  {
    var (w, w', st, st') := (s.daemon.world, t.daemon.world, s.server.store, t.server.store);
    forall m, k: nat ensures First(st', k, m) <==> First(st, k, m) {
      if a.Remote? { FirstFrame(s.server, a.remote, t.server, m); }
    }
    assert w.log <= w'.log;
    forall p, k: nat | 0 <= p < |w'.log| && First(st, k, w'.log[p].msg) ensures p < |w.log| && w'.log[p] == w.log[p] {
      assert w'.log[p].msg in s.arrived;
    }
    forall p, q, k: nat, l: nat ensures Before(w', st', p, q, k, l) <==> Before(w, st, p, q, k, l) {
      if Before(w, st, p, q, k, l) { assert w'.log[p] == w.log[p] && w'.log[q] == w.log[q]; }
    }
  }

  /** A new inversion is caused by the entry just added. */
  lemma {:induction false} NewDisorder(s: State, a: Action, t: State) returns (q: nat)
    requires Once(s.server, s.arrived) && Step(s, a, t) && a.Remote? && Adds(a.remote)
    requires InOrder(s.daemon.world, s.server.store) && !InOrder(t.daemon.world, t.server.store)
    ensures var (w, m) := (s.daemon.world, s.server.handlers[a.remote.h].body.event);
            && q < |w.log| && w.log[q].msg == m && !Landed(s.server.store, m)
            && LaterRowLanded(w, s.server.store, w.log[q].row)
  {
    var (w, st, st') := (s.daemon.world, s.server.store, t.server.store);
    var p, q', k: nat, l: nat :| Before(w, st', p, q', k, l) && w.log[p].row > w.log[q'].row;
    q := q';
    AddLands(s.server, a.remote, t.server, w.log[p].msg);
    AddLands(s.server, a.remote, t.server, w.log[q].msg);
    assert !Before(w, st, p, q, k, l);
    assert First(st, k, w.log[p].msg);
    assert PendingIn(s.server, a.remote.h) && Landed(st, w.log[p].msg);
  }

  lemma {:induction false} AddOrder(s: State, a: Action, t: State)
    requires Inv(s) && Step(s, a, t) && a.Remote? && Adds(a.remote)
    requires InOrder(s.daemon.world, s.server.store) && !InOrder(t.daemon.world, t.server.store)
    ensures LateAdd(s, a)
  {
    var q := NewDisorder(s, a, t);
    LateIsAbandoned(s, q);
  }

  lemma {:induction false} LateBreaks(s: State, a: Action, t: State)
    requires Step(s, a, t) && LateAdd(s, a)
    ensures !InOrder(t.daemon.world, t.server.store)
  {
    var (w, st, st') := (s.daemon.world, s.server.store, t.server.store);
    var m := s.server.handlers[a.remote.h].body.event;
    var p :| 0 <= p < |w.log| && LateAt(s, m, p);
    var q :| 0 <= q < |w.log| && w.log[q].row > w.log[p].row && Landed(st, w.log[q].msg);
    var k: nat :| First(st, k, w.log[q].msg);
    AddLands(s.server, a.remote, t.server, m);
    AddLands(s.server, a.remote, t.server, w.log[q].msg);
    assert Before(w, st', q, p, k, |st.stream|);
  }

  lemma {:induction false} DisorderStays(s: State, a: Action, t: State)
    requires Ingest.Delivered(s.server) && Once(s.server, s.arrived) && Step(s, a, t)
    requires !InOrder(s.daemon.world, s.server.store)
    ensures !InOrder(t.daemon.world, t.server.store)
  {
    if a.Remote? && Adds(a.remote) {
      var (w, st, st') := (s.daemon.world, s.server.store, t.server.store);
      var p, q, k: nat, l: nat :| Before(w, st, p, q, k, l) && w.log[p].row > w.log[q].row;
      AddLands(s.server, a.remote, t.server, w.log[p].msg);
      AddLands(s.server, a.remote, t.server, w.log[q].msg);
      assert Before(w, st', p, q, k, l);
    } else {
      SameOrder(s, a, t);
    }
  }

  lemma {:induction false} OrderStep(s: State, a: Action, t: State)
    requires Inv(s) && Step(s, a, t)
    ensures InOrder(t.daemon.world, t.server.store) <==> InOrder(s.daemon.world, s.server.store) && !LateAdd(s, a)
  {
    if LateAdd(s, a) {
      LateBreaks(s, a, t);
    } else if !InOrder(s.daemon.world, s.server.store) {
      DisorderStays(s, a, t);
    } else if a.Remote? && Adds(a.remote) {
      if !InOrder(t.daemon.world, t.server.store) { AddOrder(s, a, t); }
    } else {
      SameOrder(s, a, t);
    }
  }

  ghost predicate NoLateAdd(r: Run, n: nat)
    requires n <= |r.actions| < |r.states|
  {
    forall i :: 0 <= i < n ==> !LateAdd(r.states[i], r.actions[i])
  }

  ghost predicate Orderly(s: State) { InOrder(s.daemon.world, s.server.store) }

  lemma {:induction false} NextOrderly(r: Run, n: nat)
    requires r.Valid() && 0 < n < |r.states|
    ensures Orderly(r.states[n]) <==> Orderly(r.states[n - 1]) && !LateAdd(r.states[n - 1], r.actions[n - 1])
  {
    RunInv(r, n - 1);
    OrderStep(r.states[n - 1], r.actions[n - 1], r.states[n]);
  }

  /** The server adds this daemon's rows in non-decreasing order if and only if no XADD of an abandoned attempt lands
      after a later row's. */
  lemma {:induction false} StreamInOrderIff(r: Run, n: nat)
    requires r.Valid() && n < |r.states|
    ensures Orderly(r.states[n]) <==> NoLateAdd(r, n)
  {
    if n == 0 {
      InitOrderly();
    } else {
      StreamInOrderIff(r, n - 1);
      NextOrderly(r, n);
    }
  }

  lemma {:induction false} InitOrderly()
    ensures Orderly(INIT)
  {
  }
}
