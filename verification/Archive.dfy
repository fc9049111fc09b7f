/** The archive sweep (internal/archive/cron.go): list eligible sessions, gather and encode each, upload to
    R2, then one write transaction that inserts the pointer and deletes the session, and with it every session
    below it. Every call can fail or lose its answer, the process can crash between any two calls, and writers to
    the sessions run beside it. */
module Archive {
  import opened Common
  import opened SessionTree

  // ---------------------------------------------------------------- state

  /** `<tenant>/<yyyy-mm>/<session>.tar.zst` */
  datatype Key = Key(tenant: nat, month: nat, id: nat)

  datatype Listed = Listed(id: nat, row: SessionRow) {
    function ObjectKey(): Key { Key(row.tenant, row.month, id) }
  }

  datatype Store = Store(sessions: Table, pointers: map<nat, Key>, r2: map<Key, Session>)

  datatype Sweep =
    | Idle
    | Next(todo: seq<Listed>)
    | Uploading(cur: Listed, bundle: Session, todo: seq<Listed>)
    | Writing(cur: Listed, bundle: Session, todo: seq<Listed>)

  /** `created` are all ids ever inserted. `gathered` and `deleted` remember, for each archived session, the
      bundle it was archived as and what it was when its own write transaction deleted it; `touched` are the
      sessions written to, or inserted again, since the running sweep read them; `violations` are the sessions
      whose write transaction found a pointer already there. */
  datatype State = State(
    store: Store, sweep: Sweep, created: set<nat>, touched: set<nat>,
    gathered: map<nat, Session>, deleted: map<nat, Session>, archivedTouched: set<nat>, violations: set<nat>)

  const INIT := State(Store(map[], map[], map[]), Idle, {}, {}, map[], map[], {}, {})

  /** What gathering finds for a session without rows. */
  const NO_CHILDREN: nat := 0

  // ---------------------------------------------------------------- steps

  datatype Action =
    | Create(id: nat, session: Session)   // ingest upserts the session of every event, also of an archived one
    | UpdateChildren(id: nat, children: nat)
    | List(todo: seq<Listed>)
    | Gather(ok: bool)
    | Put(outcome: Outcome)
    | GiveUp
    | WriteTx(outcome: Outcome)
    | Finish
    | Crash

  predicate ArchiveKept(s: State, t: State) {
    && t.gathered == s.gathered && t.deleted == s.deleted
    && t.archivedTouched == s.archivedTouched && t.violations == s.violations
  }

  /** The session whose bundle is in hand. */
  function Current(sw: Sweep): Option<Listed> {
    if sw.Uploading? || sw.Writing? then Some(sw.cur) else None
  }

  /** Every session the running sweep has listed and not finished. */
  function Held(sw: Sweep): seq<Listed> {
    match sw
    case Idle => []
    case Next(todo) => todo
    case Uploading(cur, _, todo) => [cur] + todo
    case Writing(cur, _, todo) => [cur] + todo
  }

  predicate Holds(sw: Sweep, id: nat) {
    exists i :: 0 <= i < |Held(sw)| && Held(sw)[i].id == id
  }

  predicate WriterStep(s: State, a: Action, t: State) {
    && ArchiveKept(s, t) && t.sweep == s.sweep
    && t.store.pointers == s.store.pointers && t.store.r2 == s.store.r2
    && match a
       case Create(id, x) =>
         && id !in s.store.sessions && t.created == s.created + {id}
         && (x.row.parent.Some? ==> x.row.parent.value in s.store.sessions || x.row.parent.value == id)
         && t.store.sessions == s.store.sessions[id := x]
         && t.touched == if Holds(s.sweep, id) then s.touched + {id} else s.touched
       case UpdateChildren(id, c) =>
         && id in s.store.sessions && t.created == s.created
         && t.store.sessions == s.store.sessions[id := s.store.sessions[id].(children := c)]
         && t.touched == if Current(s.sweep).Some? && s.sweep.cur.id == id then s.touched + {id} else s.touched
       case _ => false
  }

  /** What listEligible can return: distinct sessions, each with its row of this moment. */
  predicate Listable(s: State, todo: seq<Listed>) {
    && (forall i :: 0 <= i < |todo| ==>
          todo[i].id in s.store.sessions && s.store.sessions[todo[i].id].row == todo[i].row)
    && (forall i, j :: 0 <= i < j < |todo| ==> todo[i].id != todo[j].id)
  }

  /** The sweep's own steps except the write transaction. The bundle holds the row as it was listed and
      the children as they are gathered. */
  predicate SweepStep(s: State, a: Action, t: State) {
    && ArchiveKept(s, t) && t.created == s.created
    && (a.List? || t.touched == s.touched)
    && match a
       case List(todo) =>
         && s.sweep.Idle? && Listable(s, todo)
         && t.store == s.store && t.touched == {} && t.sweep == Next(todo)
       case Gather(ok) =>
         && s.sweep.Next? && s.sweep.todo != [] && t.store == s.store
         && var cur := s.sweep.todo[0];
            var children := if cur.id in s.store.sessions then s.store.sessions[cur.id].children else NO_CHILDREN;
            var rest := s.sweep.todo[1..];
            t.sweep == if ok then Uploading(cur, Session(cur.row, children), rest) else Next(rest)
       case Put(o) =>
         && s.sweep.Uploading?
         && t.store ==
             (if o.TookEffect() then s.store.(r2 := s.store.r2[s.sweep.cur.ObjectKey() := s.sweep.bundle]) else s.store)
         && t.sweep == if o.Ok? then Writing(s.sweep.cur, s.sweep.bundle, s.sweep.todo) else s.sweep
       case GiveUp => s.sweep.Uploading? && t.store == s.store && t.sweep == Next(s.sweep.todo)
       case Finish => s.sweep == Next([]) && t.store == s.store && t.sweep == Idle
       case Crash => t.store == s.store && t.sweep == Idle
       case _ => false
  }

  /** The write transaction commits: its session is there and has no pointer. A pointer that is already there violates
      its primary key, and Postgres refuses every further statement of that transaction; a missing session makes
      DeleteSession fail, and the inserted pointer is rolled back. */
  predicate Commits(s: State, a: Action) {
    && a.WriteTx? && a.outcome.TookEffect() && s.sweep.Writing?
    && s.sweep.cur.id in s.store.sessions && s.sweep.cur.id !in s.store.pointers
  }

  /** Pointer, mark and delete in one transaction; the deletion cascades. */
  predicate WriteTxStep(s: State, a: Action, t: State) {
    && a.WriteTx? && s.sweep.Writing?
    && t.created == s.created && t.touched == s.touched && t.sweep == Next(s.sweep.todo) && t.store.r2 == s.store.r2
    && var id := s.sweep.cur.id;
       if Commits(s, a) then
         && t.violations == s.violations
         && t.store.pointers == s.store.pointers[id := s.sweep.cur.ObjectKey()]
         && t.store.sessions == Without(s.store.sessions, id)
         && t.gathered == s.gathered[id := s.sweep.bundle]
         && t.deleted == s.deleted[id := s.store.sessions[id]]
         && t.archivedTouched == if id in s.touched then s.archivedTouched + {id} else s.archivedTouched
       else
         && t.store == s.store
         && ArchiveKept(if a.outcome.TookEffect() && id in s.store.pointers
                        then s.(violations := s.violations + {id}) else s, t)
  }

  predicate IsWrite(a: Action) { a.Create? || a.UpdateChildren? }

  predicate Step(s: State, a: Action, t: State) {
    if IsWrite(a) then WriterStep(s, a, t)
    else if a.WriteTx? then WriteTxStep(s, a, t)
    else SweepStep(s, a, t)
  }

  datatype Run = Run(states: seq<State>, actions: seq<Action>) {
    predicate Valid() {
      && |states| == |actions| + 1
      && forall i :: 0 <= i < |actions| ==> Step(states[i], actions[i], states[i + 1])
    }

    function Last(): State
      requires states != []
    {
      states[|states| - 1]
    }

    function Then(a: Action, t: State): Run {
      Run(states + [t], actions + [a])
    }
  }

  // ---------------------------------------------------------------- invariant

  /** The object under the pointer is the bundle gathered for it. */
  predicate Kept(s: State, id: nat) {
    id in s.store.pointers ==>
      id in s.gathered && s.store.pointers[id] in s.store.r2 && s.store.r2[s.store.pointers[id]] == s.gathered[id]
  }

  /** Every pointer leads to an object. */
  predicate Pointed(s: State, id: nat) {
    && s.store.pointers.Keys <= s.gathered.Keys && s.store.pointers.Keys <= s.deleted.Keys
    && (id in s.store.pointers ==>
          && s.store.pointers[id].id == id && s.store.pointers[id] in s.store.r2
          && (id !in s.archivedTouched ==> s.gathered[id] == s.deleted[id]))
  }

  ghost predicate AllPointed(s: State) {
    && s.store.sessions.Keys <= s.created && s.store.pointers.Keys <= s.created
    && s.violations <= s.store.pointers.Keys && s.archivedTouched <= s.store.pointers.Keys
    && (forall id :: Pointed(s, id))
  }

  /** What the sweep holds of a session that is there and was not touched is still current. */
  predicate Fresh(s: State) {
    && (forall i :: 0 <= i < |Held(s.sweep)| ==> UpToDate(s, Held(s.sweep)[i]))
    && (forall i, j :: 0 <= i < j < |Held(s.sweep)| ==> Held(s.sweep)[i].id != Held(s.sweep)[j].id)
    && (Current(s.sweep).Some? ==>
          var id := s.sweep.cur.id;
          && s.sweep.bundle.row == s.sweep.cur.row
          && (id in s.store.sessions && id !in s.touched ==> s.sweep.bundle == s.store.sessions[id]))
    && (s.sweep.Writing? ==>
          s.sweep.cur.ObjectKey() in s.store.r2 && s.store.r2[s.sweep.cur.ObjectKey()] == s.sweep.bundle)
  }

  predicate UpToDate(s: State, l: Listed) {
    l.id in s.store.sessions && l.id !in s.touched ==> s.store.sessions[l.id].row == l.row
  }

  lemma {:induction false} WriterInv(s: State, a: Action, t: State)
    requires AllPointed(s) && Fresh(s) && WriterStep(s, a, t)
    ensures AllPointed(t) && Fresh(t)
  {
    forall id ensures Pointed(t, id) { assert Pointed(s, id); }
    if Current(s.sweep).Some? { assert Held(s.sweep)[0] == s.sweep.cur; }
    forall i | 0 <= i < |Held(t.sweep)| ensures UpToDate(t, Held(t.sweep)[i]) {
      assert UpToDate(s, Held(s.sweep)[i]);
    }
  }

  lemma {:induction false} SweepInv(s: State, a: Action, t: State)
    requires AllPointed(s) && Fresh(s) && SweepStep(s, a, t)
    ensures AllPointed(t) && Fresh(t)
  {
    forall id ensures Pointed(t, id) { assert Pointed(s, id); }
    HeldShrinks(s, a, t);
  }

  /** The sweep drops what it holds from the front. */
  lemma {:induction false} HeldShrinks(s: State, a: Action, t: State)
    requires Fresh(s) && SweepStep(s, a, t)
    ensures Fresh(t)
  {
    if a.Gather? {
      assert s.sweep.todo == [s.sweep.todo[0]] + s.sweep.todo[1..];
      assert UpToDate(s, Held(s.sweep)[0]);
    }
    if !a.List? {
      HeldSuffix(s, a, t);
      var d := |Held(s.sweep)| - |Held(t.sweep)|;
      forall i | 0 <= i < |Held(t.sweep)|
        ensures Held(t.sweep)[i] == Held(s.sweep)[i + d] && UpToDate(t, Held(t.sweep)[i])
      {
        assert UpToDate(s, Held(s.sweep)[i + d]);
      }
    }
  }

  lemma {:induction false} HeldSuffix(s: State, a: Action, t: State)
    requires SweepStep(s, a, t) && !a.List?
    ensures |Held(t.sweep)| <= |Held(s.sweep)| && Held(t.sweep) == Held(s.sweep)[|Held(s.sweep)| - |Held(t.sweep)|..]
  {
    if a.Gather? {
      assert s.sweep.todo == [s.sweep.todo[0]] + s.sweep.todo[1..];
    }
  }

  lemma {:induction false} WriteTxInv(s: State, a: Action, t: State)
    requires AllPointed(s) && Fresh(s) && WriteTxStep(s, a, t)
    ensures AllPointed(t) && Fresh(t)
  {
    assert Held(s.sweep)[0] == s.sweep.cur;
    forall id ensures Pointed(t, id) { assert Pointed(s, id); }
    forall i | 0 <= i < |Held(t.sweep)|
      ensures Held(t.sweep)[i] == Held(s.sweep)[i + 1] && UpToDate(t, Held(t.sweep)[i])
    {
      assert UpToDate(s, Held(s.sweep)[i + 1]);
    }
  }

  lemma {:induction false} StepInv(s: State, a: Action, t: State)
    requires AllPointed(s) && Fresh(s) && Step(s, a, t)
    ensures AllPointed(t) && Fresh(t)
  {
    if IsWrite(a) { WriterInv(s, a, t); } else if a.WriteTx? { WriteTxInv(s, a, t); } else { SweepInv(s, a, t); }
  }

  lemma {:induction false} RunInv(r: Run, n: nat)
    requires r.Valid() && r.states[0] == INIT && n <= |r.actions|
    ensures AllPointed(r.states[n]) && Fresh(r.states[n])
  {
    if n > 0 {
      RunInv(r, n - 1);
      StepInv(r.states[n - 1], r.actions[n - 1], r.states[n]);
    }
  }

  // ---------------------------------------------------------------- crash safety

  /** A session that was inserted and is missing has a pointer, and there is an object under it. */
  predicate Safe(s: State, id: nat) {
    id in s.created && id !in s.store.sessions ==> id in s.store.pointers && s.store.pointers[id] in s.store.r2
  }

  predicate SafeUpTo(r: Run, id: nat, n: nat)
    requires n < |r.states|
  {
    forall i :: 0 <= i <= n ==> Safe(r.states[i], id)
  }

  /** A write transaction commits for another session while this one, without a pointer, lies below it. */
  predicate Orphans(s: State, a: Action, id: nat) {
    && Commits(s, a) && id != s.sweep.cur.id && id !in s.store.pointers
    && Below(s.store.sessions, id, s.sweep.cur.id)
  }

  predicate NeverOrphaned(r: Run, id: nat, n: nat)
    requires n <= |r.actions| < |r.states|
  {
    forall i :: 0 <= i < n ==> !Orphans(r.states[i], r.actions[i], id)
  }

  lemma {:induction false} SafeStep(s: State, a: Action, t: State, id: nat)
    requires AllPointed(s) && Fresh(s) && Step(s, a, t) && Safe(s, id)
    ensures Safe(t, id) <==> !Orphans(s, a, id)
  {
    assert Pointed(s, id);
  }

  lemma {:induction false} SafeAt(r: Run, id: nat, n: nat)
    requires r.Valid() && r.states[0] == INIT && 0 < n <= |r.actions| && Safe(r.states[n - 1], id)
    ensures Safe(r.states[n], id) <==> !Orphans(r.states[n - 1], r.actions[n - 1], id)
  {
    RunInv(r, n - 1);
    SafeStep(r.states[n - 1], r.actions[n - 1], r.states[n], id);
  }

  /** Whatever crashes and whatever answers are lost: a missing session has a pointer and an object in every state up
      to n if and only if no write transaction committed for a session above it while it had no pointer. */
  lemma {:induction false} ArchiveIsCrashSafeIff(r: Run, id: nat, n: nat)
    requires r.Valid() && r.states[0] == INIT && n <= |r.actions|
    ensures SafeUpTo(r, id, n) <==> NeverOrphaned(r, id, n)
  {
    if n > 0 {
      ArchiveIsCrashSafeIff(r, id, n - 1);
      assert SafeUpTo(r, id, n) <==> SafeUpTo(r, id, n - 1) && Safe(r.states[n], id);
      assert NeverOrphaned(r, id, n) <==>
        NeverOrphaned(r, id, n - 1) && !Orphans(r.states[n - 1], r.actions[n - 1], id);
      if Safe(r.states[n - 1], id) { SafeAt(r, id, n); }
    }
  }

  /** The foreign key holds throughout, so what a deletion takes are whole branches. */
  lemma {:induction false} ParentsArePresent(r: Run, n: nat)
    requires r.Valid() && r.states[0] == INIT && n <= |r.actions|
    ensures Linked(r.states[n].store.sessions)
  {
    if n > 0 {
      ParentsArePresent(r, n - 1);
      var (s, a, t) := (r.states[n - 1], r.actions[n - 1], r.states[n]);
      assert Step(s, a, t);
      if Commits(s, a) { DeleteKeepsLinks(s.store.sessions, s.sweep.cur.id); }
    }
  }

  // ---------------------------------------------------------------- writers beside the sweep

  /** A write to a session in the sweep's hands does not restore what the sweep has read. */
  predicate NewToSweep(s: State, a: Action) {
    match a
    case Create(id, x) => forall l :: l in Held(s.sweep) && l.id == id ==> x.row != l.row
    case UpdateChildren(id, c) => Current(s.sweep).Some? && s.sweep.cur.id == id ==> c != s.sweep.bundle.children
    case _ => true
  }

  predicate AllNewToSweep(r: Run, n: nat)
    requires n <= |r.actions| < |r.states|
  {
    forall i :: 0 <= i < n ==> NewToSweep(r.states[i], r.actions[i])
  }

  /** A held session that is no longer what the sweep has read of it. */
  predicate Outdated(s: State, l: Listed) {
    l.id in s.store.sessions ==>
      || s.store.sessions[l.id].row != l.row
      || (Current(s.sweep) == Some(l) && s.store.sessions[l.id].children != s.sweep.bundle.children)
  }

  predicate TouchedDiffers(s: State) {
    && (forall l :: l in Held(s.sweep) && l.id in s.touched ==> Outdated(s, l))
    && (forall id :: id in s.archivedTouched && id in s.gathered && id in s.deleted ==> s.gathered[id] != s.deleted[id])
  }

  lemma {:induction false} WriterTouches(s: State, a: Action, t: State)
    requires Fresh(s) && TouchedDiffers(s) && WriterStep(s, a, t) && NewToSweep(s, a)
    ensures TouchedDiffers(t)
  {
    forall l | l in Held(t.sweep) && l.id in t.touched ensures Outdated(t, l) {
      if l.id in s.touched { assert Outdated(s, l); }
      if Current(s.sweep).Some? && s.sweep.cur.id == l.id {
        var i :| 0 <= i < |Held(s.sweep)| && Held(s.sweep)[i] == l;
        assert Held(s.sweep)[0] == s.sweep.cur;
      }
    }
  }

  lemma {:induction false} SweepTouches(s: State, a: Action, t: State)
    requires AllPointed(s) && Fresh(s) && TouchedDiffers(s) && Step(s, a, t) && !IsWrite(a)
    ensures TouchedDiffers(t)
  {
    if a.Gather? { assert s.sweep.todo == [s.sweep.todo[0]] + s.sweep.todo[1..]; }
    if Current(s.sweep).Some? { assert Held(s.sweep)[0] == s.sweep.cur; }
    forall l | l in Held(t.sweep) && l.id in t.touched ensures Outdated(t, l) {
      var i :| 0 <= i < |Held(t.sweep)| && Held(t.sweep)[i] == l;
      if a.GiveUp? || a.WriteTx? { assert Held(s.sweep)[i + 1] == l && l.id != s.sweep.cur.id; }
      assert l in Held(s.sweep);
      assert Outdated(s, l);
    }
  }

  lemma {:induction false} RunTouches(r: Run, n: nat)
    requires r.Valid() && r.states[0] == INIT && n <= |r.actions| && AllNewToSweep(r, n)
    ensures TouchedDiffers(r.states[n])
  {
    if n > 0 {
      RunTouches(r, n - 1);
      RunInv(r, n - 1);
      var (s, a, t) := (r.states[n - 1], r.actions[n - 1], r.states[n]);
      if IsWrite(a) { WriterTouches(s, a, t); } else { SweepTouches(s, a, t); }
    }
  }

  /** An archived session was archived as it was when its write transaction deleted it, unless it was written to after
      it was gathered or inserted again after it was listed. If writes do not restore what the sweep has read, it was
      archived as something else in all those cases. */
  lemma {:induction false} UntouchedSessionsSurvive(r: Run, id: nat)
    requires r.Valid() && r.states[0] == INIT && id in r.Last().store.pointers
    ensures var s := r.Last();
            && id in s.gathered && id in s.deleted
            && (id !in s.archivedTouched ==> s.gathered[id] == s.deleted[id])
            && (AllNewToSweep(r, |r.actions|) ==> (s.gathered[id] == s.deleted[id] <==> id !in s.archivedTouched))
  {
    RunInv(r, |r.actions|);
    assert Pointed(r.Last(), id);
    if AllNewToSweep(r, |r.actions|) { RunTouches(r, |r.actions|); }
  }

  // ---------------------------------------------------------------- losing runs

  lemma {:induction false} Extend(r: Run, a: Action, t: State) returns (r': Run)
    requires r.Valid() && Step(r.Last(), a, t)
    ensures r'.Valid() && r'.states[0] == r.states[0] && r'.Last() == t
  {
    r' := r.Then(a, t);
  }

  /** Session id is there alone and has been listed, gathered and uploaded. */
  lemma {:induction false} Uploaded(id: nat, x: Session) returns (r: Run)
    requires x.row.parent.None?
    ensures r.Valid() && r.states[0] == INIT
    ensures var l := Listed(id, x.row);
            r.Last() == INIT.(store := Store(map[id := x], map[], map[l.ObjectKey() := x]),
                              sweep := Writing(l, x, []), created := {id})
  {
    var l := Listed(id, x.row);
    var s1 := INIT.(store := Store(map[id := x], map[], map[]), created := {id});
    var s2 := s1.(sweep := Next([l]));
    var s3 := s2.(sweep := Uploading(l, x, []));
    r := Run([INIT], []);
    r := Extend(r, Create(id, x), s1);
    r := Extend(r, List([l]), s2);
    r := Extend(r, Gather(true), s3);
    r := Extend(r, Put(Ok), s3.(store := Store(map[id := x], map[], map[l.ObjectKey() := x]),
                                sweep := Writing(l, x, [])));
  }

  /** A write that lands between gathering and deletion is deleted without having been archived. Every call succeeds. */
  lemma {:induction false} LateWriteIsLost(row: SessionRow, before: nat, after: nat) returns (r: Run)
    requires row.parent.None?
    ensures r.Valid() && r.states[0] == INIT
    ensures var s := r.Last();
            && s.store.sessions == map[] && 7 in s.deleted && s.deleted[7] == Session(row, after)
            && 7 in s.store.pointers && s.store.pointers[7] in s.store.r2
            && s.store.r2[s.store.pointers[7]] == Session(row, before)
  {
    var (x, y, l) := (Session(row, before), Session(row, after), Listed(7, row));
    r := Uploaded(7, x);
    var s := r.Last();
    var s1 := s.(store := s.store.(sessions := map[7 := y]), touched := {7});
    r := Extend(r, UpdateChildren(7, after), s1);
    assert Without(s1.store.sessions, 7) == map[];
    r := Extend(r, WriteTx(Ok), s1.(store := Store(map[], map[7 := l.ObjectKey()], s1.store.r2), sweep := Next([]),
                                    gathered := map[7 := x], deleted := map[7 := y], archivedTouched := {7}));
  }

  /** A session and its subagent are listed together, the session first, and the session is archived. */
  lemma {:induction false} ParentArchived(x: Session, y: Session) returns (r: Run)
    requires x.row.parent.None? && y.row.parent == Some(1)
    ensures r.Valid() && r.states[0] == INIT
    ensures var (l, k) := (Listed(1, x.row), Listed(2, y.row));
            r.Last() == State(Store(map[], map[1 := l.ObjectKey()], map[l.ObjectKey() := x]), Next([k]), {1, 2}, {},
                              map[1 := x], map[1 := x], {}, {})
  {
    var (l, k) := (Listed(1, x.row), Listed(2, y.row));
    var s1 := INIT.(store := Store(map[1 := x], map[], map[]), created := {1});
    var s2 := s1.(store := Store(map[1 := x, 2 := y], map[], map[]), created := {1, 2});
    var s3 := s2.(sweep := Next([l, k]));
    var s4 := s3.(sweep := Uploading(l, x, [k]));
    var s5 := s4.(store := Store(map[1 := x, 2 := y], map[], map[l.ObjectKey() := x]), sweep := Writing(l, x, [k]));
    r := Run([INIT], []);
    r := Extend(r, Create(1, x), s1);
    r := Extend(r, Create(2, y), s2);
    r := Extend(r, List([l, k]), s3);
    assert [l, k][1..] == [k];
    r := Extend(r, Gather(true), s4);
    r := Extend(r, Put(Ok), s5);
    BelowIff(s5.store.sessions, 2, 1);
    assert Without(s5.store.sessions, 1) == map[];
    r := Extend(r, WriteTx(Ok), State(Store(map[], map[1 := l.ObjectKey()], s5.store.r2), Next([k]), {1, 2}, {},
                                      map[1 := x], map[1 := x], {}, {}));
  }

  /** Archiving a session deletes its subagent's rows. The same sweep then gathers nothing for the subagent, uploads
      that, and cannot delete it: the subagent is gone without a pointer, and its object is empty. Every call is
      answered. */
  lemma {:induction false} CascadeLosesTheSubagent(x: Session, y: Session) returns (r: Run)
    requires x.row.parent.None? && y.row.parent == Some(1)
    ensures r.Valid() && r.states[0] == INIT
    ensures var s := r.Last();
            && 2 in s.created && 2 !in s.store.sessions && 2 !in s.store.pointers
            && s.sweep == Idle && Listed(2, y.row).ObjectKey() in s.store.r2
            && s.store.r2[Listed(2, y.row).ObjectKey()] == Session(y.row, NO_CHILDREN)
  {
    r := ParentArchived(x, y);
    var (s, k, empty) := (r.Last(), Listed(2, y.row), Session(y.row, NO_CHILDREN));
    var s1 := s.(sweep := Uploading(k, empty, []));
    var s2 := s1.(store := s1.store.(r2 := s1.store.r2[k.ObjectKey() := empty]), sweep := Writing(k, empty, []));
    r := Extend(r, Gather(true), s1);
    r := Extend(r, Put(Ok), s2);
    r := Extend(r, WriteTx(Ok), s2.(sweep := Next([])));
    r := Extend(r, Finish, s2.(sweep := Idle));
  }
}
