/** Overlapping archive sweeps (internal/archive/cron.go). The scheduler skips no tick while a sweep runs and replicas
    share the bucket (internal/archive/scheduler.go), so several sweeps can work on one session. This is the machine of
    Archive.dfy for one session under one object key and any number of sweeps: what holds for all of them, and what
    sweeps that take turns keep. ArchiveSchedule.dfy says exactly which schedules lose the archived object. */
module ArchiveOverlap {
  import opened Common

  datatype Session = Session(row: nat, children: nat)

  /** What gathering finds once the session's rows are deleted. */
  const NO_CHILDREN: nat := 0

  datatype Hand = Listed(row: nat) | Uploading(bundle: Session) | Writing(bundle: Session)

  /** `committed` is the bundle of the sweep whose write transaction deleted the session. */
  datatype State = State(
    session: Option<Session>, pointer: bool, stored: Option<Session>, hands: map<nat, Hand>, committed: Option<Session>)

  datatype Action =
    | UpdateChildren(children: nat)
    | Insert(session: Session)   // ingest upserts the session of every event, so a late one brings a deleted row back
    | Cascade                    // a session above this one is archived, which deletes this one too
    | List(w: nat)
    | Gather(w: nat)
    | Put(w: nat, outcome: Outcome)
    | WriteTx(w: nat, outcome: Outcome)
    | Leave(w: nat)              // a failed step, a crash, or the end of the session's turn

  function Start(x: Session): State { State(Some(x), false, None, map[], None) }

  predicate StoreKept(s: State, t: State) {
    t.session == s.session && t.pointer == s.pointer && t.committed == s.committed
  }

  function Children(s: State): nat { if s.session.Some? then s.session.value.children else NO_CHILDREN }

  /** The write transaction commits. It cannot for a session that has a pointer already: the second insert of the
      pointer violates its primary key, and Postgres refuses every further statement of that transaction. Nor can it
      for a missing session, which DeleteSession does not find. */
  predicate Deletes(s: State, a: Action) {
    && a.WriteTx? && a.outcome.TookEffect() && s.session.Some? && !s.pointer
    && a.w in s.hands && s.hands[a.w].Writing?
  }

  predicate Step(s: State, a: Action, t: State) {
    match a
    case UpdateChildren(c) => s.session.Some? && t == s.(session := Some(s.session.value.(children := c)))
    case Insert(x) => s.session.None? && t == s.(session := Some(x))
    case Cascade => s.session.Some? && t == s.(session := None)
    case List(w) => w !in s.hands && s.session.Some? && t == s.(hands := s.hands[w := Listed(s.session.value.row)])
    case Gather(w) =>
      && w in s.hands && s.hands[w].Listed?
      && t == s.(hands := s.hands[w := Uploading(Session(s.hands[w].row, Children(s)))])
    case Put(w, o) =>
      && w in s.hands && s.hands[w].Uploading? && StoreKept(s, t)
      && t.stored == (if o.TookEffect() then Some(s.hands[w].bundle) else s.stored)
      && t.hands == if o.Ok? then s.hands[w := Writing(s.hands[w].bundle)] else s.hands
    case WriteTx(w, o) =>
      && w in s.hands && s.hands[w].Writing? && t.stored == s.stored && t.hands == s.hands - {w}
      && if Deletes(s, a) then t.session == None && t.pointer && t.committed == Some(s.hands[w].bundle)
         else StoreKept(s, t)
    case Leave(w) => t == s.(hands := s.hands - {w})
  }

  datatype Run = Run(states: seq<State>, actions: seq<Action>) {
    predicate Valid() {
      && |states| == |actions| + 1
      && forall i :: 0 <= i < |actions| ==> Step(states[i], actions[i], states[i + 1])
    }

    function Last(): State
      requires states != []
    {
      states[|states| - 1]
    }
  }

  // ---------------------------------------------------------------- what overlapping sweeps keep

  /** The session is inserted although it has a pointer. */
  predicate Returns(s: State, a: Action) { a.Insert? && s.pointer }

  predicate EverReturned(r: Run, n: nat)
    requires n <= |r.actions| < |r.states|
  {
    exists i :: 0 <= i < n && Returns(r.states[i], r.actions[i])
  }

  predicate CascadeSince(r: Run, i: nat, n: nat)
    requires n <= |r.actions|
  {
    exists k :: i <= k < n && r.actions[k].Cascade?
  }

  /** The session was inserted beside its pointer and not deleted since. */
  predicate IsBack(r: Run, n: nat)
    requires n <= |r.actions| < |r.states|
  {
    exists i :: 0 <= i < n && Returns(r.states[i], r.actions[i]) && !CascadeSince(r, i + 1, n)
  }

  lemma {:induction false} IsBackGrows(r: Run, n: nat)
    requires 0 < n <= |r.actions| < |r.states|
    ensures IsBack(r, n) <==>
              || Returns(r.states[n - 1], r.actions[n - 1])
              || (IsBack(r, n - 1) && !r.actions[n - 1].Cascade?)
  {
    var (s, a) := (r.states[n - 1], r.actions[n - 1]);
    if IsBack(r, n) {
      var i :| 0 <= i < n && Returns(r.states[i], r.actions[i]) && !CascadeSince(r, i + 1, n);
      if i < n - 1 { assert !CascadeSince(r, i + 1, n - 1) && !a.Cascade?; }
    }
    if Returns(s, a) { assert !CascadeSince(r, n, n); }
    if IsBack(r, n - 1) && !a.Cascade? {
      var i :| 0 <= i < n - 1 && Returns(r.states[i], r.actions[i]) && !CascadeSince(r, i + 1, n - 1);
      assert !CascadeSince(r, i + 1, n);
    }
  }

  /** A pointer comes with a committed bundle and some object. */
  predicate Placed(s: State) {
    && (s.pointer <==> s.committed.Some?)
    && (s.pointer ==> s.stored.Some?)
    && (forall w :: w in s.hands && s.hands[w].Writing? ==> s.stored.Some?)
  }

  lemma {:induction false} RunPlaced(r: Run, x: Session, n: nat)
    requires r.Valid() && r.states[0] == Start(x) && n < |r.states|
    ensures Placed(r.states[n]) && (IsBack(r, n) <==> r.states[n].pointer && r.states[n].session.Some?)
  {
    if n > 0 {
      RunPlaced(r, x, n - 1);
      IsBackGrows(r, n);
      assert Step(r.states[n - 1], r.actions[n - 1], r.states[n]);
    }
  }

  /** A session above this one is archived while this one has no pointer. */
  predicate Orphans(s: State, a: Action) { a.Cascade? && !s.pointer }

  predicate NeverOrphaned(r: Run, n: nat)
    requires n <= |r.actions| < |r.states|
  {
    forall i :: 0 <= i < n ==> !Orphans(r.states[i], r.actions[i])
  }

  predicate PointedUpTo(r: Run, n: nat)
    requires n < |r.states|
  {
    forall i :: 0 <= i <= n ==> r.states[i].session.None? ==> r.states[i].pointer
  }

  /** However many sweeps overlap: a pointer comes with an object; a missing session has a pointer in every state up
      to n exactly if no session above it was archived while it had none; and pointer and session coexist exactly if
      the session was inserted beside its pointer and no session above it was archived since. */
  lemma {:induction false} MissingSessionHasAnObject(r: Run, x: Session, n: nat)
    requires r.Valid() && r.states[0] == Start(x) && n < |r.states|
    ensures r.states[n].pointer ==> r.states[n].stored.Some? && r.states[n].committed.Some?
    ensures PointedUpTo(r, n) <==> NeverOrphaned(r, n)
    ensures r.states[n].pointer && r.states[n].session.Some? <==> IsBack(r, n)
  {
    RunPlaced(r, x, n);
    if n > 0 {
      MissingSessionHasAnObject(r, x, n - 1);
      var (s, a, t) := (r.states[n - 1], r.actions[n - 1], r.states[n]);
      assert Step(s, a, t);
      assert PointedUpTo(r, n) <==> PointedUpTo(r, n - 1) && (t.session.None? ==> t.pointer);
      assert NeverOrphaned(r, n) <==> NeverOrphaned(r, n - 1) && !Orphans(s, a);
    }
  }

  // ---------------------------------------------------------------- when the object is the committed one

  predicate Intact(s: State) { s.pointer ==> s.stored == s.committed }

  /** An upload of another bundle after the deletion, or a deletion on the strength of an upload that another sweep has
      replaced. */
  predicate Clobbers(s: State, a: Action) {
    match a
    case Put(w, o) =>
      o.TookEffect() && s.pointer && w in s.hands && s.hands[w].Uploading? && Some(s.hands[w].bundle) != s.committed
    case WriteTx(w, o) => Deletes(s, a) && Some(s.hands[w].bundle) != s.stored
    case _ => false
  }

  predicate IntactUpTo(r: Run, n: nat)
    requires n < |r.states|
  {
    forall i :: 0 <= i <= n ==> Intact(r.states[i])
  }

  predicate Unclobbered(r: Run, n: nat)
    requires n <= |r.actions| < |r.states|
  {
    forall i :: 0 <= i < n ==> !Clobbers(r.states[i], r.actions[i])
  }

  lemma {:induction false} IntactIffUnclobbered(r: Run, x: Session, n: nat)
    requires r.Valid() && r.states[0] == Start(x) && n < |r.states|
    ensures IntactUpTo(r, n) <==> Unclobbered(r, n)
  {
    if n > 0 {
      IntactIffUnclobbered(r, x, n - 1);
      RunPlaced(r, x, n - 1);
      assert Step(r.states[n - 1], r.actions[n - 1], r.states[n]);
      assert IntactUpTo(r, n) <==> IntactUpTo(r, n - 1) && Intact(r.states[n]);
      assert Unclobbered(r, n) <==> Unclobbered(r, n - 1) && !Clobbers(r.states[n - 1], r.actions[n - 1]);
    }
  }

  // ---------------------------------------------------------------- sweeps that take turns

  /** One sweep at a time has the session: nobody lists it while another sweep is at work on it. */
  predicate OneAtATime(r: Run)
    requires |r.actions| < |r.states|
  {
    forall i :: 0 <= i < |r.actions| && r.actions[i].List? ==> r.states[i].hands == map[]
  }

  /** At most one hand, and until the deletion its upload is the current object. */
  predicate Solo(s: State) {
    && (forall v, w :: v in s.hands && w in s.hands ==> v == w)
    && (!s.pointer ==> forall w :: w in s.hands && s.hands[w].Writing? ==> s.stored == Some(s.hands[w].bundle))
  }

  lemma {:induction false} StepSolo(s: State, a: Action, t: State)
    requires Placed(s) && Solo(s) && Step(s, a, t) && (a.List? ==> s.hands == map[])
    ensures Solo(t) && (a.WriteTx? ==> !Clobbers(s, a)) && (Deletes(s, a) ==> t.hands == map[])
  {
    if a.WriteTx? {
      assert forall v :: v in s.hands ==> v == a.w;
      assert t.hands == map[];
    }
  }

  lemma {:induction false} RunSolo(r: Run, x: Session, n: nat)
    requires r.Valid() && r.states[0] == Start(x) && n < |r.states| && OneAtATime(r)
    ensures Solo(r.states[n]) && (r.states[n].pointer && r.states[n].hands != map[] ==> EverReturned(r, n))
    ensures forall i :: 0 <= i < n && r.actions[i].WriteTx? ==> !Clobbers(r.states[i], r.actions[i])
  {
    if n > 0 {
      RunSolo(r, x, n - 1);
      RunPlaced(r, x, n - 1);
      StepSolo(r.states[n - 1], r.actions[n - 1], r.states[n]);
      assert IsBack(r, n - 1) ==> EverReturned(r, n - 1);
      assert EverReturned(r, n - 1) ==> EverReturned(r, n);
    }
  }

  /** An upload for a session that has a pointer. */
  predicate Reuploads(s: State, a: Action) { a.Put? && a.outcome.TookEffect() && s.pointer }

  /** Sweeps that take turns keep the archive intact, however often they crash or lose answers, unless one uploads a
      session that was archived before and inserted again. */
  lemma {:induction false} TurnsKeepTheArchive(r: Run, x: Session, n: nat)
    requires r.Valid() && r.states[0] == Start(x) && n < |r.states| && OneAtATime(r)
    ensures (forall i :: 0 <= i < n ==> !Reuploads(r.states[i], r.actions[i])) ==> IntactUpTo(r, n)
    ensures forall i :: 0 <= i < n && Reuploads(r.states[i], r.actions[i]) ==> EverReturned(r, i)
  {
    RunSolo(r, x, n);
    IntactIffUnclobbered(r, x, n);
    forall i | 0 <= i < n && Reuploads(r.states[i], r.actions[i]) ensures EverReturned(r, i) {
      RunSolo(r, x, i);
      assert Step(r.states[i], r.actions[i], r.states[i + 1]);
    }
  }

  lemma {:induction false} Onward(r: Run, a: Action, t: State) returns (r': Run)
    requires r.Valid() && Step(r.Last(), a, t)
    ensures r'.Valid() && r'.Last() == t && r'.states[0] == r.states[0]
  {
    r' := Run(r.states + [t], r.actions + [a]);
  }

  /** Two sweeps list the session; the slower one gathers after the faster one has deleted it, finds no children, and
      uploads an empty bundle over the archived one. Every call succeeds. */
  lemma {:induction false} SlowSweepEmptiesTheArchive(row: nat, children: nat) returns (r: Run)
    requires children != NO_CHILDREN
    ensures r.Valid() && r.states[0] == Start(Session(row, children))
    ensures r.Last().session.None? && r.Last().committed == Some(Session(row, children))
    ensures r.Last().stored == Some(Session(row, NO_CHILDREN))
  {
    var (full, empty) := (Session(row, children), Session(row, NO_CHILDREN));
    r := Run([Start(full)], []);
    r := Onward(r, List(0), State(Some(full), false, None, map[0 := Listed(row)], None));
    r := Onward(r, List(1), State(Some(full), false, None, map[0 := Listed(row), 1 := Listed(row)], None));
    r := Onward(r, Gather(0), State(Some(full), false, None, map[0 := Uploading(full), 1 := Listed(row)], None));
    r := Onward(r, Put(0, Ok), State(Some(full), false, Some(full), map[0 := Writing(full), 1 := Listed(row)], None));
    r := Onward(r, WriteTx(0, Ok), State(None, true, Some(full), map[1 := Listed(row)], Some(full)));
    r := Onward(r, Gather(1), State(None, true, Some(full), map[1 := Uploading(empty)], Some(full)));
    r := Onward(r, Put(1, Ok), State(None, true, Some(empty), map[1 := Writing(empty)], Some(full)));
  }
}
