/** Sessions that come back after they were archived. Ingest upserts the session of every event
    (internal/ingest/consumer.go), so a late event inserts an archived session again, beside its pointer. This says
    exactly when that is the case and when it costs the archived object, on the machine of Archive.dfy. */
module ArchiveReturn {
  import opened Common
  import opened SessionTree
  import opened Archive

  /** The session is inserted although it has a pointer. */
  predicate Returns(s: State, a: Action, id: nat) { a.Create? && a.id == id && id in s.store.pointers }

  /** A write transaction deletes the session, for itself or for a session above it. */
  predicate Takes(s: State, a: Action, id: nat) { Commits(s, a) && Below(s.store.sessions, id, s.sweep.cur.id) }

  predicate EverReturned(r: Run, id: nat, n: nat)
    requires n <= |r.actions| < |r.states|
  {
    exists i :: 0 <= i < n && Returns(r.states[i], r.actions[i], id)
  }

  predicate TakenSince(r: Run, id: nat, i: nat, n: nat)
    requires n <= |r.actions| < |r.states|
  {
    exists k :: i <= k < n && Takes(r.states[k], r.actions[k], id)
  }

  /** Among the first n actions the session was inserted beside its pointer and has not been deleted since. */
  predicate IsBack(r: Run, id: nat, n: nat)
    requires n <= |r.actions| < |r.states|
  {
    exists i :: 0 <= i < n && Returns(r.states[i], r.actions[i], id) && !TakenSince(r, id, i + 1, n)
  }

  lemma {:induction false} IsBackGrows(r: Run, id: nat, n: nat)
    requires 0 < n <= |r.actions| < |r.states|
    ensures IsBack(r, id, n) <==>
              || Returns(r.states[n - 1], r.actions[n - 1], id)
              || (IsBack(r, id, n - 1) && !Takes(r.states[n - 1], r.actions[n - 1], id))
  {
    var (s, a) := (r.states[n - 1], r.actions[n - 1]);
    if IsBack(r, id, n) {
      var i :| 0 <= i < n && Returns(r.states[i], r.actions[i], id) && !TakenSince(r, id, i + 1, n);
      if i < n - 1 { assert !TakenSince(r, id, i + 1, n - 1) && !Takes(s, a, id); }
    }
    if Returns(s, a, id) { assert !TakenSince(r, id, n, n); }
    if IsBack(r, id, n - 1) && !Takes(s, a, id) {
      var i :| 0 <= i < n - 1 && Returns(r.states[i], r.actions[i], id) && !TakenSince(r, id, i + 1, n - 1);
      assert !TakenSince(r, id, i + 1, n);
    }
  }

  /** Pointer and session coexist exactly when the session was inserted beside its pointer and no session above it was
      archived since: its own write transaction runs into the pointer's primary key every time. */
  lemma {:induction false} CoexistIffBack(r: Run, id: nat, n: nat)
    requires r.Valid() && r.states[0] == INIT && n <= |r.actions|
    ensures id in r.states[n].store.sessions && id in r.states[n].store.pointers <==> IsBack(r, id, n)
  {
    if n > 0 {
      CoexistIffBack(r, id, n - 1);
      IsBackGrows(r, id, n);
      assert Step(r.states[n - 1], r.actions[n - 1], r.states[n]);
    }
  }

  /** A sweep holds, and a write transaction meets, a pointer only for sessions that were inserted beside it. */
  lemma {:induction false} ViolationsAreReturned(r: Run, id: nat, n: nat)
    requires r.Valid() && r.states[0] == INIT && n <= |r.actions|
    ensures Holds(r.states[n].sweep, id) && id in r.states[n].store.pointers ==> EverReturned(r, id, n)
    ensures id in r.states[n].violations ==> EverReturned(r, id, n)
  {
    if n > 0 {
      ViolationsAreReturned(r, id, n - 1);
      CoexistIffBack(r, id, n - 1);
      RunInv(r, n - 1);
      HeldBefore(r.states[n - 1], r.actions[n - 1], r.states[n], id);
      assert EverReturned(r, id, n - 1) ==> EverReturned(r, id, n);
      assert IsBack(r, id, n - 1) ==> EverReturned(r, id, n - 1);
    }
  }

  /** A session with a pointer in the sweep's hands was there before, or is being listed beside its pointer. */
  lemma {:induction false} HeldBefore(s: State, a: Action, t: State, id: nat)
    requires Fresh(s) && Step(s, a, t)
    ensures Holds(t.sweep, id) && id in t.store.pointers ==>
              id in s.store.pointers && (Holds(s.sweep, id) || id in s.store.sessions)
    ensures id in t.violations && id !in s.violations ==> Holds(s.sweep, id) && id in s.store.pointers
  {
    if Current(s.sweep).Some? { assert Held(s.sweep)[0] == s.sweep.cur; }
    if Holds(t.sweep, id) {
      var i :| 0 <= i < |Held(t.sweep)| && Held(t.sweep)[i].id == id;
      if a.GiveUp? || a.WriteTx? { assert Held(s.sweep)[i + 1] == Held(t.sweep)[i]; }
      else if a.Gather? { HeldSuffix(s, a, t); }
    }
  }

  // ---------------------------------------------------------------- the archived object

  predicate KeptUpTo(r: Run, id: nat, n: nat)
    requires n < |r.states|
  {
    forall i :: 0 <= i <= n ==> Kept(r.states[i], id)
  }

  /** The sweep uploads a session that already has a pointer, to the key of that pointer. */
  predicate Reuploads(s: State, a: Action, id: nat) {
    && a.Put? && a.outcome.TookEffect() && s.sweep.Uploading? && s.sweep.cur.id == id
    && id in s.store.pointers && s.store.pointers[id] == s.sweep.cur.ObjectKey()
  }

  /** The session was archived with children, and what is written to it later is not what was archived. */
  predicate LateWritesAreNew(r: Run, id: nat)
    requires |r.actions| < |r.states|
  {
    forall i :: 0 <= i < |r.actions| && id in r.states[i].gathered ==>
      && r.states[i].gathered[id].children != NO_CHILDREN
      && match r.actions[i]
         case Create(k, x) => k == id ==> x.children != r.states[i].gathered[id].children
         case UpdateChildren(k, c) => k == id ==> c != r.states[i].gathered[id].children
         case _ => true
  }

  /** The session that came back, and what the sweep holds of it, differs from the archived one. */
  predicate Late(s: State, id: nat) {
    id in s.store.pointers && id in s.gathered ==>
      && (id in s.store.sessions ==> s.store.sessions[id].children != s.gathered[id].children)
      && (Current(s.sweep).Some? && s.sweep.cur.id == id ==> s.sweep.bundle.children != s.gathered[id].children)
  }

  lemma {:induction false} LateStep(s: State, a: Action, t: State, id: nat)
    requires AllPointed(s) && Fresh(s) && Step(s, a, t) && Late(s, id)
    requires id in s.gathered ==> s.gathered[id].children != NO_CHILDREN
    requires a.Create? && a.id == id && id in s.gathered ==> a.session.children != s.gathered[id].children
    requires a.UpdateChildren? && a.id == id && id in s.gathered ==> a.children != s.gathered[id].children
    ensures Late(t, id)
  {
    assert Pointed(s, id);
  }

  lemma {:induction false} RunLate(r: Run, id: nat, n: nat)
    requires r.Valid() && r.states[0] == INIT && n <= |r.actions| && LateWritesAreNew(r, id)
    ensures Late(r.states[n], id)
  {
    if n > 0 {
      RunLate(r, id, n - 1);
      RunInv(r, n - 1);
      LateStep(r.states[n - 1], r.actions[n - 1], r.states[n], id);
    }
  }

  lemma {:induction false} KeptStep(s: State, a: Action, t: State, id: nat)
    requires AllPointed(s) && Fresh(s) && Step(s, a, t) && Kept(s, id)
    ensures !Reuploads(s, a, id) ==> Kept(t, id)
    ensures Late(s, id) && Reuploads(s, a, id) ==> !Kept(t, id)
  {
    assert Pointed(s, id);
  }

  predicate NeverReuploaded(r: Run, id: nat, n: nat)
    requires n <= |r.actions| < |r.states|
  {
    forall i :: 0 <= i < n ==> !Reuploads(r.states[i], r.actions[i], id)
  }

  lemma {:induction false} KeptAt(r: Run, id: nat, n: nat)
    requires r.Valid() && r.states[0] == INIT && 0 < n <= |r.actions| && Kept(r.states[n - 1], id)
    ensures !Reuploads(r.states[n - 1], r.actions[n - 1], id) ==> Kept(r.states[n], id)
    ensures LateWritesAreNew(r, id) && Reuploads(r.states[n - 1], r.actions[n - 1], id) ==> !Kept(r.states[n], id)
  {
    RunInv(r, n - 1);
    if LateWritesAreNew(r, id) { RunLate(r, id, n - 1); }
    KeptStep(r.states[n - 1], r.actions[n - 1], r.states[n], id);
  }

  /** The object under a session's pointer stays the bundle gathered for it as long as no sweep uploads the session
      again to that key. If late writes are new, every such upload loses it. */
  lemma {:induction false} BundleKeptIff(r: Run, id: nat, n: nat)
    requires r.Valid() && r.states[0] == INIT && n <= |r.actions|
    ensures NeverReuploaded(r, id, n) ==> KeptUpTo(r, id, n)
    ensures LateWritesAreNew(r, id) ==> (KeptUpTo(r, id, n) <==> NeverReuploaded(r, id, n))
  {
    if n > 0 {
      BundleKeptIff(r, id, n - 1);
      assert KeptUpTo(r, id, n) <==> KeptUpTo(r, id, n - 1) && Kept(r.states[n], id);
      assert NeverReuploaded(r, id, n) <==>
        NeverReuploaded(r, id, n - 1) && !Reuploads(r.states[n - 1], r.actions[n - 1], id);
      if Kept(r.states[n - 1], id) { KeptAt(r, id, n); }
    }
  }

  /** Only a session that was inserted beside its pointer is uploaded again. Without that, and unless a session above
      it was archived before it, the session is safe: when it is missing, R2 holds the bundle gathered for it. */
  lemma {:induction false} OnlyReturnedAreReuploaded(r: Run, id: nat, n: nat)
    requires r.Valid() && r.states[0] == INIT && n <= |r.actions| && !EverReturned(r, id, n)
    ensures NeverReuploaded(r, id, n) && KeptUpTo(r, id, n)
    ensures NeverOrphaned(r, id, n) && id in r.states[n].created && id !in r.states[n].store.sessions ==>
              var s := r.states[n];
              && id in s.store.pointers && s.store.pointers[id] in s.store.r2 && id in s.gathered
              && s.store.r2[s.store.pointers[id]] == s.gathered[id]
  {
    forall i | 0 <= i < n && Reuploads(r.states[i], r.actions[i], id) ensures EverReturned(r, id, n) {
      assert Held(r.states[i].sweep)[0].id == id;
      ViolationsAreReturned(r, id, i);
    }
    BundleKeptIff(r, id, n);
    ArchiveIsCrashSafeIff(r, id, n);
    assert Kept(r.states[n], id);
    assert NeverOrphaned(r, id, n) ==> Safe(r.states[n], id);
  }

  /** A late event costs the archived session: the next sweep uploads the little that came back over the archived
      object, and the session stays in Postgres because its write transaction fails. Every call is answered. */
  lemma {:induction false} LateEventReplacesTheArchive(row: SessionRow, full: nat, late: nat) returns (r: Run)
    requires row.parent.None? && full != late
    ensures r.Valid() && r.states[0] == INIT
    ensures var s := r.Last();
            && 7 in s.store.pointers && 7 in s.gathered && s.gathered[7] == Session(row, full)
            && s.store.pointers[7] in s.store.r2 && s.store.r2[s.store.pointers[7]] == Session(row, late)
            && 7 in s.store.sessions && s.violations == {7}
  {
    var (x, y, l) := (Session(row, full), Session(row, late), Listed(7, row));
    r := Archived(7, x);
    var s0 := r.Last();
    var s1 := s0.(store := s0.store.(sessions := map[7 := y]));
    var s2 := s1.(sweep := Next([l]));
    var s3 := s2.(sweep := Uploading(l, y, []));
    var s4 := s3.(store := s3.store.(r2 := map[l.ObjectKey() := y]), sweep := Writing(l, y, []));
    r := Extend(r, Create(7, y), s1);
    r := Extend(r, List([l]), s2);
    r := Extend(r, Gather(true), s3);
    r := Extend(r, Put(Ok), s4);
    r := Extend(r, WriteTx(Ok), s4.(sweep := Next([]), violations := {7}));
  }

  /** The session is inserted and archived. */
  lemma {:induction false} Archived(id: nat, x: Session) returns (r: Run)
    requires x.row.parent.None?
    ensures r.Valid() && r.states[0] == INIT
    ensures var l := Listed(id, x.row);
            r.Last() == INIT.(store := Store(map[], map[id := l.ObjectKey()], map[l.ObjectKey() := x]),
                              created := {id}, gathered := map[id := x], deleted := map[id := x])
  {
    var l := Listed(id, x.row);
    r := Uploaded(id, x);
    var s := INIT.(store := Store(map[], map[id := l.ObjectKey()], map[l.ObjectKey() := x]), sweep := Next([]),
                   created := {id}, gathered := map[id := x], deleted := map[id := x]);
    assert Without(map[id := x], id) == map[];
    r := Extend(r, WriteTx(Ok), s);
    r := Extend(r, Finish, s.(sweep := Idle));
  }
}
