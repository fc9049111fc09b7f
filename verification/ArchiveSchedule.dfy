/** Which schedules of overlapping sweeps (ArchiveOverlap.dfy) keep the archived object. A bundle is the session row of
    its sweep's listing and the children of its sweep's gathering, so whether an upload replaces another one by
    something else depends on the writes that fall between the two listings and the two gatherings. */
module ArchiveSchedule {
  import opened Common
  import opened ArchiveOverlap

  // ---------------------------------------------------------------- reading a schedule

  predicate Uploads(a: Action) { a.Put? && a.outcome.TookEffect() }

  /** The latest listing, gathering, upload and deletion among the first n actions, or -1. */
  function LastList(r: Run, n: nat, w: nat): (k: int)
    requires n <= |r.actions|
    ensures -1 <= k < n && (k >= 0 ==> r.actions[k] == List(w))
  {
    if n == 0 then -1 else if r.actions[n - 1] == List(w) then n - 1 else LastList(r, n - 1, w)
  }

  function LastGather(r: Run, n: nat, w: nat): (k: int)
    requires n <= |r.actions|
    ensures -1 <= k < n && (k >= 0 ==> r.actions[k] == Gather(w))
  {
    if n == 0 then -1 else if r.actions[n - 1] == Gather(w) then n - 1 else LastGather(r, n - 1, w)
  }

  function LastUpload(r: Run, n: nat): (k: int)
    requires n <= |r.actions|
    ensures -1 <= k < n && (k >= 0 ==> Uploads(r.actions[k]))
  {
    if n == 0 then -1 else if Uploads(r.actions[n - 1]) then n - 1 else LastUpload(r, n - 1)
  }

  function LastDeletion(r: Run, n: nat): (k: int)
    requires n <= |r.actions| < |r.states|
    ensures -1 <= k < n && (k >= 0 ==> Deletes(r.states[k], r.actions[k]))
  {
    if n == 0 then -1 else if Deletes(r.states[n - 1], r.actions[n - 1]) then n - 1 else LastDeletion(r, n - 1)
  }

  /** A row changes only by being deleted and inserted again. */
  predicate RowWrite(a: Action) { a.Insert? }

  predicate ChildWrite(s: State, a: Action) { a.UpdateChildren? || a.Insert? || a.Cascade? || Deletes(s, a) }

  /** A write between steps i and j, whichever comes first. */
  predicate RowWriteIn(r: Run, i: nat, j: nat)
    requires i <= |r.actions| && j <= |r.actions|
  {
    exists k :: 0 <= k < |r.actions| && (i <= k < j || j <= k < i) && RowWrite(r.actions[k])
  }

  predicate ChildWriteIn(r: Run, i: nat, j: nat)
    requires i <= |r.actions| && j <= |r.actions| < |r.states|
  {
    exists k :: 0 <= k < |r.actions| && (i <= k < j || j <= k < i) && ChildWrite(r.states[k], r.actions[k])
  }

  /** The sweep of v as of its step i and the sweep of w as of its step j have read different versions: the row was
      written between their listings, or the children were written or deleted between their gatherings, of which one
      at least found the session. */
  predicate ReadApart(r: Run, i: nat, v: nat, j: nat, w: nat)
    requires i <= |r.actions| && j <= |r.actions| < |r.states|
  {
    var (k, l, g, h) := (LastList(r, i, v), LastList(r, j, w), LastGather(r, i, v), LastGather(r, j, w));
    && k >= 0 && l >= 0 && g >= 0 && h >= 0
    && (RowWriteIn(r, k, l)
        || (ChildWriteIn(r, g, h) && (r.states[g].session.Some? || r.states[h].session.Some?)))
  }

  /** Step i uploads after the deletion what was read apart from the deleting sweep, or deletes while the latest upload
      is of a sweep that read apart. */
  predicate Replaces(r: Run, i: nat)
    requires i < |r.actions| < |r.states|
  {
    match r.actions[i]
    case Put(w, o) =>
      && o.TookEffect()
      && var d := LastDeletion(r, i);
         d >= 0 && ReadApart(r, d, r.actions[d].w, i, w)
    case WriteTx(w, _) =>
      && Deletes(r.states[i], r.actions[i])
      && var p := LastUpload(r, i);
         p >= 0 && ReadApart(r, p, r.actions[p].w, i, w)
    case _ => false
  }

  predicate Orderly(r: Run, n: nat)
    requires n <= |r.actions| < |r.states|
  {
    forall i :: 0 <= i < n ==> !Replaces(r, i)
  }

  /** No write restores an earlier row or earlier children, and children are never written to be none. */
  predicate Novel(r: Run)
    requires |r.actions| < |r.states|
  {
    && (forall i :: 0 <= i < |r.states| && r.states[i].session.Some? ==> Children(r.states[i]) != NO_CHILDREN)
    && (forall i, k, j :: 0 <= i <= k < j <= |r.actions| && RowWrite(r.actions[k]) ==> NewRow(r.states[i], r.states[j]))
    && (forall i, k, j :: 0 <= i <= k < j <= |r.actions| && ChildWrite(r.states[k], r.actions[k]) ==>
          NewChildren(r.states[i], r.states[j]))
  }

  predicate NewRow(s: State, t: State) {
    s.session.Some? && t.session.Some? ==> s.session.value.row != t.session.value.row
  }

  predicate NewChildren(s: State, t: State) {
    s.session.Some? && t.session.Some? ==> Children(s) != Children(t)
  }

  // ---------------------------------------------------------------- what a sweep holds is what it read

  predicate HandTraced(r: Run, n: nat, w: nat)
    requires r.Valid() && n <= |r.actions|
  {
    w in r.states[n].hands ==>
      var (h, l, g) := (r.states[n].hands[w], LastList(r, n, w), LastGather(r, n, w));
      && 0 <= l < n && r.states[l].session.Some?
      && (h.Listed? ==> h.row == r.states[l].session.value.row)
      && (!h.Listed? ==>
            && l < g < n && h.bundle == Session(r.states[l].session.value.row, Children(r.states[g])))
  }

  lemma {:induction false} HandsTraced(r: Run, n: nat, w: nat)
    requires r.Valid() && n <= |r.actions| && r.states[0].hands == map[]
    ensures HandTraced(r, n, w)
  {
    if n > 0 {
      HandsTraced(r, n - 1, w);
      assert Step(r.states[n - 1], r.actions[n - 1], r.states[n]);
    }
  }

  /** The object is what the latest upload carried. */
  lemma {:induction false} StoredTraced(r: Run, n: nat)
    requires r.Valid() && n <= |r.actions| && r.states[0].stored.None? && r.states[0].committed.None?
    ensures var p := LastUpload(r, n);
            r.states[n].stored.Some? ==>
              && p >= 0 && r.actions[p].w in r.states[p].hands && r.states[p].hands[r.actions[p].w].Uploading?
              && r.states[n].stored == Some(r.states[p].hands[r.actions[p].w].bundle)
  {
    if n > 0 {
      StoredTraced(r, n - 1);
      assert Step(r.states[n - 1], r.actions[n - 1], r.states[n]);
    }
  }

  /** The committed bundle is what the deleting sweep carried. */
  lemma {:induction false} CommittedTraced(r: Run, x: Session, n: nat)
    requires r.Valid() && n <= |r.actions| && r.states[0] == Start(x)
    ensures var d := LastDeletion(r, n);
            && (d >= 0 <==> r.states[n].pointer)
            && (d >= 0 ==> r.states[n].committed == Some(r.states[d].hands[r.actions[d].w].bundle))
  {
    if n > 0 {
      CommittedTraced(r, x, n - 1);
      assert Step(r.states[n - 1], r.actions[n - 1], r.states[n]);
    }
  }

  // ---------------------------------------------------------------- same version, same content

  lemma {:induction false} RowKept(r: Run, i: nat, j: nat)
    requires r.Valid() && i <= j <= |r.actions| && r.states[i].session.Some? && !RowWriteIn(r, i, j)
    ensures r.states[j].session.Some? ==> r.states[j].session.value.row == r.states[i].session.value.row
  {
    if i < j {
      assert !RowWriteIn(r, i, j - 1);
      RowKept(r, i, j - 1);
      assert Step(r.states[j - 1], r.actions[j - 1], r.states[j]);
    }
  }

  lemma {:induction false} ChildrenKept(r: Run, i: nat, j: nat)
    requires r.Valid() && i <= j <= |r.actions| && !ChildWriteIn(r, i, j)
    ensures Children(r.states[i]) == Children(r.states[j])
  {
    if i < j {
      assert !ChildWriteIn(r, i, j - 1);
      ChildrenKept(r, i, j - 1);
      assert Step(r.states[j - 1], r.actions[j - 1], r.states[j]);
    }
  }

  lemma {:induction false} ChildrenDiffer(r: Run, i: nat, k: nat, j: nat)
    requires r.Valid() && Novel(r) && i <= k < j <= |r.actions| && ChildWrite(r.states[k], r.actions[k])
    requires r.states[i].session.Some? || r.states[j].session.Some?
    ensures Children(r.states[i]) != Children(r.states[j])
  {
    assert NewChildren(r.states[i], r.states[j]);
  }

  lemma {:induction false} RowVersions(r: Run, i: nat, j: nat)
    requires r.Valid() && i <= |r.actions| && j <= |r.actions| && r.states[i].session.Some? && r.states[j].session.Some?
    ensures !RowWriteIn(r, i, j) ==> r.states[i].session.value.row == r.states[j].session.value.row
    ensures Novel(r) && RowWriteIn(r, i, j) ==> r.states[i].session.value.row != r.states[j].session.value.row
  {
    if RowWriteIn(r, i, j) {
      var k :| (i <= k < j || j <= k < i) && RowWrite(r.actions[k]);
      if Novel(r) { assert if i < j then NewRow(r.states[i], r.states[j]) else NewRow(r.states[j], r.states[i]); }
    } else if i <= j {
      RowKept(r, i, j);
    } else {
      RowKept(r, j, i);
    }
  }

  lemma {:induction false} ChildVersions(r: Run, i: nat, j: nat)
    requires r.Valid() && i <= |r.actions| && j <= |r.actions|
    ensures !(ChildWriteIn(r, i, j) && (r.states[i].session.Some? || r.states[j].session.Some?)) ==>
              Children(r.states[i]) == Children(r.states[j])
    ensures Novel(r) && ChildWriteIn(r, i, j) && (r.states[i].session.Some? || r.states[j].session.Some?) ==>
              Children(r.states[i]) != Children(r.states[j])
  {
    if ChildWriteIn(r, i, j) {
      if Novel(r) && (r.states[i].session.Some? || r.states[j].session.Some?) {
        var k :| 0 <= k < |r.actions| && (i <= k < j || j <= k < i) && ChildWrite(r.states[k], r.actions[k]);
        if i < j { ChildrenDiffer(r, i, k, j); } else { ChildrenDiffer(r, j, k, i); }
      }
    } else if i <= j {
      ChildrenKept(r, i, j);
    } else {
      ChildrenKept(r, j, i);
    }
  }

  /** Two bundles differ only if they were read apart, and exactly then if writes are novel. */
  lemma {:induction false} BundlesDiffer(r: Run, x: Session, i: nat, v: nat, j: nat, w: nat)
    requires r.Valid() && r.states[0] == Start(x) && i <= |r.actions| && j <= |r.actions|
    requires v in r.states[i].hands && !r.states[i].hands[v].Listed?
    requires w in r.states[j].hands && !r.states[j].hands[w].Listed?
    ensures r.states[i].hands[v].bundle != r.states[j].hands[w].bundle ==> ReadApart(r, i, v, j, w)
    ensures Novel(r) && ReadApart(r, i, v, j, w) ==> r.states[i].hands[v].bundle != r.states[j].hands[w].bundle
  {
    HandsTraced(r, i, v);
    HandsTraced(r, j, w);
    RowVersions(r, LastList(r, i, v), LastList(r, j, w));
    ChildVersions(r, LastGather(r, i, v), LastGather(r, j, w));
  }

  // ---------------------------------------------------------------- the exact schedules

  lemma {:induction false} ClobbersMeans(r: Run, x: Session, i: nat)
    requires r.Valid() && r.states[0] == Start(x) && i < |r.actions|
    ensures Clobbers(r.states[i], r.actions[i]) ==> Replaces(r, i)
    ensures Novel(r) && Replaces(r, i) ==> Clobbers(r.states[i], r.actions[i])
  {
    assert Step(r.states[i], r.actions[i], r.states[i + 1]);
    RunPlaced(r, x, i);
    var a := r.actions[i];
    if a.Put? && a.outcome.TookEffect() && r.states[i].pointer {
      CommittedTraced(r, x, i);
      var d := LastDeletion(r, i);
      BundlesDiffer(r, x, d, r.actions[d].w, i, a.w);
    } else if Deletes(r.states[i], a) {
      StoredTraced(r, i);
      var p := LastUpload(r, i);
      BundlesDiffer(r, x, p, r.actions[p].w, i, a.w);
    } else if a.Put? {
      CommittedTraced(r, x, i);
    }
  }

  /** With any number of overlapping sweeps, writers and re-insertions: the archived object stays the committed bundle
      as long as no step replaces it by one that was read apart. If writes are novel, no other schedule keeps it. */
  lemma {:induction false} ArchiveIntactIff(r: Run, x: Session, n: nat)
    requires r.Valid() && r.states[0] == Start(x) && n <= |r.actions|
    ensures Orderly(r, n) ==> IntactUpTo(r, n)
    ensures Novel(r) ==> (IntactUpTo(r, n) <==> Orderly(r, n))
  {
    IntactIffUnclobbered(r, x, n);
    forall i | 0 <= i < n
      ensures Clobbers(r.states[i], r.actions[i]) ==> Replaces(r, i)
      ensures Novel(r) && Replaces(r, i) ==> Clobbers(r.states[i], r.actions[i])
    {
      ClobbersMeans(r, x, i);
    }
  }

  // ---------------------------------------------------------------- without writers

  /** Nothing is written to the session or inserted again; it may still be deleted, by a sweep or by a cascade. */
  predicate Unwritten(r: Run) {
    forall i :: 0 <= i < |r.actions| ==> !r.actions[i].Insert? && !r.actions[i].UpdateChildren?
  }

  lemma {:induction false} UnwrittenKeeps(r: Run, x: Session, i: nat, j: nat)
    requires r.Valid() && r.states[0] == Start(x) && Unwritten(r) && i <= j <= |r.actions|
    requires i == 0 || r.states[i].session.None? || r.states[i].session.value == x
    ensures r.states[j].session.Some? ==> r.states[j].session.value == x && r.states[i].session.Some?
  {
    if i < j {
      UnwrittenKeeps(r, x, i, j - 1);
      assert Step(r.states[j - 1], r.actions[j - 1], r.states[j]);
    }
  }

  /** After a deletion or a cascade the session is missing for good. */
  lemma {:induction false} StaysMissing(r: Run, x: Session, k: nat, j: nat)
    requires r.Valid() && r.states[0] == Start(x) && Unwritten(r) && k < j <= |r.actions|
    requires ChildWrite(r.states[k], r.actions[k])
    ensures r.states[j].session.None?
  {
    assert Step(r.states[k], r.actions[k], r.states[k + 1]);
    UnwrittenKeeps(r, x, k + 1, j);
  }

  lemma {:induction false} UnwrittenIsNovel(r: Run, x: Session)
    requires r.Valid() && r.states[0] == Start(x) && Unwritten(r) && x.children != NO_CHILDREN
    ensures Novel(r)
  {
    forall i | 0 <= i < |r.states| && r.states[i].session.Some? ensures Children(r.states[i]) != NO_CHILDREN {
      UnwrittenKeeps(r, x, 0, i);
    }
    forall i, k, j | 0 <= i <= k < j <= |r.actions| && ChildWrite(r.states[k], r.actions[k])
      ensures NewChildren(r.states[i], r.states[j])
    {
      StaysMissing(r, x, k, j);
    }
  }

  /** Step i uploads what its sweep gathered after the deletion. */
  predicate GatheredLate(r: Run, i: nat)
    requires i < |r.actions| < |r.states|
  {
    Uploads(r.actions[i]) && 0 <= LastDeletion(r, i) < LastGather(r, i, r.actions[i].w)
  }

  /** Without writers two gatherings before a deletion are not apart. */
  lemma {:induction false} TogetherBefore(r: Run, x: Session, g: nat, h: nat, n: nat)
    requires r.Valid() && r.states[0] == Start(x) && Unwritten(r) && g <= n && h <= n <= |r.actions|
    requires r.states[n].session.Some?
    ensures !ChildWriteIn(r, g, h)
  {
    if ChildWriteIn(r, g, h) {
      var k :| 0 <= k < |r.actions| && (g <= k < h || h <= k < g) && ChildWrite(r.states[k], r.actions[k]);
      StaysMissing(r, x, k, n);
    }
  }

  /** A bundle gathered before the deletion and another one are apart exactly if that one was gathered after it. */
  lemma {:induction false} ApartByDeletion(r: Run, x: Session, g: nat, d: nat, h: nat, n: nat)
    requires r.Valid() && r.states[0] == Start(x) && Unwritten(r) && g < d < n && h < n <= |r.actions|
    requires d == LastDeletion(r, n) && h != d
    ensures ChildWriteIn(r, g, h) <==> d < h
    ensures r.states[g].session.Some?
  {
    if d < h { assert g <= d < h && ChildWrite(r.states[d], r.actions[d]); }
    else { TogetherBefore(r, x, g, h, d); }
    if r.states[g].session.None? { UnwrittenKeeps(r, x, g, d); }
  }

  lemma {:induction false} ReplacesIsLate(r: Run, x: Session, i: nat)
    requires r.Valid() && r.states[0] == Start(x) && Unwritten(r) && i < |r.actions|
    ensures Replaces(r, i) <==> GatheredLate(r, i)
  {
    assert Step(r.states[i], r.actions[i], r.states[i + 1]);
    var a := r.actions[i];
    var d := LastDeletion(r, i);
    if Uploads(a) && d >= 0 {
      HandsTraced(r, i, a.w);
      HandsTraced(r, d, r.actions[d].w);
      ApartByDeletion(r, x, LastGather(r, d, r.actions[d].w), d, LastGather(r, i, a.w), i);
    } else if Deletes(r.states[i], a) && LastUpload(r, i) >= 0 {
      var p := LastUpload(r, i);
      var (g, h) := (LastGather(r, p, r.actions[p].w), LastGather(r, i, a.w));
      if g >= 0 && h >= 0 { TogetherBefore(r, x, g, h, i); }
    }
  }

  /** When nothing is written to the session while sweeps overlap, its archive is lost exactly through an upload whose
      sweep gathered after the deletion. */
  lemma {:induction false} LateGatherIff(r: Run, x: Session, n: nat)
    requires r.Valid() && r.states[0] == Start(x) && n <= |r.actions| && Unwritten(r) && x.children != NO_CHILDREN
    ensures IntactUpTo(r, n) <==> forall i :: 0 <= i < n ==> !GatheredLate(r, i)
  {
    UnwrittenIsNovel(r, x);
    ArchiveIntactIff(r, x, n);
    forall i | 0 <= i < n ensures Replaces(r, i) <==> GatheredLate(r, i) { ReplacesIsLate(r, x, i); }
  }

  // ---------------------------------------------------------------- sweeps that take turns

  /** Sweeps that take turns lose the archive exactly by uploading the session again after it was archived. */
  lemma {:induction false} TurnsIff(r: Run, x: Session, n: nat)
    requires r.Valid() && r.states[0] == Start(x) && n <= |r.actions| && OneAtATime(r) && Novel(r)
    ensures IntactUpTo(r, n) <==> forall i :: 0 <= i < n ==> !Reuploads(r.states[i], r.actions[i])
  {
    TurnsKeepTheArchive(r, x, n);
    IntactIffUnclobbered(r, x, n);
    forall i | 0 <= i < n && Reuploads(r.states[i], r.actions[i]) ensures Clobbers(r.states[i], r.actions[i]) {
      ReuploadReadsApart(r, x, i);
      ClobbersMeans(r, x, i);
    }
  }

  lemma {:induction false} ReuploadReadsApart(r: Run, x: Session, i: nat)
    requires r.Valid() && r.states[0] == Start(x) && i < |r.actions| && OneAtATime(r)
    requires Reuploads(r.states[i], r.actions[i])
    ensures Replaces(r, i)
  {
    assert Step(r.states[i], r.actions[i], r.states[i + 1]);
    var w := r.actions[i].w;
    CommittedTraced(r, x, i);
    var d := LastDeletion(r, i);
    assert Step(r.states[d], r.actions[d], r.states[d + 1]);
    HandsTraced(r, i, w);
    HandsTraced(r, d, r.actions[d].w);
    RunSolo(r, x, d);
    RunPlaced(r, x, d);
    StepSolo(r.states[d], r.actions[d], r.states[d + 1]);
    ListedAfter(r, d + 1, i, w);
    InsertedBetween(r, d + 1, LastList(r, i, w));
  }

  /** Where no hand is, every later hand is listed later. */
  lemma {:induction false} ListedAfter(r: Run, m: nat, n: nat, w: nat)
    requires r.Valid() && m <= n <= |r.actions| && r.states[m].hands == map[] && w in r.states[n].hands
    ensures LastList(r, n, w) >= m
  {
    if m < n {
      assert Step(r.states[n - 1], r.actions[n - 1], r.states[n]);
      if w in r.states[n - 1].hands { ListedAfter(r, m, n - 1, w); }
    }
  }

  /** A session that was missing and is there has been inserted. */
  lemma {:induction false} InsertedBetween(r: Run, m: nat, n: nat)
    requires r.Valid() && m <= n <= |r.actions| && r.states[m].session.None? && r.states[n].session.Some?
    ensures exists k :: m <= k < n && RowWrite(r.actions[k])
  {
    assert Step(r.states[n - 1], r.actions[n - 1], r.states[n]);
    if r.states[n - 1].session.Some? { InsertedBetween(r, m, n - 1); } else { assert RowWrite(r.actions[n - 1]); }
  }

  // ---------------------------------------------------------------- losing runs

  /** With a writer the deletion itself can rest on a replaced upload: the slower sweep stores the older children over
      the newer ones, and the faster sweep then deletes the session. Every call succeeds. */
  lemma {:induction false} StaleUploadIsCommitted(row: nat, older: nat, newer: nat) returns (r: Run)
    requires older != newer
    ensures r.Valid() && r.states[0] == Start(Session(row, older))
    ensures r.Last().session.None? && r.Last().committed == Some(Session(row, newer))
    ensures r.Last().stored == Some(Session(row, older))
  {
    var (x, y) := (Session(row, older), Session(row, newer));
    r := Run([Start(x)], []);
    r := Onward(r, List(0), State(Some(x), false, None, map[0 := Listed(row)], None));
    r := Onward(r, Gather(0), State(Some(x), false, None, map[0 := Uploading(x)], None));
    r := Onward(r, UpdateChildren(newer), State(Some(y), false, None, map[0 := Uploading(x)], None));
    r := Onward(r, List(1), State(Some(y), false, None, map[0 := Uploading(x), 1 := Listed(row)], None));
    r := Onward(r, Gather(1), State(Some(y), false, None, map[0 := Uploading(x), 1 := Uploading(y)], None));
    r := Onward(r, Put(1, Ok), State(Some(y), false, Some(y), map[0 := Uploading(x), 1 := Writing(y)], None));
    r := Onward(r, Put(0, Ok), State(Some(y), false, Some(x), map[0 := Writing(x), 1 := Writing(y)], None));
    r := Onward(r, WriteTx(1, Ok), State(None, true, Some(x), map[0 := Writing(x)], Some(y)));
  }
}
