/** Run, archiveOne and uploadWithRetry as the process executes them (internal/archive/cron.go). A ghost
    history ties the code to the protocol in Archive.dfy: whatever the calls answer, it takes only
    protocol steps, so every intermediate point is one of the crash points proved safe there. */
module ArchiveSweep {
  import opened Common
  import opened Archive
  import opened SessionTree

  /** Waits that start at `first` and double. */
  predicate Doubling(waits: seq<nat>, first: nat) {
    && (waits != [] ==> waits[0] == first)
    && (forall j, k :: 0 <= j < |waits| && k == j + 1 < |waits| ==> waits[k] == 2 * waits[j])
  }

  lemma {:induction false} DoublingGrows(waits: seq<nat>, first: nat, next: nat)
    requires Doubling(waits, first) && next == if waits == [] then first else 2 * waits[|waits| - 1]
    ensures Doubling(waits + [next], first)
  {
  }

  /** What the calls for one session answer. `cancelled[k]` is ctx.Done winning the wait after attempt k. */
  datatype Calls = Calls(gather: bool, puts: seq<Outcome>, cancelled: seq<bool>, write: Outcome) {
    predicate Covers(retries: nat) { |puts| >= retries && |cancelled| >= retries }

    predicate UploadedAt(k: nat)
      requires k < |puts| && k <= |cancelled|
    {
      puts[k].Ok? && forall j :: 0 <= j < k ==> !puts[j].Ok? && !cancelled[j]
    }

    /** Some attempt within the budget succeeds, and nothing cancels the waits before it. */
    predicate Uploads(retries: nat)
      requires Covers(retries)
    {
      exists k :: 0 <= k < retries && UploadedAt(k)
    }

    predicate Archives(retries: nat)
      requires Covers(retries)
    {
      gather && Uploads(retries) && write.Ok?
    }
  }

  datatype Stats = Stats(eligible: nat, archived: nat, failed: nat)

  datatype Result = MeterFailed | Paused | ListFailed | Done(stats: Stats)

  /** The calls of a session bring its write transaction to take effect. */
  predicate Reaches(c: Calls, retries: nat)
    requires c.Covers(retries)
  {
    c.gather && c.Uploads(retries) && c.write.TookEffect()
  }

  /** Some of the first n listed sessions is archived and takes the session id with it. */
  predicate Cut(todo: seq<Listed>, calls: seq<Calls>, store: Store, retries: nat, n: nat, id: nat)
    requires n <= |todo| <= |calls| && forall i :: 0 <= i < |calls| ==> calls[i].Covers(retries)
  {
    exists j :: 0 <= j < n && Reaches(calls[j], retries) && todo[j].id !in store.pointers
                && Below(store.sessions, id, todo[j].id)
  }

  /** How many of the first n listed sessions have all their calls work, no pointer yet, and are not cut. */
  function Successes(todo: seq<Listed>, calls: seq<Calls>, store: Store, retries: nat, n: nat): nat
    requires n <= |todo| <= |calls| && forall i :: 0 <= i < |calls| ==> calls[i].Covers(retries)
  {
    if n == 0 then 0
    else
      var (rest, id) := (Successes(todo, calls, store, retries, n - 1), todo[n - 1].id);
      if calls[n - 1].Archives(retries) && id !in store.pointers && !Cut(todo, calls, store, retries, n - 1, id)
      then rest + 1 else rest
  }

  /** What the first n listed sessions have left of the table: what is not cut, on the same branches. */
  ghost predicate Leaves(todo: seq<Listed>, calls: seq<Calls>, store: Store, retries: nat, n: nat, left: Table)
    requires n <= |todo| <= |calls| && forall i :: 0 <= i < |calls| ==> calls[i].Covers(retries)
  {
    && (forall id :: id in left <==> id in store.sessions && !Cut(todo, calls, store, retries, n, id))
    && (forall id, top :: Below(left, id, top) <==> id in left && Below(store.sessions, id, top))
  }

  /** The n-th session deletes its branch if its calls reach that far, it has no pointer and it is still there. */
  lemma {:induction false} LeavesGrow(
      todo: seq<Listed>, calls: seq<Calls>, store: Store, retries: nat, n: nat, left: Table, next: Table)
    requires n < |todo| <= |calls| && forall i :: 0 <= i < |calls| ==> calls[i].Covers(retries)
    requires Leaves(todo, calls, store, retries, n, left)
    requires var id := todo[n].id;
             next == if Reaches(calls[n], retries) && id in left && id !in store.pointers
                     then Without(left, id) else left
    ensures Leaves(todo, calls, store, retries, n + 1, next)
  {
    var top := todo[n].id;
    forall id ensures id in next <==> id in store.sessions && !Cut(todo, calls, store, retries, n + 1, id) {
      CutGrows(todo, calls, store, retries, n, id);
      if Below(store.sessions, id, top) && top !in left && Reaches(calls[n], retries) && top !in store.pointers {
        TopIsThere(store.sessions, id, top);
        CutBelow(todo, calls, store, retries, n, top, id);
      }
    }
    forall id, up ensures Below(next, id, up) <==> id in next && Below(store.sessions, id, up) {
      if next != left { BelowAfterDelete(left, top, id, up); }
    }
  }

  lemma {:induction false} CutGrows(todo: seq<Listed>, calls: seq<Calls>, store: Store, retries: nat, n: nat, id: nat)
    requires n < |todo| <= |calls| && forall i :: 0 <= i < |calls| ==> calls[i].Covers(retries)
    ensures Cut(todo, calls, store, retries, n + 1, id) <==>
              || Cut(todo, calls, store, retries, n, id)
              || (Reaches(calls[n], retries) && todo[n].id !in store.pointers && Below(store.sessions, id, todo[n].id))
  {
  }

  /** What lies below a cut session is cut. */
  lemma {:induction false} CutBelow(
      todo: seq<Listed>, calls: seq<Calls>, store: Store, retries: nat, n: nat, top: nat, id: nat)
    requires n <= |todo| <= |calls| && forall i :: 0 <= i < |calls| ==> calls[i].Covers(retries)
    requires Cut(todo, calls, store, retries, n, top) && Below(store.sessions, id, top)
    ensures Cut(todo, calls, store, retries, n, id)
  {
    var j :| 0 <= j < n && Reaches(calls[j], retries) && todo[j].id !in store.pointers
             && Below(store.sessions, top, todo[j].id);
    BelowTransitive(store.sessions, id, top, todo[j].id);
  }

  /** Where the loop over the listed sessions stands after n of them. */
  ghost predicate Progress(
      todo: seq<Listed>, calls: seq<Calls>, first: Store, retries: nat, n: nat, store: Store, archived: nat)
    requires n <= |todo| <= |calls| && forall i :: 0 <= i < |calls| ==> calls[i].Covers(retries)
  {
    && archived <= n && archived == Successes(todo, calls, first, retries, n)
    && Leaves(todo, calls, first, retries, n, store.sessions)
    && (forall j :: n <= j < |todo| ==> (todo[j].id in store.pointers <==> todo[j].id in first.pointers))
  }

  predicate Distinct(todo: seq<Listed>) { forall i, j :: 0 <= i < j < |todo| ==> todo[i].id != todo[j].id }

  lemma {:induction false} ProgressGrows(
      todo: seq<Listed>, calls: seq<Calls>, first: Store, retries: nat, n: nat, store: Store, next: Store,
      archived: nat, ok: bool)
    requires n < |todo| <= |calls| && forall i :: 0 <= i < |calls| ==> calls[i].Covers(retries)
    requires Progress(todo, calls, first, retries, n, store, archived) && Distinct(todo) && todo[n].id in first.sessions
    requires ok <==> calls[n].Archives(retries) && todo[n].id in store.sessions && todo[n].id !in store.pointers
    requires var (cur, c) := (todo[n], calls[n]);
             var open := cur.id in store.sessions && cur.id !in store.pointers;
             var deletes := Reaches(c, retries) && open;
             && next.sessions == (if deletes then Without(store.sessions, cur.id) else store.sessions)
             && next.pointers == if deletes then store.pointers[cur.id := cur.ObjectKey()] else store.pointers
    ensures Progress(todo, calls, first, retries, n + 1, next, if ok then archived + 1 else archived)
  {
    LeavesGrow(todo, calls, first, retries, n, store.sessions, next.sessions);
  }

  class Archiver {
    var store: Store
    ghost var history: Run

    ghost predicate Valid() reads this {
      history.Valid() && history.states[0] == INIT && history.Last().store == store
    }

    ghost function Sweep(): Archive.Sweep reads this
      requires Valid()
    {
      history.Last().sweep
    }

    ghost method Record(a: Action, t: State)
      requires history.Valid() && history.states[0] == INIT && Archive.Step(history.Last(), a, t)
      modifies this`history
      ensures history.Valid() && history.states[0] == INIT && history.Last() == t
    {
      history := history.Then(a, t);
    }

    method PutObject(cur: Listed, bundle: Session, ghost todo: seq<Listed>, o: Outcome)
      requires Valid() && Sweep() == Uploading(cur, bundle, todo)
      modifies this
      ensures Valid() && Sweep() == if o.Ok? then Writing(cur, bundle, todo) else Uploading(cur, bundle, todo)
      ensures store.sessions == old(store).sessions && store.pointers == old(store).pointers
      ensures store.r2 == if o.TookEffect() then old(store).r2[cur.ObjectKey() := bundle] else old(store).r2
    {
      ghost var s := history.Last();
      if o.TookEffect() { store := store.(r2 := store.r2[cur.ObjectKey() := bundle]); }
      Record(Put(o), s.(store := store, sweep := if o.Ok? then Writing(cur, bundle, todo) else s.sweep));
    }

    /** At most `retries` attempts; the waits between them start at `backoff` and double. */
    method UploadWithRetry(cur: Listed, bundle: Session, ghost todo: seq<Listed>, c: Calls, retries: nat, backoff: nat)
      returns (ok: bool, waits: seq<nat>)
      requires Valid() && Sweep() == Uploading(cur, bundle, todo) && c.Covers(retries) && retries > 0
      modifies this
      ensures Valid() && Sweep() == if ok then Writing(cur, bundle, todo) else Uploading(cur, bundle, todo)
      ensures ok <==> c.Uploads(retries)
      ensures ok ==> cur.ObjectKey() in store.r2 && store.r2[cur.ObjectKey()] == bundle
      ensures store.sessions == old(store).sessions && store.pointers == old(store).pointers
      ensures |waits| < retries && Doubling(waits, backoff)
    {
      var attempt, delay := 0, backoff;
      waits := [];
      while attempt < retries
        invariant Valid() && Sweep() == Uploading(cur, bundle, todo) && attempt < retries && |waits| == attempt
        invariant store.sessions == old(store).sessions && store.pointers == old(store).pointers
        invariant Doubling(waits, backoff) && delay == if waits == [] then backoff else 2 * waits[|waits| - 1]
        invariant forall j :: 0 <= j < attempt ==> !c.puts[j].Ok? && !c.cancelled[j]
        decreases retries - attempt
      {
        PutObject(cur, bundle, todo, c.puts[attempt]);
        if c.puts[attempt].Ok? {
          assert c.UploadedAt(attempt);
          return true, waits;
        }
        if attempt + 1 == retries { return false, waits; }
        if c.cancelled[attempt] { return false, waits; }
        DoublingGrows(waits, backoff, delay);
        waits := waits + [delay];
        delay := delay * 2;
        attempt := attempt + 1;
      }
    }

    /** Fails on a session that has a pointer already or is missing, whatever Postgres answers to the rest. */
    method WriteTransaction(cur: Listed, bundle: Session, ghost todo: seq<Listed>, o: Outcome) returns (ok: bool)
      requires Valid() && Sweep() == Writing(cur, bundle, todo)
      modifies this
      ensures Valid() && Sweep() == Next(todo)
      ensures ok <==> o.Ok? && cur.id in old(store).sessions && cur.id !in old(store).pointers
      ensures store == if o.TookEffect() && cur.id in old(store).sessions && cur.id !in old(store).pointers
                       then Store(Without(old(store).sessions, cur.id),
                                  old(store).pointers[cur.id := cur.ObjectKey()], old(store).r2)
                       else old(store)
    {
      ghost var s := history.Last();
      var id := cur.id;
      ok := o.Ok? && id in store.sessions && id !in store.pointers;
      if o.TookEffect() && id in store.sessions && id !in store.pointers {
        ghost var x := store.sessions[id];
        store := Store(Without(store.sessions, id), store.pointers[id := cur.ObjectKey()], store.r2);
        ghost var touched := if id in s.touched then s.archivedTouched + {id} else s.archivedTouched;
        Record(WriteTx(o), s.(store := store, sweep := Next(todo), gathered := s.gathered[id := bundle],
                              deleted := s.deleted[id := x], archivedTouched := touched));
      } else if o.TookEffect() && id in store.pointers {
        Record(WriteTx(o), s.(sweep := Next(todo), violations := s.violations + {id}));
      } else {
        Record(WriteTx(o), s.(sweep := Next(todo)));
      }
    }

    /** The whole pipeline of the first listed session, which may be gone by now. */
    method ArchiveOne(ghost todo: seq<Listed>, cur: Listed, c: Calls, retries: nat, backoff: nat) returns (ok: bool)
      requires Valid() && Sweep() == Next([cur] + todo) && c.Covers(retries) && retries > 0
      modifies this
      ensures Valid() && Sweep() == Next(todo)
      ensures ok <==> c.Archives(retries) && cur.id in old(store).sessions && cur.id !in old(store).pointers
      ensures ok ==> cur.ObjectKey() in store.r2
                     && store.r2[cur.ObjectKey()] == Session(cur.row, old(store).sessions[cur.id].children)
      ensures var deletes := Reaches(c, retries) && cur.id in old(store).sessions && cur.id !in old(store).pointers;
              && store.sessions == (if deletes then Without(old(store).sessions, cur.id) else old(store).sessions)
              && store.pointers
                 == if deletes then old(store).pointers[cur.id := cur.ObjectKey()] else old(store).pointers
    {
      ghost var s := history.Last();
      assert ([cur] + todo)[1..] == todo;
      if !c.gather {
        Record(Gather(false), s.(sweep := Next(todo)));
        return false;
      }
      var bundle := Session(cur.row, if cur.id in store.sessions then store.sessions[cur.id].children else NO_CHILDREN);
      Record(Gather(true), s.(sweep := Uploading(cur, bundle, todo)));
      var waits;
      ok, waits := UploadWithRetry(cur, bundle, todo, c, retries, backoff);
      if !ok {
        Record(GiveUp, history.Last().(sweep := Next(todo)));
        return;
      }
      ok := WriteTransaction(cur, bundle, todo, c.write);
    }

    /** One round of the loop. */
    method ArchiveNext(
        todo: seq<Listed>, calls: seq<Calls>, ghost first: Store, retries: nat, n: nat, backoff: nat, archived: nat)
      returns (count: nat)
      requires Valid() && n < |todo| <= |calls| && Sweep() == Next(todo[n..]) && retries > 0 && Distinct(todo)
      requires forall i :: 0 <= i < |calls| ==> calls[i].Covers(retries)
      requires todo[n].id in first.sessions && Progress(todo, calls, first, retries, n, store, archived)
      modifies this
      ensures Valid() && Sweep() == Next(todo[n + 1..])
      ensures Progress(todo, calls, first, retries, n + 1, store, count)
    {
      assert todo[n..] == [todo[n]] + todo[n + 1..];
      ghost var before := store;
      var ok := ArchiveOne(todo[n + 1..], todo[n], calls[n], retries, backoff);
      ProgressGrows(todo, calls, first, retries, n, before, store, archived, ok);
      count := if ok then archived + 1 else archived;
    }

    /** The loop over the listed sessions. */
    method ArchiveAll(todo: seq<Listed>, calls: seq<Calls>, retries: nat, backoff: nat) returns (archived: nat)
      requires Valid() && Sweep() == Next(todo) && retries > 0 && |calls| == |todo|
      requires Distinct(todo) && forall i :: 0 <= i < |todo| ==> todo[i].id in store.sessions
      requires forall i :: 0 <= i < |calls| ==> calls[i].Covers(retries)
      modifies this
      ensures Valid() && Sweep() == Next([])
      ensures archived <= |todo| && archived == Successes(todo, calls, old(store), retries, |todo|)
    {
      archived := 0;
      for i := 0 to |todo|
        invariant Valid() && Sweep() == Next(todo[i..])
        invariant Progress(todo, calls, old(store), retries, i, store, archived)
      {
        archived := ArchiveNext(todo, calls, old(store), retries, i, backoff, archived);
      }
      assert todo[|todo|..] == [];
    }

    /** One sweep: guardrail, listing, then every listed session on its own. Unless it is paused or cannot list, every
        eligible session is counted once, as archived exactly when all its calls worked, it had no pointer and no
        session above it was archived before it. */
    method Run(
        meterOk: bool, overThreshold: bool, listing: Option<seq<Listed>>, calls: seq<Calls>, retries: nat, backoff: nat)
      returns (result: Result)
      requires Valid() && Sweep() == Idle && retries > 0
      requires listing.Some? ==> Listable(history.Last(), listing.value) && |calls| == |listing.value|
      requires forall i :: 0 <= i < |calls| ==> calls[i].Covers(retries)
      modifies this
      ensures Valid()
      ensures result.MeterFailed? <==> !meterOk
      ensures result.Paused? <==> meterOk && overThreshold
      ensures result.ListFailed? <==> meterOk && !overThreshold && listing.None?
      ensures !result.Done? ==> store == old(store)
      ensures result.Done? ==>
                && result.stats.eligible == |listing.value|
                && result.stats.eligible == result.stats.archived + result.stats.failed
                && result.stats.archived == Successes(listing.value, calls, old(store), retries, |calls|)
                && Sweep() == Idle
    {
      if !meterOk { return MeterFailed; }
      if overThreshold { return Paused; }
      if listing.None? { return ListFailed; }
      var todo := listing.value;
      Record(List(todo), history.Last().(sweep := Next(todo), touched := {}));
      assert todo[0..] == todo;
      var archived := ArchiveAll(todo, calls, retries, backoff);
      Record(Finish, history.Last().(sweep := Idle));
      result := Done(Stats(|todo|, archived, |todo| - archived));
    }
  }
}
