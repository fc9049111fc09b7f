/** The embedding queue shared by the embed workers (internal/embed/worker.go), as a state machine over the Redis and
    Postgres calls of any number of workers. */
module EmbedQueue {

  const MAX_ATTEMPTS: nat := 5

  /** An entry of embed:queue. `id` names the push it came from; a malformed entry fails to decode when popped. */
  datatype Job = Job(id: nat, attempts: nat, wellFormed: bool)

  datatype State = State(
    queue: seq<Job>,       // embed:queue, popped at the front
    held: seq<Job>,        // popped by some worker and not yet disposed of
    done: seq<Job>,        // upsert reported success
    dlq: seq<Job>,
    lost: seq<Job>,        // popped, and in no list any more
    rows: set<nat>,        // embeddings in Postgres
    pushed: set<nat>,
    charged: seq<nat>)     // the failures counted against jobs, in order

  const INIT := State([], [], [], [], [], {}, {}, [])

  datatype Action =
    | Push(job: Job)       // the ingest worker enqueues
    | Pop                  // BLPOP hands the head to a worker
    | Mislay               // the head is popped but malformed, or the reply is lost
    | Write(i: nat)        // an upsert takes effect
    | Finish(i: nat)       // ... and reports success
    | Requeue(i: nat)      // pushed back unchanged: rate limit or open circuit
    | Retry(i: nat)        // a charged failure, pushed back with one more attempt
    | Bury(i: nat)         // the last charged failure, pushed to the dead-letter list
    | Drop(i: nat)         // the worker gives up with an error

  function Without(s: seq<Job>, i: nat): seq<Job>
    requires i < |s|
  {
    s[..i] + s[i + 1..]
  }

  function Charge(j: Job): Job { j.(attempts := j.attempts + 1) }

  /** Lists a step does not touch. */
  predicate QueueKept(s: State, t: State) { t.queue == s.queue && t.pushed == s.pushed }
  predicate SinksKept(s: State, t: State) { t.done == s.done && t.dlq == s.dlq }
  predicate ChargesKept(s: State, t: State) { t.charged == s.charged }
  predicate LostKept(s: State, t: State) { t.lost == s.lost }
  predicate RowsKept(s: State, t: State) { t.rows == s.rows }

  predicate Step(s: State, a: Action, t: State) {
    match a
    case Push(j) =>
      && j.id !in s.pushed && j.attempts == 0
      && t.queue == s.queue + [j] && t.pushed == s.pushed + {j.id} && t.held == s.held
      && SinksKept(s, t) && ChargesKept(s, t) && LostKept(s, t) && RowsKept(s, t)
    case Pop =>
      && s.queue != [] && s.queue[0].wellFormed
      && t.queue == s.queue[1..] && t.pushed == s.pushed && t.held == s.held + [s.queue[0]]
      && SinksKept(s, t) && ChargesKept(s, t) && LostKept(s, t) && RowsKept(s, t)
    case Mislay =>
      && s.queue != []
      && t.queue == s.queue[1..] && t.pushed == s.pushed && t.held == s.held
      && t.lost == s.lost + [s.queue[0]]
      && SinksKept(s, t) && ChargesKept(s, t) && RowsKept(s, t)
    case Write(i) =>
      && i < |s.held|
      && t.rows == s.rows + {s.held[i].id} && t.held == s.held
      && QueueKept(s, t) && SinksKept(s, t) && ChargesKept(s, t) && LostKept(s, t)
    case Finish(i) =>
      && i < |s.held| && s.held[i].id in s.rows
      && t.held == Without(s.held, i) && t.done == s.done + [s.held[i]] && t.dlq == s.dlq
      && QueueKept(s, t) && ChargesKept(s, t) && LostKept(s, t) && RowsKept(s, t)
    case Requeue(i) =>
      && i < |s.held|
      && t.held == Without(s.held, i) && t.queue == s.queue + [s.held[i]] && t.pushed == s.pushed
      && SinksKept(s, t) && ChargesKept(s, t) && LostKept(s, t) && RowsKept(s, t)
    case Retry(i) =>
      && i < |s.held| && s.held[i].attempts + 1 < MAX_ATTEMPTS
      && t.held == Without(s.held, i) && t.queue == s.queue + [Charge(s.held[i])] && t.pushed == s.pushed
      && t.charged == s.charged + [s.held[i].id]
      && SinksKept(s, t) && LostKept(s, t) && RowsKept(s, t)
    case Bury(i) =>
      && i < |s.held| && s.held[i].attempts + 1 >= MAX_ATTEMPTS
      && t.held == Without(s.held, i) && t.dlq == s.dlq + [s.held[i]] && t.done == s.done
      && t.charged == s.charged + [s.held[i].id]
      && QueueKept(s, t) && LostKept(s, t) && RowsKept(s, t)
    case Drop(i) =>
      && i < |s.held|
      && t.held == Without(s.held, i) && t.lost == s.lost + [s.held[i]]
      && QueueKept(s, t) && SinksKept(s, t) && ChargesKept(s, t) && RowsKept(s, t)
  }

  datatype Run = Run(states: seq<State>, actions: seq<Action>) {
    ghost predicate Valid() {
      && |states| == |actions| + 1
      && forall i :: 0 <= i < |actions| ==> Step(states[i], actions[i], states[i + 1])
    }

    function Last(): State
      requires states != []
    {
      states[|states| - 1]
    }

    ghost function Then(a: Action, t: State): (r: Run)
      requires Valid() && Step(Last(), a, t)
      ensures r.Valid() && r.Last() == t && r.states[0] == states[0]
    {
      Run(states + [t], actions + [a])
    }
  }

  // ---------------------------------------------------------------- conservation

  function Count(s: seq<Job>, id: nat): nat {
    if s == [] then 0 else (if s[0].id == id then 1 else 0) + Count(s[1..], id)
  }

  lemma {:induction false} CountConcat(a: seq<Job>, b: seq<Job>, id: nat)
    ensures Count(a + b, id) == Count(a, id) + Count(b, id)
  {
    if a == [] {
      assert a + b == b;
    } else {
      assert (a + b)[1..] == a[1..] + b;
      CountConcat(a[1..], b, id);
    }
  }

  lemma {:induction false} CountAdd(a: seq<Job>, j: Job, id: nat)
    ensures Count(a + [j], id) == Count(a, id) + if j.id == id then 1 else 0
  {
    CountConcat(a, [j], id);
    assert Count([j][1..], id) == 0;
  }

  lemma {:induction false} CountWithout(a: seq<Job>, i: nat, id: nat)
    requires i < |a|
    ensures Count(Without(a, i), id) + (if a[i].id == id then 1 else 0) == Count(a, id)
  {
    CountConcat(a[..i], a[i + 1..], id);
    CountConcat(a[..i], a[i..], id);
    assert a == a[..i] + a[i..] && a[i..][1..] == a[i + 1..];
  }

  function Places(s: State, id: nat): nat {
    Count(s.queue, id) + Count(s.held, id) + Count(s.done, id) + Count(s.dlq, id) + Count(s.lost, id)
  }

  /** A pushed job is in exactly one place; nothing else is anywhere. */
  ghost predicate Conserved(s: State, id: nat) {
    Places(s, id) == if id in s.pushed then 1 else 0
  }

  lemma {:induction false} StepConserves(s: State, a: Action, t: State, id: nat)
    requires Step(s, a, t) && Conserved(s, id)
    ensures Conserved(t, id)
  {
    match a {
      case Push(j) => CountAdd(s.queue, j, id);
      case Pop => CountAdd(s.held, s.queue[0], id);
      case Mislay => CountAdd(s.lost, s.queue[0], id);
      case Write(i) =>
      case Finish(i) => CountWithout(s.held, i, id); CountAdd(s.done, s.held[i], id);
      case Requeue(i) => CountWithout(s.held, i, id); CountAdd(s.queue, s.held[i], id);
      case Retry(i) => CountWithout(s.held, i, id); CountAdd(s.queue, Charge(s.held[i]), id);
      case Bury(i) => CountWithout(s.held, i, id); CountAdd(s.dlq, s.held[i], id);
      case Drop(i) => CountWithout(s.held, i, id); CountAdd(s.lost, s.held[i], id);
    }
  }

  // ---------------------------------------------------------------- attempts count the charged failures

  function Charges(log: seq<nat>, id: nat): nat {
    if log == [] then 0 else Charges(log[..|log| - 1], id) + if log[|log| - 1] == id then 1 else 0
  }

  lemma {:induction false} ChargesAdd(log: seq<nat>, x: nat, id: nat)
    ensures Charges(log + [x], id) == Charges(log, id) + if x == id then 1 else 0
  {
    assert (log + [x])[..|log|] == log;
  }

  /** Every job of the list that carries this id has exactly this many attempts. */
  ghost predicate Shows(s: seq<Job>, id: nat, attempts: nat) {
    forall k :: 0 <= k < |s| && s[k].id == id ==> s[k].attempts == attempts
  }

  /** The attempts a job shows are the failures charged to it, always fewer than five; a buried job was charged five
      times and shows four. */
  ghost predicate Honest(s: State, id: nat) {
    var n := Charges(s.charged, id);
    && Shows(s.queue, id, n) && Shows(s.held, id, n) && Shows(s.done, id, n) && Shows(s.lost, id, n)
    && (Count(s.dlq, id) == 0 ==> n < MAX_ATTEMPTS)
    && (Count(s.dlq, id) > 0 ==> n == MAX_ATTEMPTS && Shows(s.dlq, id, MAX_ATTEMPTS - 1))
    && (id !in s.pushed ==> n == 0)
  }

  lemma {:induction false} Absent(s: seq<Job>, id: nat)
    requires Count(s, id) == 0
    ensures forall k :: 0 <= k < |s| ==> s[k].id != id
  {
    if s != [] {
      Absent(s[1..], id);
      assert forall k :: 0 < k < |s| ==> s[k] == s[1..][k - 1];
    }
  }

  /** While the job is held it is nowhere else, so what its charge changes shows nowhere else. */
  lemma {:induction false} HeldAlone(s: State, i: nat)
    requires i < |s.held| && Conserved(s, s.held[i].id)
    ensures var id := s.held[i].id;
            && Count(s.queue, id) == 0 && Count(Without(s.held, i), id) == 0
            && Count(s.done, id) == 0 && Count(s.dlq, id) == 0 && Count(s.lost, id) == 0
            && id in s.pushed
  {
    CountWithout(s.held, i, s.held[i].id);
  }

  lemma {:induction false} HeldAbsent(s: State, i: nat)
    requires i < |s.held| && Conserved(s, s.held[i].id)
    ensures forall n :: var id := s.held[i].id;
            Shows(s.queue, id, n) && Shows(Without(s.held, i), id, n) && Shows(s.done, id, n) && Shows(s.lost, id, n)
                && Shows(s.dlq, id, n)
  {
    HeldAlone(s, i);
    var id := s.held[i].id;
    Absent(s.queue, id);
    Absent(Without(s.held, i), id);
    Absent(s.done, id);
    Absent(s.lost, id);
    Absent(s.dlq, id);
  }

  lemma {:induction false} WithoutShows(s: seq<Job>, i: nat, id: nat, n: nat)
    requires i < |s| && Shows(s, id, n)
    ensures Shows(Without(s, i), id, n)
  {
  }

  lemma {:induction false} RetryHonest(s: State, i: nat, t: State, id: nat)
    requires Step(s, Retry(i), t) && Honest(s, id) && Conserved(s, s.held[i].id)
    ensures Honest(t, id)
  {
    ChargesAdd(s.charged, s.held[i].id, id);
    HeldAlone(s, i);
    if id == s.held[i].id {
      HeldAbsent(s, i);
      assert s.held[i].attempts == Charges(s.charged, id) && Shows(s.queue, id, Charges(t.charged, id));
    } else {
      WithoutShows(s.held, i, id, Charges(s.charged, id));
    }
  }

  lemma {:induction false} BuryHonest(s: State, i: nat, t: State, id: nat)
    requires Step(s, Bury(i), t) && Honest(s, id) && Conserved(s, s.held[i].id)
    ensures Honest(t, id)
  {
    ChargesAdd(s.charged, s.held[i].id, id);
    HeldAlone(s, i);
    CountAdd(s.dlq, s.held[i], id);
    if id == s.held[i].id {
      HeldAbsent(s, i);
    } else {
      WithoutShows(s.held, i, id, Charges(s.charged, id));
    }
  }

  /** Steps that charge nothing. */
  lemma {:induction false} MoveHonest(s: State, a: Action, t: State, id: nat)
    requires Step(s, a, t) && !a.Retry? && !a.Bury? && !a.Push? && Honest(s, id)
    ensures Honest(t, id)
  {
    if a.Finish? || a.Requeue? || a.Drop? {
      WithoutShows(s.held, a.i, id, Charges(s.charged, id));
    }
  }

  lemma {:induction false} PushHonest(s: State, j: Job, t: State, id: nat)
    requires Step(s, Push(j), t) && Honest(s, id) && Conserved(s, id)
    ensures Honest(t, id)
  {
    if id == j.id {
      Absent(s.queue, id);
    }
  }

  lemma {:induction false} StepHonest(s: State, a: Action, t: State, id: nat)
    requires Step(s, a, t) && Honest(s, id) && Conserved(s, id)
    requires (a.Retry? || a.Bury?) && a.i < |s.held| ==> Conserved(s, s.held[a.i].id)
    ensures Honest(t, id)
  {
    match a {
      case Push(j) => PushHonest(s, j, t, id);
      case Retry(i) => RetryHonest(s, i, t, id);
      case Bury(i) => BuryHonest(s, i, t, id);
      case _ => MoveHonest(s, a, t, id);
    }
  }

  // ---------------------------------------------------------------- whole runs

  lemma {:induction false} RunConserves(r: Run, i: nat, id: nat)
    requires r.Valid() && r.states[0] == INIT && i < |r.states|
    ensures Conserved(r.states[i], id)
  {
    if i > 0 {
      RunConserves(r, i - 1, id);
      StepConserves(r.states[i - 1], r.actions[i - 1], r.states[i], id);
    }
  }

  lemma {:induction false} RunHonest(r: Run, i: nat, id: nat)
    requires r.Valid() && r.states[0] == INIT && i < |r.states|
    ensures Honest(r.states[i], id)
  {
    if i > 0 {
      var (s, a) := (r.states[i - 1], r.actions[i - 1]);
      RunHonest(r, i - 1, id);
      RunConserves(r, i - 1, id);
      if (a.Retry? || a.Bury?) && a.i < |s.held| {
        RunConserves(r, i - 1, s.held[a.i].id);
      }
      StepHonest(s, a, r.states[i], id);
    }
  }

  /** Over every run, with any number of workers: a pushed job is in exactly one of the queue, a worker's hands, done,
      the dead-letter list or lost; a queued job shows the failures charged to it, at most four; and it is in the
      dead-letter list if and only if five failures were charged to it. */
  lemma {:induction false} EveryJobAccounted(r: Run, i: nat, id: nat)
    requires r.Valid() && r.states[0] == INIT && i < |r.states|
    ensures var s := r.states[i];
            && Places(s, id) == (if id in s.pushed then 1 else 0)
            && Shows(s.queue, id, Charges(s.charged, id)) && Charges(s.charged, id) <= MAX_ATTEMPTS
            && (Count(s.dlq, id) == 1 <==> Charges(s.charged, id) == MAX_ATTEMPTS)
  {
    RunConserves(r, i, id);
    RunHonest(r, i, id);
  }

  predicate Loses(a: Action) { a.Mislay? || a.Drop? }

  /** Unless a job was mislaid or dropped, every pushed job is in exactly one of the queue, a worker's hands, done
      and the dead-letter list. Which answers make a worker mislay or drop jobs is in EmbedWorker.dfy. */
  lemma {:induction false} NothingLostIff(r: Run, i: nat, id: nat)
    requires r.Valid() && r.states[0] == INIT && i < |r.states|
    ensures r.states[i].lost == [] <==> forall k :: 0 <= k < i ==> !Loses(r.actions[k])
    ensures var s := r.states[i];
            s.lost == [] && id in s.pushed ==>
                Count(s.queue, id) + Count(s.held, id) + Count(s.done, id) + Count(s.dlq, id) == 1
  {
    RunConserves(r, i, id);
    LostIff(r, i);
  }

  lemma {:induction false} LostIff(r: Run, i: nat)
    requires r.Valid() && r.states[0] == INIT && i < |r.states|
    ensures r.states[i].lost == [] <==> forall k :: 0 <= k < i ==> !Loses(r.actions[k])
  {
    if i > 0 {
      LostIff(r, i - 1);
      StepLost(r.states[i - 1], r.actions[i - 1], r.states[i]);
    }
  }

  lemma {:induction false} StepLost(s: State, a: Action, t: State)
    requires Step(s, a, t)
    ensures t.lost == [] <==> s.lost == [] && !Loses(a)
  {
  }

  /** A job counted as done has its embedding stored. */
  lemma {:induction false} DoneIsStored(r: Run, i: nat)
    requires r.Valid() && r.states[0] == INIT && i < |r.states|
    ensures forall k :: 0 <= k < |r.states[i].done| ==> r.states[i].done[k].id in r.states[i].rows
  {
    if i > 0 {
      DoneIsStored(r, i - 1);
      assert Step(r.states[i - 1], r.actions[i - 1], r.states[i]);
    }
  }
}
