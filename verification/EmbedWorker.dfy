/** One embed worker's batch (internal/embed/worker.go), tied to the shared queue machine: every Redis or Postgres call
    it makes is a step of that machine, and what each answer leads to is stated on the lists. */
module EmbedWorker {
  import opened Common
  import opened EmbedQueue

  const SECOND: nat := 1_000_000_000

  // ---------------------------------------------------------------- backoff

  function Shift(x: nat, n: nat): nat { if n == 0 then x else 2 * Shift(x, n - 1) }

  /** backoffForAttempt */
  function Backoff(attempt: int): nat {
    if attempt <= 1 then SECOND else Shift(SECOND, (if attempt > MAX_ATTEMPTS then MAX_ATTEMPTS else attempt) - 1)
  }

  /** One second, doubled per attempt, never over sixteen seconds. */
  lemma {:induction false} BackoffDoubles(attempt: int)
    ensures SECOND <= Backoff(attempt) <= 16 * SECOND
    ensures 1 <= attempt < MAX_ATTEMPTS ==> Backoff(attempt + 1) == 2 * Backoff(attempt)
    ensures attempt >= MAX_ATTEMPTS ==> Backoff(attempt) == 16 * SECOND
  {
    assert Shift(SECOND, 0) == SECOND && Shift(SECOND, 1) == 2 * SECOND && Shift(SECOND, 2) == 4 * SECOND;
    assert Shift(SECOND, 3) == 8 * SECOND && Shift(SECOND, 4) == 16 * SECOND;
  }

  // ---------------------------------------------------------------- where a failed batch goes

  predicate LastChance(j: Job) { j.attempts + 1 >= MAX_ATTEMPTS }

  /** The jobs that go back to the queue after a charged failure, each with one more attempt. */
  function Retried(batch: seq<Job>): seq<Job> {
    if batch == [] then []
    else Retried(batch[..|batch| - 1])
         + (if LastChance(batch[|batch| - 1]) then [] else [Charge(batch[|batch| - 1])])
  }

  /** The jobs whose last chance this was. */
  function Buried(batch: seq<Job>): seq<Job> {
    if batch == [] then []
    else Buried(batch[..|batch| - 1]) + (if LastChance(batch[|batch| - 1]) then [batch[|batch| - 1]] else [])
  }

  function Ids(batch: seq<Job>): seq<nat> {
    if batch == [] then [] else Ids(batch[..|batch| - 1]) + [batch[|batch| - 1].id]
  }

  /** The jobs of a batch whose upsert did not report success. */
  function Unstored(batch: seq<Job>, ups: seq<Outcome>): seq<Job>
    requires |batch| <= |ups|
  {
    if batch == [] then []
    else Unstored(batch[..|batch| - 1], ups) + (if ups[|batch| - 1].Ok? then [] else [batch[|batch| - 1]])
  }

  /** The jobs of a batch whose upsert reported success. */
  function Stored(batch: seq<Job>, ups: seq<Outcome>): seq<Job>
    requires |batch| <= |ups|
  {
    if batch == [] then []
    else Stored(batch[..|batch| - 1], ups) + (if ups[|batch| - 1].Ok? then [batch[|batch| - 1]] else [])
  }

  /** Every job of the batch was charged once: it went back with one more attempt, or was buried; nothing was lost. */
  ghost predicate Charged(s: State, batch: seq<Job>, t: State) {
    && t.queue == s.queue + Retried(batch) && t.dlq == s.dlq + Buried(batch)
    && t.charged == s.charged + Ids(batch) && t.lost == s.lost
  }

  lemma {:induction false} OneJob(j: Job)
    ensures Retried([j]) == if LastChance(j) then [] else [Charge(j)]
    ensures Buried([j]) == if LastChance(j) then [j] else []
    ensures Ids([j]) == [j.id]
  {
    assert [j][..0] == [];
  }

  lemma {:induction false} JobAdded(batch: seq<Job>, j: Job)
    ensures Retried(batch + [j]) == Retried(batch) + Retried([j])
    ensures Buried(batch + [j]) == Buried(batch) + Buried([j])
    ensures Ids(batch + [j]) == Ids(batch) + Ids([j])
  {
    OneJob(j);
    assert (batch + [j])[..|batch|] == batch;
  }

  lemma {:induction false} ChargedMore(s: State, batch: seq<Job>, m: State, j: Job, t: State)
    requires Charged(s, batch, m) && Charged(m, [j], t)
    ensures Charged(s, batch + [j], t)
  {
    JobAdded(batch, j);
    Regroup(s.queue, Retried(batch), Retried([j]));
    Regroup(s.dlq, Buried(batch), Buried([j]));
    Regroup(s.charged, Ids(batch), Ids([j]));
  }

  lemma {:induction false} ChargedNothing(s: State, t: State)
    requires Charged(s, [], t)
    ensures t.queue == s.queue && t.dlq == s.dlq && t.charged == s.charged && t.lost == s.lost
  {
  }

  /** A batch that was embedded: jobs whose upsert succeeded are done, the others were charged. */
  ghost predicate Embedded(s: State, batch: seq<Job>, ups: seq<Outcome>, t: State)
    requires |batch| <= |ups|
  {
    Charged(s, Unstored(batch, ups), t) && t.done == s.done + Stored(batch, ups)
  }

  /** The upserts of the first k jobs that took effect are in Postgres. */
  predicate Written(batch: seq<Job>, ups: seq<Outcome>, k: nat, rows: set<nat>)
    requires k <= |batch| <= |ups|
  {
    forall m :: 0 <= m < k && ups[m].TookEffect() ==> batch[m].id in rows
  }

  lemma {:induction false} WrittenMore(batch: seq<Job>, ups: seq<Outcome>, k: nat, rows: set<nat>, more: set<nat>)
    requires k < |batch| <= |ups| && Written(batch, ups, k, rows) && rows <= more
    requires ups[k].TookEffect() ==> batch[k].id in more
    ensures Written(batch, ups, k + 1, more)
  {
  }

  lemma {:induction false} EmbeddedMore(s: State, batch: seq<Job>, k: nat, ups: seq<Outcome>, m: State, t: State)
    requires k < |batch| <= |ups| && Embedded(s, batch[..k], ups, m)
    requires ups[k].Ok? ==> Charged(m, [], t) && t.done == m.done + [batch[k]]
    requires !ups[k].Ok? ==> Charged(m, [batch[k]], t) && t.done == m.done
    ensures Embedded(s, batch[..k + 1], ups, t)
  {
    var (was, now) := (batch[..k], batch[..k + 1]);
    assert now[..k] == was && now[k] == batch[k];
    if ups[k].Ok? {
      ChargedNothing(m, t);
      assert Unstored(now, ups) == Unstored(was, ups);
      Regroup(s.done, Stored(was, ups), [batch[k]]);
    } else {
      assert Stored(now, ups) == Stored(was, ups);
      ChargedMore(s, Unstored(was, ups), m, batch[k], t);
    }
  }

  // ---------------------------------------------------------------- the calls of one batch

  datatype Popped = Nothing | Broken | Got(job: Job)

  /** BLPOP times out, is cancelled, fails, or delivers the head; a cancelled or failed one may have popped it. */
  datatype PopCall = Timeout | Canceled(lostReply: bool) | Failure(lostReply: bool) | Deliver

  datatype Reply = Vectors(count: nat) | RateLimited | Unavailable | OtherError

  /** The answers to the calls a batch makes: the embedder's reply, whether the circuit is open afterwards, and per
      job the upsert, the backoff sleep and the push. */
  datatype Calls =
    Calls(reply: Reply, circuitOpen: bool, pause: bool, ups: seq<Outcome>, naps: seq<bool>, pushes: seq<Outcome>)
  {
    predicate For(n: nat) { n <= |ups| && n <= |naps| && n <= |pushes| }
  }

  // ---------------------------------------------------------------- what a batch loses

  /** What one job's own calls do with it: put it somewhere and say so, put it somewhere and report an
      error, or fail. */
  datatype Placing = Placed | PlacedLate | Dropped

  function Pushed(push: Outcome): Placing {
    match push case Ok => Placed case FailedAfterEffect => PlacedLate case Failed => Dropped
  }

  /** retryOrDLQ sleeps before it pushes, unless this was the last chance. */
  function Retrying(job: Job, nap: bool, push: Outcome): Placing {
    if !LastChance(job) && !nap then Dropped else Pushed(push)
  }

  function Storing(job: Job, up: Outcome, nap: bool, push: Outcome): Placing {
    if up.Ok? then Placed else Retrying(job, nap, push)
  }

  predicate Requeues(c: Calls) { c.reply.RateLimited? || (c.reply.Unavailable? && c.circuitOpen) }

  predicate Stores(batch: seq<Job>, c: Calls) { c.reply == Vectors(|batch|) }

  function Placings(batch: seq<Job>, c: Calls): (ps: seq<Placing>)
    requires c.For(|batch|)
    ensures |ps| == |batch|
  {
    seq(|batch|, k requires 0 <= k < |batch| =>
      if Requeues(c) then Pushed(c.pushes[k])
      else if Stores(batch, c) then Storing(batch[k], c.ups[k], c.naps[k], c.pushes[k])
      else Retrying(batch[k], c.naps[k], c.pushes[k]))
  }

  predicate AllPlaced(ps: seq<Placing>) { forall k :: 0 <= k < |ps| ==> ps[k].Placed? }

  /** The loops stop at the first error: the job that failed without effect and all jobs after it are in no list. */
  function Spilled(batch: seq<Job>, ps: seq<Placing>, k: nat): seq<Job>
    requires k <= |batch| == |ps|
    decreases |batch| - k
  {
    if k == |batch| then []
    else match ps[k]
         case Placed => Spilled(batch, ps, k + 1)
         case PlacedLate => batch[k + 1..]
         case Dropped => batch[k..]
  }

  /** The first error is a call without effect, or leaves jobs behind it. */
  predicate SpillsAt(ps: seq<Placing>, k: nat) {
    k < |ps| && AllPlaced(ps[..k]) && (ps[k].Dropped? || (ps[k].PlacedLate? && k + 1 < |ps|))
  }

  lemma {:induction false} SpilledFrom(batch: seq<Job>, ps: seq<Placing>, k: nat)
    requires k <= |batch| == |ps| && AllPlaced(ps[..k])
    ensures Spilled(batch, ps, k) != [] <==> exists j :: k <= j < |ps| && SpillsAt(ps, j)
    decreases |batch| - k
  {
    if k < |batch| {
      if ps[k].Placed? {
        assert ps[..k + 1] == ps[..k] + [ps[k]];
        SpilledFrom(batch, ps, k + 1);
      } else {
        forall j | k < j < |ps| ensures !SpillsAt(ps, j) { assert ps[..j][k] == ps[k]; }
        assert SpillsAt(ps, k) <==> ps[k].Dropped? || k + 1 < |ps|;
      }
    }
  }

  /** The jobs a batch loses: all of it when the pause after a rate limit is cut short, else what its loop leaves. */
  function LostBy(batch: seq<Job>, c: Calls): seq<Job>
    requires c.For(|batch|)
  {
    if c.reply.RateLimited? && !c.pause then batch else Spilled(batch, Placings(batch, c), 0)
  }

  predicate Loses(batch: seq<Job>, c: Calls)
    requires c.For(|batch|)
  {
    if c.reply.RateLimited? && !c.pause then batch != []
    else exists k :: 0 <= k < |batch| && SpillsAt(Placings(batch, c), k)
  }

  predicate HandledOk(batch: seq<Job>, c: Calls)
    requires c.For(|batch|)
  {
    AllPlaced(Placings(batch, c)) && (Requeues(c) ==> c.pause)
  }

  /** Exactly the losing answers lose jobs; a batch handled without an error loses none. */
  lemma {:induction false} LosesIff(batch: seq<Job>, c: Calls)
    requires c.For(|batch|)
    ensures LostBy(batch, c) != [] <==> Loses(batch, c)
    ensures HandledOk(batch, c) ==> LostBy(batch, c) == []
  {
    var ps := Placings(batch, c);
    assert ps[..0] == [];
    SpilledFrom(batch, ps, 0);
  }

  /** A pause cut short by shutdown loses a rate-limited batch but not one put back behind an open circuit, although
      both report an error. */
  lemma {:induction false} ShutdownLosesRateLimitedBatch(job: Job)
    ensures var limited := Calls(RateLimited, false, false, [Ok], [true], [Ok]);
            !HandledOk([job], limited) && LostBy([job], limited) == [job]
    ensures var broken := Calls(Unavailable, true, false, [Ok], [true], [Ok]);
            !HandledOk([job], broken) && LostBy([job], broken) == []
  {
    var broken := Calls(Unavailable, true, false, [Ok], [true], [Ok]);
    assert Placings([job], broken) == [Placed];
    assert Spilled([job], [Placed], 1) == [];
  }

  /** The upsert loop after k jobs. */
  ghost predicate StoredUpTo(s: State, batch: seq<Job>, c: Calls, ps: seq<Placing>, k: nat, t: State)
    requires k <= |batch| == |ps| && c.For(|batch|)
  {
    && s.rows <= t.rows && Embedded(s, batch[..k], c.ups, t) && Written(batch, c.ups, k, t.rows)
    && AllPlaced(ps[..k]) && Spilled(batch, ps, 0) == Spilled(batch, ps, k)
  }

  lemma {:induction false} StoredNext(s: State, batch: seq<Job>, c: Calls, ps: seq<Placing>, k: nat, m: State, t: State)
    requires k < |batch| == |ps| && c.For(|batch|) && StoredUpTo(s, batch, c, ps, k, m) && ps[k].Placed?
    requires t.rows == if c.ups[k].TookEffect() then m.rows + {batch[k].id} else m.rows
    requires c.ups[k].Ok? ==> Charged(m, [], t) && t.done == m.done + [batch[k]]
    requires !c.ups[k].Ok? ==> Charged(m, [batch[k]], t) && t.done == m.done
    ensures StoredUpTo(s, batch, c, ps, k + 1, t)
  {
    EmbeddedMore(s, batch, k, c.ups, m, t);
    WrittenMore(batch, c.ups, k, m.rows, t.rows);
    assert ps[..k + 1] == ps[..k] + [ps[k]];
  }

  lemma {:induction false} StoredStops(s: State, batch: seq<Job>, c: Calls, ps: seq<Placing>, k: nat, m: State)
    requires k < |batch| == |ps| && c.For(|batch|) && StoredUpTo(s, batch, c, ps, k, m) && !ps[k].Placed?
    ensures !AllPlaced(ps) && m.lost == s.lost && s.rows <= m.rows && Spilled(batch, ps, 0) == Spilled(batch, ps, k)
  {
  }

  lemma {:induction false} StoredAll(s: State, batch: seq<Job>, c: Calls, ps: seq<Placing>, t: State)
    requires |batch| == |ps| && c.For(|batch|) && StoredUpTo(s, batch, c, ps, |batch|, t)
    ensures AllPlaced(ps) && t.lost == s.lost + Spilled(batch, ps, 0) && s.rows <= t.rows
    ensures Embedded(s, batch, c.ups, t) && Written(batch, c.ups, |batch|, t.rows)
  {
    assert batch[..|batch|] == batch && ps[..|batch|] == ps;
  }

  // ---------------------------------------------------------------- what collecting a batch loses

  function Answer(queue: seq<Job>, c: PopCall): Popped {
    match c
    case Timeout => Nothing
    case Canceled(_) => Nothing
    case Failure(_) => Broken
    case Deliver => if queue == [] then Nothing else if queue[0].wellFormed then Got(queue[0]) else Broken
  }

  /** The head, if it was popped and is in no list. */
  function Mislaid(queue: seq<Job>, c: PopCall): (lost: seq<Job>)
    ensures lost <= queue
  {
    if queue == [] then []
    else match c
         case Timeout => []
         case Canceled(lostReply) => if lostReply then [queue[0]] else []
         case Failure(lostReply) => if lostReply then [queue[0]] else []
         case Deliver => if queue[0].wellFormed then [] else [queue[0]]
  }

  datatype Gathering = Gathering(batch: seq<Job>, mislaid: seq<Job>, broken: bool)

  /** Pops from the i-th on, until one does not deliver a job or the batch is full. */
  function Gather(queue: seq<Job>, pops: seq<PopCall>, i: nat, max: nat): (g: Gathering)
    requires i <= max <= |pops|
    ensures |g.batch| <= max - i
    decreases max - i
  {
    if i == max then Gathering([], [], false)
    else match Answer(queue, pops[i])
         case Got(job) =>
           var g := Gather(queue[1..], pops, i + 1, max);
           g.(batch := [job] + g.batch)
         case Nothing => Gathering([], Mislaid(queue, pops[i]), false)
         case Broken => Gathering([], Mislaid(queue, pops[i]), true)
  }

  /** Part-way through collecting: what is to come completes the batch. */
  predicate More(batch: seq<Job>, first: Job, g: Gathering, toCome: Gathering) {
    [first] + g.batch == batch + toCome.batch && g.mislaid == toCome.mislaid && g.broken == toCome.broken
  }

  lemma {:induction false} MoreGot(batch: seq<Job>, first: Job, g: Gathering, queue: seq<Job>, pops: seq<PopCall>,
      i: nat, max: nat)
    requires i < max <= |pops| && More(batch, first, g, Gather(queue, pops, i, max)) && Answer(queue, pops[i]).Got?
    ensures queue != [] && Answer(queue, pops[i]) == Got(queue[0])
    ensures More(batch + [queue[0]], first, g, Gather(queue[1..], pops, i + 1, max))
  {
    Regroup(batch, [queue[0]], Gather(queue[1..], pops, i + 1, max).batch);
  }

  lemma {:induction false} MoreEnds(batch: seq<Job>, first: Job, g: Gathering, queue: seq<Job>, pops: seq<PopCall>,
      i: nat, max: nat)
    requires i <= max <= |pops| && More(batch, first, g, Gather(queue, pops, i, max))
    requires i < max ==> !Answer(queue, pops[i]).Got?
    ensures batch == [first] + g.batch
    ensures i == max ==> g.mislaid == [] && !g.broken
    ensures i < max ==> g.mislaid == Mislaid(queue, pops[i]) && g.broken == Answer(queue, pops[i]).Broken?
  {
    assert batch + [] == batch;
  }

  /** A round whose first pop delivers nothing has no batch. */
  lemma {:induction false} GatherNothing(queue: seq<Job>, pops: seq<PopCall>, max: nat, c: Calls)
    requires 0 < max <= |pops| && c.For(0) && !Answer(queue, pops[0]).Got?
    ensures var g := Gather(queue, pops, 0, max);
            && g.batch == [] && g.broken == Answer(queue, pops[0]).Broken?
            && LostInRound(g, c) == Mislaid(queue, pops[0])
  {
    assert LostBy([], c) == [];
  }

  /** What a whole round loses: a mislaid job, and the batch if collecting it failed, or what handling it loses. */
  function LostInRound(g: Gathering, c: Calls): seq<Job>
    requires c.For(|g.batch|)
  {
    g.mislaid + if g.broken then g.batch else LostBy(g.batch, c)
  }

  predicate LosingRound(g: Gathering, c: Calls)
    requires c.For(|g.batch|)
  {
    g.mislaid != [] || if g.broken then g.batch != [] else Loses(g.batch, c)
  }

  lemma {:induction false} LosingRoundIff(g: Gathering, c: Calls)
    requires c.For(|g.batch|)
    ensures LostInRound(g, c) != [] <==> LosingRound(g, c)
  {
    LosesIff(g.batch, c);
  }

  /** A cancelled pop whose reply is dropped loses a job and is no error. */
  lemma {:induction false} CancelledPopLosesSilently(job: Job)
    ensures Gather([job], [Canceled(true)], 0, 1) == Gathering([], [job], false)
  {
  }

  class Worker {
    const batchMax: nat
    var queue: seq<Job>
    var dlq: seq<Job>
    var rows: set<nat>
    ghost var history: Run

    ghost predicate Valid() reads this {
      && history.Valid() && history.states[0] == INIT
      && history.Last().queue == queue && history.Last().dlq == dlq && history.Last().rows == rows
    }

    ghost function Now(): State reads this
      requires Valid()
    {
      history.Last()
    }

    ghost method Record(a: Action, t: State)
      requires history.Valid() && history.states[0] == INIT && Step(history.Last(), a, t)
      modifies this`history
      ensures history.Valid() && history.states[0] == INIT && history.Last() == t
    {
      history := history.Then(a, t);
    }

    /** An error return: what the worker still holds is in no list any more. */
    ghost method GiveUp(rest: seq<Job>, left: seq<Job>)
      requires Valid() && Now().held == rest + left
      modifies this`history
      ensures Valid() && Now().held == rest && Now().lost == old(Now()).lost + left
      ensures Now().charged == old(Now()).charged && Now().done == old(Now()).done
      decreases |left|
    {
      var s := Now();
      if left == [] {
        assert rest + left == rest;
      } else {
        var i := |rest|;
        assert s.held[i] == left[0] && Without(s.held, i) == rest + left[1..];
        Record(Drop(i), s.(held := rest + left[1..], lost := s.lost + [left[0]]));
        GiveUp(rest, left[1..]);
        assert s.lost + [left[0]] + left[1..] == s.lost + left;
      }
    }

    /** pop: BLPOP, decode, validate. */
    method Pop(c: PopCall) returns (p: Popped)
      requires Valid()
      modifies this
      ensures Valid() && dlq == old(dlq) && rows == old(rows)
      ensures Now().charged == old(Now()).charged && Now().done == old(Now()).done
      ensures p == Answer(old(queue), c)
      ensures Now().lost == old(Now()).lost + Mislaid(old(queue), c)
      ensures queue == if p.Got? then old(queue)[1..] else old(queue)[|Mislaid(old(queue), c)|..]
      ensures Now().held == if p.Got? then old(Now()).held + [p.job] else old(Now()).held
    {
      ghost var s := Now();
      match c {
        case Timeout => return Nothing;
        case Canceled(lostReply) =>
          if lostReply { LoseHead(); }
          return Nothing;
        case Failure(lostReply) =>
          if lostReply { LoseHead(); }
          return Broken;
        case Deliver =>
          if |queue| == 0 { return Nothing; }
          var job := queue[0];
          if !job.wellFormed {
            LoseHead();
            return Broken;
          }
          queue := queue[1..];
          Record(Action.Pop, s.(queue := queue, held := s.held + [job]));
          return Got(job);
      }
    }

    method LoseHead()
      requires Valid()
      modifies this
      ensures Valid() && dlq == old(dlq) && rows == old(rows)
      ensures queue == if old(queue) == [] then [] else old(queue)[1..]
      ensures Now() == if old(queue) == [] then old(Now())
              else old(Now()).(queue := queue, lost := old(Now()).lost + [old(queue)[0]])
    {
      if |queue| > 0 {
        ghost var (s, head) := (Now(), queue[0]);
        queue := queue[1..];
        Record(Mislay, s.(queue := queue, lost := s.lost + [head]));
      }
    }

    /** requeueBatch: never charges, and without an error puts the whole batch back in order. */
    method RequeueBatch(ghost rest: seq<Job>, batch: seq<Job>, pushes: seq<Outcome>, ghost ps: seq<Placing>)
      returns (ok: bool)
      requires Valid() && Now().held == rest + batch && |batch| <= |pushes|
      requires |ps| == |batch| && forall k :: 0 <= k < |batch| ==> ps[k] == Pushed(pushes[k])
      modifies this
      ensures Valid() && Now().held == rest && dlq == old(dlq) && rows == old(rows)
      ensures Now().charged == old(Now()).charged && Now().done == old(Now()).done
      ensures ok <==> AllPlaced(ps)
      ensures Now().lost == old(Now()).lost + Spilled(batch, ps, 0)
      ensures ok ==> queue == old(queue) + batch
    {
      for k := 0 to |batch|
        invariant Valid() && Now().held == rest + batch[k..] && dlq == old(dlq) && rows == old(rows)
        invariant Now().charged == old(Now()).charged && Now().done == old(Now()).done
        invariant forall m :: 0 <= m < k ==> ps[m].Placed?
        invariant queue == old(queue) + batch[..k] && Now().lost == old(Now()).lost
        invariant Spilled(batch, ps, 0) == Spilled(batch, ps, k)
      {
        ghost var s := Now();
        ghost var i := |rest|;
        assert s.held[i] == batch[k] && Without(s.held, i) == rest + batch[k + 1..];
        assert !ps[k].Placed? ==> !AllPlaced(ps);
        if pushes[k].TookEffect() {
          queue := queue + [batch[k]];
          Record(Requeue(i), s.(queue := queue, held := rest + batch[k + 1..]));
          if !pushes[k].Ok? {
            GiveUp(rest, batch[k + 1..]);
            return false;
          }
        } else {
          GiveUp(rest, batch[k..]);
          return false;
        }
      }
      assert rest + [] == rest && batch[..|batch|] == batch;
      return true;
    }

    /** retryOrDLQ: the fifth charged failure goes to the dead-letter list as it is; an earlier one sleeps and goes
        back to the queue with one more attempt. */
    method RetryOrDLQ(ghost rest: seq<Job>, job: Job, ghost left: seq<Job>, nap: bool, push: Outcome) returns (ok: bool)
      requires Valid() && Now().held == rest + [job] + left
      modifies this
      ensures Valid() && Now().held == rest + left && rows == old(rows) && Now().done == old(Now()).done
      ensures ok <==> Retrying(job, nap, push).Placed?
      ensures ok ==> Charged(old(Now()), [job], Now())
      ensures Now().lost == old(Now()).lost + if Retrying(job, nap, push).Dropped? then [job] else []
    {
      ghost var s := Now();
      ghost var i := |rest|;
      assert s.held[i] == job && Without(s.held, i) == rest + left;
      OneJob(job);
      if LastChance(job) {
        if push.TookEffect() {
          dlq := dlq + [job];
          Record(Bury(i), s.(dlq := dlq, held := rest + left, charged := s.charged + [job.id]));
        } else {
          Record(Drop(i), s.(held := rest + left, lost := s.lost + [job]));
        }
        return push.Ok?;
      }
      if nap && push.TookEffect() {
        queue := queue + [Charge(job)];
        Record(Retry(i), s.(queue := queue, held := rest + left, charged := s.charged + [job.id]));
      } else {
        Record(Drop(i), s.(held := rest + left, lost := s.lost + [job]));
      }
      return nap && push.Ok?;
    }

    /** The failure loops of handleBatch: every job is charged once, in order, until an error stops the loop. */
    method ChargeBatch(ghost rest: seq<Job>, batch: seq<Job>, c: Calls, ghost ps: seq<Placing>) returns (ok: bool)
      requires Valid() && Now().held == rest + batch && c.For(|batch|)
      requires |ps| == |batch| && forall k :: 0 <= k < |batch| ==> ps[k] == Retrying(batch[k], c.naps[k], c.pushes[k])
      modifies this
      ensures Valid() && Now().held == rest && rows == old(rows) && Now().done == old(Now()).done
      ensures ok <==> AllPlaced(ps)
      ensures Now().lost == old(Now()).lost + Spilled(batch, ps, 0)
      ensures ok ==> Charged(old(Now()), batch, Now())
    {
      for k := 0 to |batch|
        invariant Valid() && Now().held == rest + batch[k..] && rows == old(rows) && Now().done == old(Now()).done
        invariant Charged(old(Now()), batch[..k], Now())
        invariant forall m :: 0 <= m < k ==> ps[m].Placed?
        invariant Spilled(batch, ps, 0) == Spilled(batch, ps, k)
      {
        ghost var (left, before) := (batch[k + 1..], Now());
        assert rest + batch[k..] == rest + [batch[k]] + left;
        ok := RetryOrDLQ(rest, batch[k], left, c.naps[k], c.pushes[k]);
        if !ok {
          assert !ps[k].Placed?;
          StopAt(rest, batch, ps, k, old(Now()).lost);
          return;
        }
        assert batch[..k + 1] == batch[..k] + [batch[k]];
        ChargedMore(old(Now()), batch[..k], before, batch[k], Now());
      }
      assert rest + [] == rest && batch[..|batch|] == batch;
      return true;
    }

    /** Giving up after job k reported an error. */
    ghost method StopAt(rest: seq<Job>, batch: seq<Job>, ps: seq<Placing>, k: nat, lost: seq<Job>)
      requires Valid() && k < |batch| == |ps| && !ps[k].Placed? && Now().held == rest + batch[k + 1..]
      requires Now().lost == lost + (if ps[k].Dropped? then [batch[k]] else [])
      modifies this`history
      ensures Valid() && Now().held == rest && Now().lost == lost + Spilled(batch, ps, k)
      ensures Now().done == old(Now()).done
    {
      GiveUp(rest, batch[k + 1..]);
      assert batch[k..] == [batch[k]] + batch[k + 1..];
      Regroup(lost, if ps[k].Dropped? then [batch[k]] else [], batch[k + 1..]);
    }

    /** The upsert loop of handleBatch: a job whose upsert reports success is done, any other is charged. */
    method StoreBatch(ghost rest: seq<Job>, batch: seq<Job>, c: Calls, ghost ps: seq<Placing>) returns (ok: bool)
      requires Valid() && Now().held == rest + batch && c.For(|batch|)
      requires |ps| == |batch| && forall k :: 0 <= k < |batch| ==>
               ps[k] == Storing(batch[k], c.ups[k], c.naps[k], c.pushes[k])
      modifies this
      ensures Valid() && Now().held == rest && old(rows) <= rows
      ensures ok <==> AllPlaced(ps)
      ensures Now().lost == old(Now()).lost + Spilled(batch, ps, 0)
      ensures ok ==> Embedded(old(Now()), batch, c.ups, Now())
      ensures ok ==> Written(batch, c.ups, |batch|, rows)
    {
      for k := 0 to |batch|
        invariant Valid() && Now().held == rest + batch[k..]
        invariant StoredUpTo(old(Now()), batch, c, ps, k, Now())
      {
        ghost var (left, before) := (batch[k + 1..], Now());
        assert rest + batch[k..] == rest + [batch[k]] + left;
        ok := StoreOne(rest, batch[k], left, c.ups[k], c.naps[k], c.pushes[k]);
        if !ok {
          StoredStops(old(Now()), batch, c, ps, k, before);
          StopAt(rest, batch, ps, k, old(Now()).lost);
          return;
        }
        StoredNext(old(Now()), batch, c, ps, k, before, Now());
      }
      assert rest + [] == rest;
      StoredAll(old(Now()), batch, c, ps, Now());
      return true;
    }

    method StoreOne(ghost rest: seq<Job>, job: Job, ghost left: seq<Job>, up: Outcome, nap: bool, push: Outcome)
      returns (ok: bool)
      requires Valid() && Now().held == rest + [job] + left
      modifies this
      ensures Valid() && Now().held == rest + left
      ensures rows == (if up.TookEffect() then old(rows) + {job.id} else old(rows))
      ensures Now().done == if up.Ok? then old(Now()).done + [job] else old(Now()).done
      ensures ok <==> Storing(job, up, nap, push).Placed?
      ensures Now().lost == old(Now()).lost + if Storing(job, up, nap, push).Dropped? then [job] else []
      ensures ok && up.Ok? ==> Charged(old(Now()), [], Now())
      ensures ok && !up.Ok? ==> Charged(old(Now()), [job], Now())
    {
      Upsert(rest, job, left, up);
      if up.Ok? { return true; }
      ok := RetryOrDLQ(rest, job, left, nap, push);
    }

    /** UpsertEmbedding: a success ends the job; an error may still have stored the row. */
    method Upsert(ghost rest: seq<Job>, job: Job, ghost left: seq<Job>, up: Outcome)
      requires Valid() && Now().held == rest + [job] + left
      modifies this
      ensures Valid() && rows == (if up.TookEffect() then old(rows) + {job.id} else old(rows))
      ensures queue == old(queue) && dlq == old(dlq) && Now().charged == old(Now()).charged
      ensures Now().lost == old(Now()).lost
      ensures Now().held == if up.Ok? then rest + left else rest + [job] + left
      ensures Now().done == if up.Ok? then old(Now()).done + [job] else old(Now()).done
    {
      ghost var i := |rest|;
      assert Now().held[i] == job && Without(Now().held, i) == rest + left;
      if up.TookEffect() {
        rows := rows + {job.id};
        Record(Write(i), history.Last().(rows := rows));
        if up.Ok? {
          Record(Finish(i), Now().(held := rest + left, done := Now().done + [job]));
        }
      }
    }

    /** handleBatch: rate limits and open circuits put the batch back uncharged, failures charge every job, and
        otherwise the batch is stored; exactly the jobs of `LostBy` are lost. */
    method HandleBatch(ghost rest: seq<Job>, batch: seq<Job>, c: Calls) returns (ok: bool)
      requires Valid() && Now().held == rest + batch && c.For(|batch|)
      modifies this
      ensures Valid() && Now().held == rest
      ensures ok <==> HandledOk(batch, c)
      ensures Now().lost == old(Now()).lost + LostBy(batch, c)
      ensures Requeues(c) ==>
                && Now().charged == old(Now()).charged && dlq == old(dlq) && rows == old(rows)
                && (ok ==> queue == old(queue) + batch)
      ensures !Requeues(c) && !Stores(batch, c) ==> rows == old(rows) && (ok ==> Charged(old(Now()), batch, Now()))
      ensures Stores(batch, c) && ok ==>
                && Embedded(old(Now()), batch, c.ups, Now())
                && Written(batch, c.ups, |batch|, rows)
    {
      ghost var ps := Placings(batch, c);
      match c.reply {
        case RateLimited =>
          if !c.pause {
            GiveUp(rest, batch);
            return false;
          }
          ok := RequeueBatch(rest, batch, c.pushes, ps);
        case Unavailable =>
          if c.circuitOpen {
            ok := RequeueBatch(rest, batch, c.pushes, ps);
            if ok { ok := c.pause; }
          } else {
            ok := ChargeBatch(rest, batch, c, ps);
          }
        case OtherError =>
          ok := ChargeBatch(rest, batch, c, ps);
        case Vectors(n) =>
          if n != |batch| {
            ok := ChargeBatch(rest, batch, c, ps);
          } else {
            ok := StoreBatch(rest, batch, c, ps);
          }
      }
    }

    /** The collecting loop of ProcessOneBatch after the first job. */
    method Collect(ghost rest: seq<Job>, first: Job, pops: seq<PopCall>, ghost g: Gathering)
      returns (batch: seq<Job>, broken: bool)
      requires Valid() && 0 < batchMax <= |pops| && Now().held == rest + [first]
      requires g == Gather(queue, pops, 1, batchMax)
      modifies this
      ensures Valid() && Now().held == rest + batch && batch == [first] + g.batch && broken == g.broken
      ensures Now().lost == old(Now()).lost + g.mislaid
    {
      batch, broken := [first], false;
      var ended := false;
      while |batch| < batchMax && !ended
        invariant 1 <= |batch| <= batchMax && Valid() && Now().held == rest + batch
        invariant !ended ==>
                    && Now().lost == old(Now()).lost && !broken
                    && More(batch, first, g, Gather(queue, pops, |batch|, batchMax))
        invariant ended ==>
                  Now().lost == old(Now()).lost + g.mislaid && batch == [first] + g.batch && broken == g.broken
        decreases batchMax - |batch|, !ended
      {
        ghost var was := queue;
        var next := Pop(pops[|batch|]);
        if next.Got? {
          MoreGot(batch, first, g, was, pops, |batch|, batchMax);
          Regroup(rest, batch, [next.job]);
          batch := batch + [next.job];
        } else {
          MoreEnds(batch, first, g, was, pops, |batch|, batchMax);
          broken := next.Broken?;
          ended := true;
        }
      }
      if !ended { MoreEnds(batch, first, g, queue, pops, |batch|, batchMax); }
    }

    /** ProcessOneBatch: an open circuit pops nothing; otherwise up to batchMax jobs are popped and handled, and the
        worker is left holding nothing of its own. Exactly the jobs of `LostInRound` are lost, with or
        without an error. */
    method ProcessOneBatch(open: bool, pause: bool, pops: seq<PopCall>, c: Calls) returns (ok: bool)
      requires Valid() && 0 < batchMax <= |pops| && c.For(batchMax)
      modifies this
      ensures Valid() && Now().held == old(Now()).held
      ensures open ==> Now() == old(Now()) && ok == pause
      ensures var g := Gather(old(queue), pops, 0, batchMax);
              !open ==> && Now().lost == old(Now()).lost + LostInRound(g, c)
                        && (ok <==> !g.broken && (g.batch == [] || HandledOk(g.batch, c)))
                        && (Now().lost != old(Now()).lost <==> LosingRound(g, c))
    {
      if open { return pause; }
      ok := Round(pops, c);
      LosingRoundIff(Gather(old(queue), pops, 0, batchMax), c);
    }

    /** A round with the circuit closed. */
    method Round(pops: seq<PopCall>, c: Calls) returns (ok: bool)
      requires Valid() && 0 < batchMax <= |pops| && c.For(batchMax)
      modifies this
      ensures Valid() && Now().held == old(Now()).held
      ensures var g := Gather(old(queue), pops, 0, batchMax);
              && Now().lost == old(Now()).lost + LostInRound(g, c)
              && (ok <==> !g.broken && (g.batch == [] || HandledOk(g.batch, c)))
    {
      ghost var (rest, lost, g) := (Now().held, Now().lost, Gather(queue, pops, 0, batchMax));
      var first := Pop(pops[0]);
      match first {
        case Nothing =>
          GatherNothing(old(queue), pops, batchMax, c);
          return true;
        case Broken =>
          GatherNothing(old(queue), pops, batchMax, c);
          return false;
        case Got(job) =>
          ghost var later := Gather(queue, pops, 1, batchMax);
          assert g == later.(batch := [job] + later.batch);
          var batch, broken := Collect(rest, job, pops, later);
          ok := Conclude(rest, lost, batch, broken, c, g);
      }
    }

    /** The collected batch is given up after a broken pop, and handled otherwise. */
    method Conclude(ghost rest: seq<Job>, ghost lost: seq<Job>, batch: seq<Job>, broken: bool, c: Calls,
        ghost g: Gathering)
      returns (ok: bool)
      requires Valid() && Now().held == rest + batch && c.For(|batch|) && g.batch == batch && g.broken == broken
      requires Now().lost == lost + g.mislaid
      modifies this
      ensures Valid() && Now().held == rest && Now().lost == lost + LostInRound(g, c)
      ensures ok <==> !broken && HandledOk(batch, c)
    {
      Regroup(lost, g.mislaid, if g.broken then g.batch else LostBy(g.batch, c));
      if broken {
        GiveUp(rest, batch);
        return false;
      }
      ok := HandleBatch(rest, batch, c);
    }
  }
}
