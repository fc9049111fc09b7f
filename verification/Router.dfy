/** Provider fallback (internal/embed/router.go and internal/llm/router.go): a walk down a priority chain, one circuit
    breaker per provider, and the queries on those breakers (internal/embed/health.go). */
module Router {
  import opened Breaker
  import Common

  /** `vectors` is how many vectors an embedding reply holds, `provider` the name a completion reply carries, if any. */
  datatype Reply = Good(value: nat, vectors: nat, provider: string) | Throttled | Broken

  /** A breaker call by another request that shares the router. */
  datatype Other = Other(name: string, call: Call)

  predicate InTime(others: seq<Other>, from: int, to: int) {
    && (forall i :: 0 <= i < |others| ==> from <= others[i].call.now <= to)
    && (forall i, j :: 0 <= i < j < |others| ==> others[i].call.now <= others[j].call.now)
  }

  /** What the walk meets at one chain position: what others do before the breaker is asked, when that is, whether the
      context has expired by then, what the provider would reply, what others do during the call, and when its outcome
      is recorded. */
  datatype Moment =
    Moment(startAt: int, before: seq<Other>, askedAt: int, expired: bool, reply: Reply, during: seq<Other>, doneAt: int)
  {
    predicate Timely() {
      startAt <= askedAt <= doneAt && InTime(before, startAt, askedAt) && InTime(during, askedAt, doneAt)
    }
  }

  /** What became of one chain position. */
  datatype Fate = Unregistered | Unsupported | Refused | Expired | Failed | RateLimited | Succeeded

  type Histories = map<string, History>

  datatype World = World(
    chain: seq<string>,
    registered: set<string>,
    eligible: set<string>,     // providers that support the requested tier; every provider for embeddings
    cfg: Config,
    returnsOnThrottle: bool,   // embeddings return at once on a rate limit; completions try the next provider
    moments: seq<Moment>)
  {
    ghost predicate Valid(h: Histories) {
      && cfg.Valid()
      && |moments| == |chain|
      && h.Keys == registered
    }

    predicate Timely() {
      && (forall i :: 0 <= i < |moments| ==> moments[i].Timely())
      && (forall i, j :: 0 <= i < j < |moments| ==> moments[i].doneAt <= moments[j].startAt)
    }

    /** Nobody else uses the breakers during the walk. */
    predicate Alone() {
      forall i :: 0 <= i < |moments| ==> moments[i].before == [] && moments[i].during == []
    }
  }

  // ---------------------------------------------------------------- the walk as a function of the histories

  /** What happens at position q when its provider's history is `seen`. */
  function FateAt(w: World, seen: History, q: nat): Fate
    requires w.cfg.Valid() && q < |w.chain| == |w.moments|
  {
    var m := w.moments[q];
    if w.chain[q] !in w.registered then Unregistered
    else if w.chain[q] !in w.eligible then Unsupported
    else if Refuses(seen, w.cfg.threshold, w.cfg.delay, m.askedAt) then Refused
    else if m.expired then Expired
    else match m.reply
         case Good(_, _, _) => Succeeded
         case Throttled => if w.returnsOnThrottle then RateLimited else Fate.Failed
         case Broken => Fate.Failed
  }

  predicate Called(f: Fate) { f.Failed? || f.RateLimited? || f.Succeeded? }

  predicate Final(f: Fate) { f.Expired? || f.RateLimited? || f.Succeeded? }

  /** A history once a fate is noted: one outcome per call, nothing otherwise. */
  function Note(h: History, f: Fate, doneAt: int): History {
    if f.Succeeded? then h + [Success] else if Called(f) then h + [Failure(doneAt)] else h
  }

  // ---------------------------------------------------------------- what a walk means

  /** What others recorded for one provider. */
  function Heard(others: seq<Other>, name: string): History {
    if others == [] then []
    else Heard(others[..|others| - 1], name)
         + (if others[|others| - 1].name == name then Record(others[|others| - 1].call) else [])
  }

  function HeardAt(m: Moment, name: string): History { Heard(m.before, name) + Heard(m.during, name) }

  /** The outcomes recorded for one provider over the first k positions, by this walk and by others. */
  function Told(w: World, log: seq<Fate>, k: nat, name: string): History
    requires k <= |log| <= |w.chain| == |w.moments|
  {
    if k == 0 then []
    else
      var sofar := Told(w, log, k - 1, name) + HeardAt(w.moments[k - 1], name);
      if w.chain[k - 1] == name then Note(sofar, log[k - 1], w.moments[k - 1].doneAt) else sofar
  }

  function Before(h: Histories, name: string): History { if name in h then h[name] else [] }

  /** What position k's provider has behind it when the walk asks its breaker. */
  function Behind(w: World, h: Histories, log: seq<Fate>, k: nat): History
    requires k <= |log| <= |w.chain| == |w.moments| && k < |w.chain|
  {
    Before(h, w.chain[k]) + Told(w, log, k, w.chain[k]) + Heard(w.moments[k].before, w.chain[k])
  }

  /** Each entry is the fate its position meets, given what was recorded for the same provider until then. */
  ghost predicate Follows(w: World, h: Histories, log: seq<Fate>)
    requires w.Valid(h) && |log| <= |w.chain|
  {
    forall k :: 0 <= k < |log| ==> FollowsAt(w, h, log, k)
  }

  ghost predicate FollowsAt(w: World, h: Histories, log: seq<Fate>, k: nat)
    requires w.Valid(h) && k < |log| <= |w.chain|
  {
    log[k] == FateAt(w, Behind(w, h, log, k), k)
  }

  /** No entry but the last ends the walk. */
  predicate Unended(log: seq<Fate>) { forall k :: 0 <= k < |log| - 1 ==> !Final(log[k]) }

  /** A whole walk: only its last entry may end it, and one that stops short of the chain's end was ended. */
  ghost predicate IsWalk(w: World, h: Histories, log: seq<Fate>)
    requires w.Valid(h)
  {
    && |log| <= |w.chain|
    && Follows(w, h, log)
    && Unended(log)
    && (|log| < |w.chain| ==> log != [] && Final(log[|log| - 1]))
  }

  lemma {:induction false} ToldPrefix(w: World, log: seq<Fate>, f: Fate, k: nat, name: string)
    requires k <= |log| < |w.chain| == |w.moments|
    ensures Told(w, log + [f], k, name) == Told(w, log, k, name)
  {
    if k > 0 {
      ToldPrefix(w, log, f, k - 1, name);
    }
  }

  lemma {:induction false} FollowsStill(w: World, h: Histories, log: seq<Fate>, f: Fate, k: nat)
    requires w.Valid(h) && k < |log| < |w.chain| && FollowsAt(w, h, log, k)
    ensures FollowsAt(w, h, log + [f], k)
  {
    ToldPrefix(w, log, f, k, w.chain[k]);
  }

  lemma {:induction false} FollowsLast(w: World, h: Histories, log: seq<Fate>, f: Fate)
    requires w.Valid(h) && |log| < |w.chain| && f == FateAt(w, Behind(w, h, log, |log|), |log|)
    ensures FollowsAt(w, h, log + [f], |log|)
  {
    ToldPrefix(w, log, f, |log|, w.chain[|log|]);
  }

  lemma {:induction false} FollowsAppend(w: World, h: Histories, log: seq<Fate>, f: Fate)
    requires w.Valid(h) && |log| < |w.chain| && Follows(w, h, log) && f == FateAt(w, Behind(w, h, log, |log|), |log|)
    ensures Follows(w, h, log + [f])
  {
    forall k | 0 <= k < |log + [f]| ensures FollowsAt(w, h, log + [f], k) {
      if k < |log| { FollowsStill(w, h, log, f, k); } else { FollowsLast(w, h, log, f); }
    }
  }

  /** The histories once the log has happened: each breaker is told one outcome per call of its provider, and what
      others tell it. */
  ghost function Later(w: World, h: Histories, log: seq<Fate>): Histories
    requires |log| <= |w.chain| == |w.moments|
  {
    map n | n in h :: h[n] + Told(w, log, |log|, n)
  }

  /** The histories after others used the breakers. */
  ghost function Hear(h: Histories, others: seq<Other>): Histories {
    map n | n in h :: h[n] + Heard(others, n)
  }

  /** The histories after position q met fate f. */
  ghost function Noted(w: World, h: Histories, q: nat, f: Fate): Histories
    requires q < |w.chain| == |w.moments|
  {
    var g := Hear(Hear(h, w.moments[q].before), w.moments[q].during);
    if w.chain[q] in g then g[w.chain[q] := Note(g[w.chain[q]], f, w.moments[q].doneAt)] else g
  }

  lemma {:induction false} HearNothing(h: Histories)
    ensures Hear(h, []) == h
  {
    forall n | n in h ensures Hear(h, [])[n] == h[n] {
      assert h[n] + [] == h[n];
    }
  }

  /** One more call by another request. */
  ghost function HearOne(h: Histories, o: Other): Histories {
    if o.name in h then h[o.name := h[o.name] + Record(o.call)] else h
  }

  lemma {:induction false} HeardMore(others: seq<Other>, i: nat, name: string)
    requires i < |others|
    ensures Heard(others[..i + 1], name)
            == Heard(others[..i], name) + if others[i].name == name then Record(others[i].call) else []
  {
    assert others[..i + 1][..i] == others[..i] && others[..i + 1][i] == others[i];
  }

  lemma {:induction false} HearMoreOf(h: Histories, others: seq<Other>, i: nat, n: string)
    requires i < |others| && n in h
    ensures h[n] + Heard(others[..i + 1], n) == HearOne(Hear(h, others[..i]), others[i])[n]
  {
    HeardMore(others, i, n);
    var (heard, more) := (Heard(others[..i], n), Record(others[i].call));
    assert h[n] + (heard + more) == h[n] + heard + more && heard + [] == heard;
  }

  lemma {:induction false} HearMore(h: Histories, others: seq<Other>, i: nat)
    requires i < |others|
    ensures Hear(h, others[..i + 1]) == HearOne(Hear(h, others[..i]), others[i])
  {
    forall n | n in h ensures Hear(h, others[..i + 1])[n] == HearOne(Hear(h, others[..i]), others[i])[n] {
      HearMoreOf(h, others, i, n);
    }
  }

  lemma {:induction false} LaterStarts(w: World, h: Histories)
    requires |w.chain| == |w.moments|
    ensures Later(w, h, []) == h
  {
    forall n | n in h ensures Later(w, h, [])[n] == h[n] {
      assert h[n] + [] == h[n];
    }
  }

  /** A walk under way. */
  ghost predicate Going(w: World, h: Histories, log: seq<Fate>, ended: bool)
    requires w.Valid(h)
  {
    && |log| <= |w.chain|
    && Follows(w, h, log)
    && Unended(log)
    && (ended <==> log != [] && Final(log[|log| - 1]))
  }

  lemma {:induction false} SameFate(w: World, h: Histories, log: seq<Fate>)
    requires w.Valid(h) && |log| < |w.chain|
    ensures var heard := Hear(Later(w, h, log), w.moments[|log|].before);
            FateAt(w, Before(heard, w.chain[|log|]), |log|) == FateAt(w, Behind(w, h, log, |log|), |log|)
  {
    if w.chain[|log|] in h {
      assert Before(Hear(Later(w, h, log), w.moments[|log|].before), w.chain[|log|]) == Behind(w, h, log, |log|);
    }
  }

  lemma {:induction false} GoesOn(w: World, h: Histories, log: seq<Fate>, f: Fate)
    requires w.Valid(h) && Going(w, h, log, false) && |log| < |w.chain|
    requires f == FateAt(w, Behind(w, h, log, |log|), |log|)
    ensures Going(w, h, log + [f], Final(f))
  {
    FollowsAppend(w, h, log, f);
  }

  lemma {:induction false} LaterGrows(w: World, h: Histories, log: seq<Fate>, f: Fate)
    requires |log| < |w.chain| == |w.moments|
    ensures Noted(w, Later(w, h, log), |log|, f) == Later(w, h, log + [f])
  {
    forall n | n in h ensures Noted(w, Later(w, h, log), |log|, f)[n] == Later(w, h, log + [f])[n] {
      OneGrows(w, h, log, f, n);
    }
  }

  lemma {:induction false} ToldNext(w: World, log: seq<Fate>, f: Fate, n: string)
    requires |log| < |w.chain| == |w.moments|
    ensures var (sofar, m) := (Told(w, log, |log|, n) + HeardAt(w.moments[|log|], n), w.moments[|log|]);
            Told(w, log + [f], |log| + 1, n) == if w.chain[|log|] == n then Note(sofar, f, m.doneAt) else sofar
  {
    ToldPrefix(w, log, f, |log|, n);
  }

  lemma {:induction false} OneGrows(w: World, h: Histories, log: seq<Fate>, f: Fate, n: string)
    requires |log| < |w.chain| == |w.moments| && n in h
    ensures Noted(w, Later(w, h, log), |log|, f)[n] == h[n] + Told(w, log + [f], |log| + 1, n)
  {
    var (m, told) := (w.moments[|log|], Told(w, log, |log|, n));
    ToldNext(w, log, f, n);
    var heard := Hear(Hear(Later(w, h, log), m.before), m.during);
    assert heard[n] == h[n] + told + Heard(m.before, n) + Heard(m.during, n);
    Regrouped(h[n], told, Heard(m.before, n), Heard(m.during, n));
    NoteAfter(h[n], told + HeardAt(m, n), f, m.doneAt);
  }

  lemma {:induction false} Regrouped(h: History, told: History, a: History, b: History)
    ensures h + told + a + b == h + (told + (a + b))
  {
  }

  lemma {:induction false} NoteAfter(h: History, more: History, f: Fate, doneAt: int)
    ensures Note(h + more, f, doneAt) == h + Note(more, f, doneAt)
  {
  }

  /** The histories and the replies determine the walk. */
  lemma {:induction false} WalkIsUnique(w: World, h: Histories, a: seq<Fate>, b: seq<Fate>, k: nat)
    requires w.Valid(h) && IsWalk(w, h, a) && IsWalk(w, h, b) && k <= |a|
    ensures k <= |b| && a[..k] == b[..k]
    ensures k == |a| ==> a == b
  {
    if k > 0 {
      WalkIsUnique(w, h, a, b, k - 1);
      var i := k - 1;
      if i == |b| {
        WalkLengths(w, h, b, a);
      } else {
        SameNext(w, h, a, b, i);
        assert a[..k] == a[..i] + [a[i]] && b[..k] == b[..i] + [b[i]];
      }
    }
    if k == |a| {
      WalkLengths(w, h, a, b);
    }
  }

  lemma {:induction false} SameNext(w: World, h: Histories, a: seq<Fate>, b: seq<Fate>, i: nat)
    requires w.Valid(h) && i < |a| <= |w.chain| && i < |b| <= |w.chain| && a[..i] == b[..i]
    requires FollowsAt(w, h, a, i) && FollowsAt(w, h, b, i)
    ensures a[i] == b[i]
  {
    ToldAgree(w, a, b, i, w.chain[i]);
  }

  lemma {:induction false} WalkLengths(w: World, h: Histories, a: seq<Fate>, b: seq<Fate>)
    requires w.Valid(h) && IsWalk(w, h, a) && IsWalk(w, h, b) && |a| <= |b| && a == b[..|a|]
    ensures a == b
  {
    assert forall k :: 0 <= k < |a| ==> a[k] == b[k];
  }

  lemma {:induction false} ToldAgree(w: World, a: seq<Fate>, b: seq<Fate>, k: nat, name: string)
    requires k <= |a| <= |w.chain| == |w.moments| && k <= |b| <= |w.chain| && a[..k] == b[..k]
    ensures Told(w, a, k, name) == Told(w, b, k, name)
  {
    if k > 0 {
      assert a[..k][k - 1] == b[..k][k - 1];
      assert a[..k - 1] == a[..k][..k - 1] == b[..k][..k - 1] == b[..k - 1];
      ToldAgree(w, a, b, k - 1, name);
    }
  }

  /** The fates of the first k positions if the walk gets that far. */
  ghost function Reach(w: World, h: Histories, k: nat): (log: seq<Fate>)
    requires w.Valid(h) && k <= |w.chain|
    ensures |log| == k
  {
    if k == 0 then []
    else
      var log := Reach(w, h, k - 1);
      log + [FateAt(w, Behind(w, h, log, k - 1), k - 1)]
  }

  /** The fate position p meets if the walk gets there. */
  ghost function Prospect(w: World, h: Histories, p: nat): Fate
    requires w.Valid(h) && p < |w.chain|
  {
    FateAt(w, Behind(w, h, Reach(w, h, p), p), p)
  }

  lemma {:induction false} ReachNext(w: World, h: Histories, k: nat)
    requires w.Valid(h) && k < |w.chain|
    ensures Reach(w, h, k + 1) == Reach(w, h, k) + [Prospect(w, h, k)]
  {
  }

  lemma {:induction false} ReachGrows(w: World, h: Histories, log: seq<Fate>, k: nat)
    requires w.Valid(h) && k < |log| <= |w.chain| && log[..k] == Reach(w, h, k) && FollowsAt(w, h, log, k)
    ensures log[..k + 1] == Reach(w, h, k + 1)
  {
    ProspectIs(w, h, log, k);
    ReachNext(w, h, k);
    assert log[..k + 1] == log[..k] + [log[k]];
  }

  lemma {:induction false} WalkIsReach(w: World, h: Histories, log: seq<Fate>, k: nat)
    requires w.Valid(h) && k <= |log| <= |w.chain| && Follows(w, h, log)
    ensures log[..k] == Reach(w, h, k)
  {
    if k == 0 {
      assert log[..0] == [];
    } else {
      WalkIsReach(w, h, log, k - 1);
      ReachGrows(w, h, log, k - 1);
    }
  }

  lemma {:induction false} WalkMeetsProspects(w: World, h: Histories, log: seq<Fate>)
    requires w.Valid(h) && |log| <= |w.chain| && Follows(w, h, log)
    ensures forall p :: 0 <= p < |log| ==> log[p] == Prospect(w, h, p)
  {
    forall p | 0 <= p < |log| ensures log[p] == Prospect(w, h, p) {
      WalkIsReach(w, h, log, p);
      assert FollowsAt(w, h, log, p);
      ProspectIs(w, h, log, p);
    }
  }

  lemma {:induction false} ProspectIs(w: World, h: Histories, log: seq<Fate>, p: nat)
    requires w.Valid(h) && p < |log| <= |w.chain| && log[..p] == Reach(w, h, p) && FollowsAt(w, h, log, p)
    ensures log[p] == Prospect(w, h, p)
  {
    var reach := Reach(w, h, p);
    assert log[..p] == reach[..p];
    ToldAgree(w, log, reach, p, w.chain[p]);
  }

  /** Fallback, for every chain, also one that names a provider twice, and whatever others do meanwhile: the call is
      answered by position p if and only if p's prospect is success and no earlier position's prospect ends the walk.
      Every earlier position then met its prospect, and no later provider is called. */
  lemma {:induction false} FirstSuccessAnswers(w: World, h: Histories, log: seq<Fate>, p: nat)
    requires w.Valid(h) && IsWalk(w, h, log) && p < |w.chain|
    ensures (|log| == p + 1 && log[p].Succeeded?)
            <==> (Prospect(w, h, p).Succeeded? && forall k :: 0 <= k < p ==> !Final(Prospect(w, h, k)))
  {
    WalkMeetsProspects(w, h, log);
    if |log| <= p {
      assert Final(log[|log| - 1]) && log[|log| - 1] == Prospect(w, h, |log| - 1);
    } else if |log| > p + 1 {
      assert !Final(log[p]);
    } else {
      forall k | 0 <= k < p ensures !Final(Prospect(w, h, k)) {
        assert !Final(log[k]);
      }
    }
  }

  predicate FirstMention(w: World, p: nat)
    requires p < |w.chain|
  {
    forall k :: 0 <= k < p ==> w.chain[k] != w.chain[p]
  }

  lemma {:induction false} ToldNothing(w: World, log: seq<Fate>, k: nat, p: nat)
    requires k <= p < |w.chain| == |w.moments| && k <= |log| <= |w.chain| && FirstMention(w, p) && w.Alone()
    ensures Told(w, log, k, w.chain[p]) == []
  {
    if k > 0 {
      ToldNothing(w, log, k - 1, p);
      assert w.moments[k - 1].before == [] && w.moments[k - 1].during == [];
    }
  }

  /** Nobody else at work and no earlier mention: the prospect depends on the history before the call alone. */
  lemma {:induction false} FreshProspect(w: World, h: Histories, p: nat)
    requires w.Valid(h) && p < |w.chain| && FirstMention(w, p) && w.Alone()
    ensures Prospect(w, h, p) == FateAt(w, Before(h, w.chain[p]), p)
  {
    ToldNothing(w, Reach(w, h, p), p, p);
    assert Before(h, w.chain[p]) + [] + [] == Before(h, w.chain[p]);
  }

  /** Every registered provider is short-circuited at time t. */
  ghost predicate AllRefuse(w: World, h: Histories, t: int)
    requires w.Valid(h)
  {
    forall name :: name in w.registered ==> Refuses(h[name], w.cfg.threshold, w.cfg.delay, t)
  }

  /** While every breaker refuses, a walk at that instant goes down the whole chain, calls no provider and tells no
      breaker anything. */
  lemma {:induction false} ShortCircuit(w: World, h: Histories, log: seq<Fate>, k: nat, t: int)
    requires w.Valid(h) && AllRefuse(w, h, t) && IsWalk(w, h, log) && k <= |log|
    requires w.Alone() && forall i :: 0 <= i < |w.moments| ==> w.moments[i].askedAt == t
    ensures forall i :: 0 <= i < k ==> !Called(log[i]) && !Final(log[i])
    ensures forall name :: Told(w, log, k, name) == []
    ensures k == |log| ==> |log| == |w.chain|
  {
    if k > 0 {
      ShortCircuit(w, h, log, k - 1, t);
      var name := w.chain[k - 1];
      assert w.moments[k - 1].before == [] && w.moments[k - 1].during == [];
      assert FollowsAt(w, h, log, k - 1);
      assert Before(h, name) + [] + [] == Before(h, name);
      assert log[k - 1] == FateAt(w, Before(h, name), k - 1);
    }
  }

  // ---------------------------------------------------------------- the object

  datatype Answer = Answered(value: nat) | InvalidInput | Throttling(name: string) | Unavailable(log: seq<Fate>)

  /** What the caller of a walk receives. */
  function Report(w: World, log: seq<Fate>): Answer
    requires |log| <= |w.chain| == |w.moments|
  {
    if log == [] then Unavailable(log)
    else match log[|log| - 1]
         case Succeeded => if w.moments[|log| - 1].reply.Good? then Answered(w.moments[|log| - 1].reply.value)
             else Unavailable(log)
         case RateLimited => Throttling(w.chain[|log| - 1])
         case _ => Unavailable(log)
  }

  lemma {:induction false} NeverThrottling(w: World, h: Histories, log: seq<Fate>)
    requires w.Valid(h) && IsWalk(w, h, log) && !w.returnsOnThrottle
    ensures Report(w, log).Answered? || Report(w, log).Unavailable?
  {
    if log != [] { assert FollowsAt(w, h, log, |log| - 1); }
  }

  /** The reply that answered a walk. */
  function Winner(w: World, log: seq<Fate>): Reply
    requires log != [] && |log| <= |w.chain| == |w.moments|
  {
    w.moments[|log| - 1].reply
  }

  lemma {:induction false} AnsweredByWinner(w: World, log: seq<Fate>)
    requires |log| <= |w.chain| == |w.moments| && Report(w, log).Answered?
    ensures log != [] && Winner(w, log).Good?
  {
  }

  datatype Status = Healthy | Degraded | Down

  class ProviderRouter {
    const providers: seq<string>
    const cfg: Config
    const breakers: map<string, CircuitBreaker>

    ghost predicate Valid() reads breakers.Values {
      && cfg.Valid()
      && breakers.Keys == (set p | p in providers)
      && (forall n :: n in breakers ==> breakers[n].Valid() && breakers[n].cfg == cfg && breakers[n].owner == n)
    }

    ghost function Recorded(): Histories reads breakers.Values {
      map n | n in breakers :: breakers[n].history
    }

    ghost predicate ClockAtMost(t: int) reads breakers.Values {
      forall n :: n in breakers ==> breakers[n].clock <= t
    }

    constructor (providers: seq<string>, threshold: int, delay: int, ghost now: int)
      ensures Valid() && this.providers == providers && ClockAtMost(now)
      ensures cfg ==
              Config(if threshold <= 0 then DEFAULT_THRESHOLD else threshold,
                  if delay <= 0 then DEFAULT_DELAY else delay)
      ensures forall n :: n in breakers ==> breakers[n].history == [] && fresh(breakers[n])
    {
      var c := Config(if threshold <= 0 then DEFAULT_THRESHOLD else threshold,
          if delay <= 0 then DEFAULT_DELAY else delay);
      var made: map<string, CircuitBreaker> := map[];
      for i := 0 to |providers|
        invariant made.Keys == (set k | 0 <= k < i :: providers[k])
        invariant forall n :: n in made ==> made[n].Valid() && made[n].cfg == c && made[n].owner == n
        invariant forall n :: n in made ==> made[n].history == [] && made[n].clock == now
        invariant forall n :: n in made ==> fresh(made[n])
      {
        var b := new CircuitBreaker(threshold, delay, providers[i], now);
        made := made[providers[i] := b];
      }
      this.providers, this.cfg, this.breakers := providers, c, made;
    }

    /** providerByName: is the name registered? */
    method Registered(name: string) returns (found: bool)
      ensures found <==> name in providers
    {
      for i := 0 to |providers|
        invariant name !in providers[..i]
      {
        if providers[i] == name { return true; }
      }
      return false;
    }

    method CircuitOpen(now: int) returns (open: bool)
      requires Valid() && ClockAtMost(now)
      ensures open <==> providers != [] && forall n :: n in breakers ==>
              Refuses(Recorded()[n], cfg.threshold, cfg.delay, now)
    {
      if |providers| == 0 { return false; }
      for i := 0 to |providers|
        invariant forall k :: 0 <= k < i ==> breakers[providers[k]].WouldRefuse(now)
      {
        var shown := breakers[providers[i]].Snapshot(now);
        if shown != Open { return false; }
      }
      return true;
    }

    /** HealthSnapshot: a provider is down exactly while its breaker refuses, and ok exactly while fewer than
        threshold failures trail. */
    method HealthSnapshot(now: int) returns (out: map<string, Status>)
      requires Valid() && ClockAtMost(now)
      ensures out.Keys == breakers.Keys
      ensures forall n :: n in breakers ==>
                && (out[n].Down? <==> Refuses(breakers[n].history, cfg.threshold, cfg.delay, now))
                && (out[n].Healthy? <==> Trailing(breakers[n].history) < cfg.threshold)
    {
      out := map[];
      for i := 0 to |providers|
        invariant out.Keys == (set k | 0 <= k < i :: providers[k])
        invariant forall n :: n in out ==>
                    && n in breakers
                    && (out[n].Down? <==> Refuses(breakers[n].history, cfg.threshold, cfg.delay, now))
                    && (out[n].Healthy? <==> Trailing(breakers[n].history) < cfg.threshold)
      {
        var shown := breakers[providers[i]].Snapshot(now);
        out := out[providers[i] := match shown case Closed => Healthy case HalfOpen => Degraded case Open => Down];
      }
    }

    /** The world matches this router: same providers, same breaker settings, and a clock that does not go back. */
    ghost predicate Fits(w: World) reads breakers.Values {
      && w.registered == breakers.Keys
      && w.cfg == cfg
      && |w.moments| == |w.chain|
      && w.Timely()
      && (w.moments != [] ==> ClockAtMost(w.moments[0].startAt))
    }

    /** A call of one breaker, by this request or another one; an unknown name has none. */
    method CallBreaker(o: Other)
      requires Valid() && ClockAtMost(o.call.now)
      modifies breakers.Values
      ensures Valid() && ClockAtMost(o.call.now)
      ensures Recorded() == HearOne(old(Recorded()), o)
    {
      if o.name in breakers {
        assert forall n :: n in breakers && n != o.name ==> breakers[n] != breakers[o.name];
        UseBreaker(breakers[o.name], o.call);
      }
    }

    static method UseBreaker(b: CircuitBreaker, call: Call)
      requires b.Valid() && b.clock <= call.now
      modifies b
      ensures b.Valid() && b.clock <= call.now && b.history == old(b.history) + Record(call)
    {
      assert b.history + [] == b.history;
      match call {
        case Allow(now) => var _ := b.Allow(now);
        case RecordSuccess(now) => b.Success(now);
        case RecordFailure(now) => b.Failure(now);
        case Snapshot(now) => var _ := b.Snapshot(now);
      }
    }

    method Interfere(others: seq<Other>, from: int, to: int)
      requires Valid() && ClockAtMost(from) && from <= to && InTime(others, from, to)
      modifies breakers.Values
      ensures Valid() && ClockAtMost(to) && Recorded() == Hear(old(Recorded()), others)
    {
      ghost var h := Recorded();
      HearNothing(h);
      ghost var now := from;
      for i := 0 to |others|
        invariant Valid() && Recorded() == Hear(h, others[..i])
        invariant ClockAtMost(now) && now <= to && forall j :: i <= j < |others| ==> now <= others[j].call.now
      {
        CallBreaker(others[i]);
        now := others[i].call.now;
        HearMore(h, others, i);
      }
      assert others[..|others|] == others;
    }

    /** Whether and how the provider of position q is called. */
    method Decide(w: World, q: nat) returns (f: Fate)
      requires Valid() && q < |w.chain| == |w.moments| && w.cfg == cfg && w.registered == breakers.Keys
      requires ClockAtMost(w.moments[q].askedAt)
      modifies breakers.Values
      ensures Valid() && ClockAtMost(w.moments[q].askedAt) && Recorded() == old(Recorded())
      ensures f == FateAt(w, Before(old(Recorded()), w.chain[q]), q)
    {
      var m := w.moments[q];
      var found := Registered(w.chain[q]);
      if !found { return Unregistered; }
      if w.chain[q] !in w.eligible { return Unsupported; }
      var ok := breakers[w.chain[q]].Allow(m.askedAt);
      if !ok { return Refused; }
      if m.expired { return Expired; }
      f := match m.reply
           case Good(_, _, _) => Succeeded
           case Throttled => if w.returnsOnThrottle then RateLimited else Fate.Failed
           case Broken => Fate.Failed;
    }

    /** One outcome per call, recorded when the call is over. */
    method Settle(name: string, f: Fate, now: int)
      requires Valid() && ClockAtMost(now) && (Called(f) ==> name in breakers)
      modifies breakers.Values
      ensures Valid() && ClockAtMost(now)
      ensures Recorded() == if name in breakers then old(Recorded())[name := Note(old(Recorded())[name], f, now)]
              else old(Recorded())
    {
      ghost var h := Recorded();
      if Called(f) {
        CallBreaker(Other(name, if f.Succeeded? then RecordSuccess(now) else RecordFailure(now)));
      } else if name in breakers {
        assert h[name := h[name]] == h;
      }
    }

    /** One chain position: ask the breaker, look at the context, call, record the outcome, with others at work before
        and during the call. */
    method Visit(w: World, q: nat) returns (f: Fate)
      requires Valid() && q < |w.chain| == |w.moments| && w.cfg == cfg && w.registered == breakers.Keys
      requires w.moments[q].Timely() && ClockAtMost(w.moments[q].startAt)
      modifies breakers.Values
      ensures Valid() && ClockAtMost(w.moments[q].doneAt)
      ensures f == FateAt(w, Before(Hear(old(Recorded()), w.moments[q].before), w.chain[q]), q)
      ensures Recorded() == Noted(w, old(Recorded()), q, f)
    {
      var m := w.moments[q];
      Interfere(m.before, m.startAt, m.askedAt);
      f := Decide(w, q);
      Interfere(m.during, m.askedAt, m.doneAt);
      Settle(w.chain[q], f, m.doneAt);
    }

    /** The loop of Embed and Complete. */
    method Walk(w: World) returns (log: seq<Fate>)
      requires Valid() && Fits(w)
      modifies breakers.Values
      ensures Valid() && IsWalk(w, old(Recorded()), log)
      ensures Recorded() == Later(w, old(Recorded()), log)
    {
      log := [];
      var ended := false;
      ghost var h := Recorded();
      LaterStarts(w, h);
      while |log| < |w.chain| && !ended
        invariant Valid() && Going(w, h, log, ended)
        invariant Recorded() == Later(w, h, log)
        invariant |log| < |w.chain| && !ended ==> ClockAtMost(w.moments[|log|].startAt)
        decreases |w.chain| - |log|
      {
        var f := Visit(w, |log|);
        SameFate(w, h, log);
        GoesOn(w, h, log, f);
        LaterGrows(w, h, log, f);
        log := log + [f];
        ended := Final(f);
      }
    }

    /** Embed: an empty request is invalid; an empty chain or an expired context is unavailable without a call; a
        single cached input is answered from the cache; anything else is what the walk reports, and a single vector for
        a single input is written to the cache. */
    method Embed(inputs: nat, hasCache: bool, hit: Common.Option<nat>, expired: bool, w: World)
      returns (a: Answer, log: seq<Fate>, written: Common.Option<nat>)
      requires Valid() && Fits(w) && w.eligible == w.registered && w.returnsOnThrottle
      modifies breakers.Values
      ensures Valid()
      ensures a.InvalidInput? <==> inputs == 0
      ensures inputs > 0 && (w.chain == [] || expired) ==> a == Unavailable([])
      ensures inputs == 1 && w.chain != [] && !expired && hasCache && hit.Some? ==> a == Answered(hit.value)
      ensures if inputs == 0 || w.chain == [] || expired || (inputs == 1 && hasCache && hit.Some?)
              then Recorded() == old(Recorded()) && written.None?
              else && IsWalk(w, old(Recorded()), log) && a == Report(w, log)
                   && Recorded() == Later(w, old(Recorded()), log)
                   && (written.Some? <==> inputs == 1 && hasCache && a.Answered? && Winner(w, log).vectors == 1)
                   && (written.Some? ==> written.value == a.value)
    {
      log, written := [], Common.None;
      if inputs == 0 { return InvalidInput, log, written; }
      if |w.chain| == 0 { return Unavailable([]), log, written; }
      if expired { return Unavailable([]), log, written; }
      if inputs == 1 && hasCache && hit.Some? { return Answered(hit.value), log, written; }
      log := Walk(w);
      a := Report(w, log);
      if a.Answered? {
        AnsweredByWinner(w, log);
        if inputs == 1 && hasCache && w.moments[|log| - 1].reply.vectors == 1 { written := Common.Some(a.value); }
      }
    }

    /** Complete: the same walk over the tier's chain, without a cache and without stopping on a rate limit; a reply
        that does not name its provider gets the name from the chain. */
    method Complete(expired: bool, w: World) returns (a: Answer, log: seq<Fate>, provider: string)
      requires Valid() && Fits(w) && !w.returnsOnThrottle
      modifies breakers.Values
      ensures Valid() && (a.Answered? || a.Unavailable?)
      ensures w.chain == [] || expired ==> a == Unavailable([]) && Recorded() == old(Recorded())
      ensures w.chain != [] && !expired ==>
                && IsWalk(w, old(Recorded()), log) && a == Report(w, log)
                && Recorded() == Later(w, old(Recorded()), log)
                && (a.Answered? ==>
                    provider == if Winner(w, log).provider == "" then w.chain[|log| - 1] else Winner(w, log).provider)
    {
      log, provider := [], "";
      if |w.chain| == 0 { return Unavailable([]), log, provider; }
      if expired { return Unavailable([]), log, provider; }
      log := Walk(w);
      NeverThrottling(w, old(Recorded()), log);
      a := Report(w, log);
      if a.Answered? {
        AnsweredByWinner(w, log);
        provider := w.moments[|log| - 1].reply.provider;
        if provider == "" { provider := w.chain[|log| - 1]; }
      }
    }
  }
}
