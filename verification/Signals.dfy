/** Folding session events into score signals (internal/signals/signals.go), and its Python port (modal/scoring.py). */
module Signals {
  import opened Common

  datatype Kind = PeerReuse | SelfReuse | TurnCompleted | UserOverride | Accepted | Rejected | Other

  /** `id` is None for the empty string, which is not a dedup key. */
  datatype Event = Event(id: Option<nat>, kind: Kind, subagent: bool)

  datatype ScoreSignals = ScoreSignals(
    peerReuse: Option<nat>,
    selfReuse: Option<nat>,
    overrideRate: Option<real>,
    acceptance: Option<real>)

  // ---------------------------------------------------------------- first occurrences

  /** The ids the loop has remembered after these events. */
  function Seen(events: seq<Event>, sub: bool): set<nat> {
    if events == [] then {}
    else
      var e := events[|events| - 1];
      Seen(events[..|events| - 1], sub) + (if e.subagent == sub && e.id.Some? then {e.id.value} else {})
  }

  /** An event counts if it is in the wanted partition and its id, if any, is new. */
  predicate Fresh(events: seq<Event>, e: Event, sub: bool) {
    e.subagent == sub && (e.id.None? || e.id.value !in Seen(events, sub))
  }

  /** How many events of a kind the loop counts. */
  function Counted(events: seq<Event>, sub: bool, kind: Kind): nat {
    if events == [] then 0
    else
      var (init, e) := (events[..|events| - 1], events[|events| - 1]);
      Counted(init, sub, kind) + if Fresh(init, e, sub) && e.kind == kind then 1 else 0
  }

  lemma {:induction false} SeenMeans(events: seq<Event>, sub: bool, id: nat)
    ensures id in Seen(events, sub) <==>
            exists k :: 0 <= k < |events| && events[k].subagent == sub && events[k].id == Some(id)
  {
    if events != [] {
      var init := events[..|events| - 1];
      SeenMeans(init, sub, id);
      if k :| 0 <= k < |init| && init[k].subagent == sub && init[k].id == Some(id) {
        assert events[k] == init[k];
      }
      if k :| 0 <= k < |events| && events[k].subagent == sub && events[k].id == Some(id) {
        assert k < |init| ==> init[k] == events[k];
      }
    }
  }

  // ---------------------------------------------------------------- the loop

  function Rate(part: nat, whole: nat): real
    requires whole > 0
  {
    part as real / whole as real
  }

  /** The signals a tally gives: counters only when positive, the override rate only with both overrides and turns and
      never over 1, acceptance only with an outcome. */
  function FromTally(peer: nat, self: nat, turns: nat, overrides: nat, accepted: nat, rejected: nat): ScoreSignals {
    ScoreSignals(
      if peer > 0 then Some(peer) else None,
      if self > 0 then Some(self) else None,
      if overrides > 0 && turns > 0 then Some(if overrides > turns then 1.0 else Rate(overrides, turns)) else None,
      if accepted + rejected > 0 then Some(Rate(accepted, accepted + rejected)) else None)
  }

  function SignalsOf(events: seq<Event>, sub: bool): ScoreSignals {
    FromTally(Counted(events, sub, PeerReuse), Counted(events, sub, SelfReuse), Counted(events, sub, TurnCompleted),
              Counted(events, sub, UserOverride), Counted(events, sub, Accepted), Counted(events, sub, Rejected))
  }

  /** Both rates are in [0, 1], and the override rate is never 0: zero overrides give no signal. */
  lemma {:induction false} RatesInRange(events: seq<Event>, sub: bool)
    ensures var s := SignalsOf(events, sub);
            && (s.overrideRate.Some? ==> 0.0 < s.overrideRate.value <= 1.0)
            && (s.acceptance.Some? ==> 0.0 <= s.acceptance.value <= 1.0)
  {
    var (turns, overrides) := (Counted(events, sub, TurnCompleted), Counted(events, sub, UserOverride));
    if 0 < overrides <= turns { RateInRange(overrides, turns); }
    var (accepted, rejected) := (Counted(events, sub, Accepted), Counted(events, sub, Rejected));
    if accepted + rejected > 0 { RateInRange(accepted, accepted + rejected); }
  }

  lemma {:induction false} RateInRange(part: nat, whole: nat)
    requires part <= whole && whole > 0
    ensures 0.0 <= Rate(part, whole) <= 1.0 && (part > 0 ==> Rate(part, whole) > 0.0)
  {
    var (p, w, r) := (part as real, whole as real, Rate(part, whole));
    assert r * w == p;
    SignOfFactor(r, w);
    assert (1.0 - r) * w == w - p;
    SignOfFactor(1.0 - r, w);
  }

  lemma {:induction false} SignOfFactor(x: real, w: real)
    requires w > 0.0
    ensures x * w >= 0.0 ==> x >= 0.0
    ensures x * w > 0.0 ==> x > 0.0
  {
    if x < 0.0 { assert x * w < 0.0; }
  }

  /** aggregate */
  method Aggregate(events: seq<Event>, sub: bool) returns (out: ScoreSignals)
    ensures out == SignalsOf(events, sub)
  {
    if |events| == 0 {
      return ScoreSignals(None, None, None, None);
    }
    var seen: set<nat> := {};
    var peer, self, turns, overrides, accepted, rejected := 0, 0, 0, 0, 0, 0;
    for i := 0 to |events|
      invariant seen == Seen(events[..i], sub)
      invariant peer == Counted(events[..i], sub, PeerReuse) && self == Counted(events[..i], sub, SelfReuse)
      invariant turns == Counted(events[..i], sub, TurnCompleted)
      invariant overrides == Counted(events[..i], sub, UserOverride)
      invariant accepted == Counted(events[..i], sub, Accepted) && rejected == Counted(events[..i], sub, Rejected)
    {
      assert events[..i + 1][..i] == events[..i];
      var e := events[i];
      if e.subagent != sub { continue; }
      if e.id.Some? {
        if e.id.value in seen { continue; }
        seen := seen + {e.id.value};
      }
      match e.kind {
        case PeerReuse => peer := peer + 1;
        case SelfReuse => self := self + 1;
        case TurnCompleted => turns := turns + 1;
        case UserOverride => overrides := overrides + 1;
        case Accepted => accepted := accepted + 1;
        case Rejected => rejected := rejected + 1;
        case Other =>
      }
    }
    assert events[..|events|] == events;
    out := FromTally(peer, self, turns, overrides, accepted, rejected);
  }

  // ---------------------------------------------------------------- order

  /** The meaning without order: distinct ids of the kind, plus its id-less events. */
  function IdsOfKind(events: multiset<Event>, sub: bool, kind: Kind): set<nat> {
    set e | e in events && e.subagent == sub && e.kind == kind && e.id.Some? :: e.id.value
  }

  function Reference(events: multiset<Event>, sub: bool, kind: Kind): nat {
    |IdsOfKind(events, sub, kind)| + events[Event(None, kind, sub)]
  }

  /** Events of the partition that share an id share their kind. */
  ghost predicate Consistent(events: seq<Event>, sub: bool) {
    forall i, j :: 0 <= i < |events| && 0 <= j < |events| ==> !Clash(events[i], events[j], sub)
  }

  predicate Clash(a: Event, b: Event, sub: bool) {
    a.subagent == sub && b.subagent == sub && a.id.Some? && a.id == b.id && a.kind != b.kind
  }

  lemma {:induction false} IdsGrow(ms: multiset<Event>, e: Event, sub: bool, kind: Kind)
    ensures IdsOfKind(ms + multiset{e}, sub, kind)
            == IdsOfKind(ms, sub, kind)
               + (if e.subagent == sub && e.kind == kind && e.id.Some? then {e.id.value} else {})
  {
    var all := ms + multiset{e};
    forall id | id in IdsOfKind(ms, sub, kind) ensures id in IdsOfKind(all, sub, kind) {
      var x :| x in ms && x.subagent == sub && x.kind == kind && x.id.Some? && x.id.value == id;
      assert x in all;
    }
    if e.subagent == sub && e.kind == kind && e.id.Some? {
      assert e in all;
    }
  }

  lemma {:induction false} IdsAreSeen(events: seq<Event>, sub: bool, kind: Kind, id: nat)
    requires Consistent(events, sub)
    ensures id in IdsOfKind(multiset(events), sub, kind) ==> id in Seen(events, sub)
  {
    if id in IdsOfKind(multiset(events), sub, kind) {
      var x :| x in multiset(events) && x.subagent == sub && x.kind == kind && x.id == Some(id);
      assert x in events;
      SeenMeans(events, sub, id);
    }
  }

  /** A repeated id adds nothing to the set of its kind. */
  lemma {:induction false} RepeatAddsNothing(init: seq<Event>, e: Event, sub: bool)
    requires Consistent(init + [e], sub) && e.subagent == sub && e.id.Some? && e.id.value in Seen(init, sub)
    ensures e.id.value in IdsOfKind(multiset(init), sub, e.kind)
  {
    SeenMeans(init, sub, e.id.value);
    var k :| 0 <= k < |init| && init[k].subagent == sub && init[k].id == e.id;
    var all := init + [e];
    assert all[k] == init[k] && all[|init|] == e && !Clash(all[k], all[|init|], sub);
    assert init[k] in multiset(init);
  }

  lemma {:induction false} ReferenceGrows(init: seq<Event>, e: Event, sub: bool, kind: Kind)
    requires Consistent(init + [e], sub) && Consistent(init, sub)
    ensures Reference(multiset(init) + multiset{e}, sub, kind)
            == Reference(multiset(init), sub, kind) + if Fresh(init, e, sub) && e.kind == kind then 1 else 0
  {
    IdsGrow(multiset(init), e, sub, kind);
    if e.id.Some? && e.subagent == sub {
      if e.id.value in Seen(init, sub) {
        RepeatAddsNothing(init, e, sub);
      } else {
        IdsAreSeen(init, sub, kind, e.id.value);
      }
    }
  }

  /** When ids and kinds agree, the loop counts exactly the order-free reference. */
  lemma {:induction false} CountedIsReference(events: seq<Event>, sub: bool, kind: Kind)
    requires Consistent(events, sub)
    ensures Counted(events, sub, kind) == Reference(multiset(events), sub, kind)
  {
    if events == [] {
      assert IdsOfKind(multiset(events), sub, kind) == {};
    } else {
      var (init, e) := (events[..|events| - 1], events[|events| - 1]);
      assert events == init + [e];
      CountedIsReference(init, sub, kind);
      ReferenceGrows(init, e, sub, kind);
    }
  }

  /** Two starts that leave the same ids remembered differ only by what they counted. */
  lemma {:induction false} SameRest(a: seq<Event>, b: seq<Event>, rest: seq<Event>, sub: bool, kind: Kind)
    requires Seen(a, sub) == Seen(b, sub)
    ensures Seen(a + rest, sub) == Seen(b + rest, sub)
    ensures Counted(a + rest, sub, kind) - Counted(a, sub, kind) == Counted(b + rest, sub, kind) - Counted(b, sub, kind)
  {
    if rest == [] {
      assert a + rest == a && b + rest == b;
    } else {
      var init := rest[..|rest| - 1];
      SameRest(a, b, init, sub, kind);
      assert (a + rest)[..|a + rest| - 1] == a + init && (b + rest)[..|b + rest| - 1] == b + init;
    }
  }

  lemma {:induction false} PairCounts(x: Event, y: Event, sub: bool, kind: Kind)
    requires Clash(x, y, sub)
    ensures Seen([x, y], sub) == {x.id.value}
    ensures Counted([x, y], sub, kind) == if x.kind == kind then 1 else 0
  {
    assert [x, y][..1] == [x] && [x][..0] == [];
    assert Seen([x], sub) == {x.id.value};
    assert Counted([x], sub, kind) == if x.kind == kind then 1 else 0;
  }

  /** The signals do not depend on the order of the events. */
  ghost predicate OrderFree(events: seq<Event>, sub: bool) {
    forall other :: multiset(other) == multiset(events) ==> SignalsOf(other, sub) == SignalsOf(events, sub)
  }

  lemma {:induction false} ShuffledConsistent(events: seq<Event>, other: seq<Event>, sub: bool)
    requires Consistent(events, sub) && multiset(other) == multiset(events)
    ensures Consistent(other, sub)
  {
    forall i, j | 0 <= i < |other| && 0 <= j < |other| ensures !Clash(other[i], other[j], sub) {
      assert other[i] in multiset(events) && other[j] in multiset(events);
      var k :| 0 <= k < |events| && events[k] == other[i];
      var m :| 0 <= m < |events| && events[m] == other[j];
      assert !Clash(events[k], events[m], sub);
    }
  }

  /** Events that share an id share their kind: then every order gives the same signals. */
  lemma {:induction false} ConsistentIsOrderFree(events: seq<Event>, sub: bool)
    requires Consistent(events, sub)
    ensures OrderFree(events, sub)
  {
    forall other | multiset(other) == multiset(events) ensures SignalsOf(other, sub) == SignalsOf(events, sub) {
      ShuffledConsistent(events, other, sub);
      forall kind ensures Counted(other, sub, kind) == Counted(events, sub, kind) {
        CountedIsReference(events, sub, kind);
        CountedIsReference(other, sub, kind);
      }
    }
  }

  /** The order does show otherwise: one id, accepted and rejected, gives acceptance 1 or 0. */
  lemma {:induction false} OrderShows()
    ensures var (yes, no) := (Event(Some(1), Accepted, false), Event(Some(1), Rejected, false));
            && SignalsOf([yes, no], false).acceptance == Some(1.0)
            && SignalsOf([no, yes], false).acceptance == Some(0.0)
  {
    var (yes, no) := (Event(Some(1), Accepted, false), Event(Some(1), Rejected, false));
    forall kind ensures Counted([yes, no], false, kind) == (if kind == Accepted then 1 else 0)
                        && Counted([no, yes], false, kind) == (if kind == Rejected then 1 else 0) {
      PairCounts(yes, no, false, kind);
      PairCounts(no, yes, false, kind);
    }
  }

  // ---------------------------------------------------------------- order, with more events to come

  /** Further events of the partition whose ids are new, or that have none. */
  predicate Unrelated(events: seq<Event>, more: seq<Event>, sub: bool) {
    && (forall i :: 0 <= i < |more| && more[i].subagent == sub && more[i].id.Some? ==>
        more[i].id.value !in Seen(events, sub))
    && (forall i, j :: 0 <= i < j < |more| && more[i].subagent == sub && more[j].subagent == sub && more[i].id.Some?
          ==> more[i].id != more[j].id)
  }

  lemma {:induction false} UnrelatedKeepsConsistent(events: seq<Event>, more: seq<Event>, sub: bool)
    requires Consistent(events, sub) && Unrelated(events, more, sub)
    ensures Consistent(events + more, sub)
  {
    var (all, n) := (events + more, |events|);
    forall i, j | 0 <= i < |all| && 0 <= j < |all| ensures !Clash(all[i], all[j], sub) {
      if i < n && j < n {
        assert !Clash(events[i], events[j], sub);
      } else if i < n {
        NotSeen(events, i, more[j - n], sub);
      } else if j < n {
        NotSeen(events, j, more[i - n], sub);
      } else if i != j {
        assert all[i] == more[i - n] && all[j] == more[j - n];
      }
    }
  }

  lemma {:induction false} NotSeen(events: seq<Event>, i: nat, e: Event, sub: bool)
    requires i < |events| && (e.subagent == sub && e.id.Some? ==> e.id.value !in Seen(events, sub))
    ensures !Clash(events[i], e, sub) && !Clash(e, events[i], sub)
  {
    if e.id.Some? { SeenMeans(events, sub, e.id.value); }
  }

  function Repeat(e: Event, n: nat): seq<Event> {
    if n == 0 then [] else Repeat(e, n - 1) + [e]
  }

  predicate AllAnonymous(events: seq<Event>) { forall k :: 0 <= k < |events| ==> events[k].id.None? }

  lemma {:induction false} RepeatCounts(e: Event, n: nat, f: Event)
    ensures multiset(Repeat(e, n))[f] == if f == e then n else 0
    ensures e.id.None? ==> AllAnonymous(Repeat(e, n))
  {
    if n > 0 { RepeatCounts(e, n - 1, f); }
  }

  lemma {:induction false} Joined(a: seq<Event>, b: seq<Event>, f: Event)
    requires AllAnonymous(a) && AllAnonymous(b)
    ensures multiset(a + b)[f] == multiset(a)[f] + multiset(b)[f] && AllAnonymous(a + b)
  {
  }

  function Plain(kind: Kind, sub: bool): Event { Event(None, kind, sub) }

  function Padding(turns: nat, others: nat, sub: bool): seq<Event> {
    Repeat(Plain(TurnCompleted, sub), turns) + Repeat(Plain(UserOverride, sub), others)
    + Repeat(Plain(Accepted, sub), others) + Repeat(Plain(Rejected, sub), others)
  }

  /** Enough id-less events to make every single count show: more turns than overrides, and some of everything. */
  function Revealing(n: nat, sub: bool): seq<Event> { Padding(n + 5, 2, sub) }

  function Revealed(n: nat, kind: Kind): nat {
    match kind case TurnCompleted => n + 5 case UserOverride => 2 case Accepted => 2 case Rejected => 2 case _ => 0
  }

  lemma {:induction false} FourJoined(t: seq<Event>, o: seq<Event>, a: seq<Event>, r: seq<Event>, f: Event)
    requires AllAnonymous(t) && AllAnonymous(o) && AllAnonymous(a) && AllAnonymous(r)
    ensures multiset(t + o + a + r)[f] == multiset(t)[f] + multiset(o)[f] + multiset(a)[f] + multiset(r)[f]
    ensures AllAnonymous(t + o + a + r)
  {
    Joined(t, o, f);
    Joined(t + o, a, f);
    Joined(t + o + a, r, f);
  }

  lemma {:induction false} PaddingCounts(turns: nat, others: nat, sub: bool, kind: Kind)
    ensures multiset(Padding(turns, others, sub))[Plain(kind, sub)]
            == match kind
               case TurnCompleted => turns
               case UserOverride => others
               case Accepted => others
               case Rejected => others
               case _ => 0
    ensures AllAnonymous(Padding(turns, others, sub))
  {
    var f := Plain(kind, sub);
    RepeatCounts(Plain(TurnCompleted, sub), turns, f);
    RepeatCounts(Plain(UserOverride, sub), others, f);
    RepeatCounts(Plain(Accepted, sub), others, f);
    RepeatCounts(Plain(Rejected, sub), others, f);
    FourJoined(Repeat(Plain(TurnCompleted, sub), turns), Repeat(Plain(UserOverride, sub), others),
               Repeat(Plain(Accepted, sub), others), Repeat(Plain(Rejected, sub), others), f);
  }

  lemma {:induction false} RevealingCounts(n: nat, sub: bool, kind: Kind)
    ensures multiset(Revealing(n, sub))[Plain(kind, sub)] == Revealed(n, kind) && AllAnonymous(Revealing(n, sub))
  {
    PaddingCounts(n + 5, 2, sub, kind);
  }

  lemma {:induction false} CountedAtMost(events: seq<Event>, sub: bool, kind: Kind)
    ensures Counted(events, sub, kind) <= |events|
  {
    if events != [] { CountedAtMost(events[..|events| - 1], sub, kind); }
  }

  function One(kind: Kind, other: Kind): nat { if kind == other then 1 else 0 }

  /** What the two orders share, apart from the one count they disagree on. */
  lemma {:induction false} SharedCount(x: Event, y: Event, rest: seq<Event>, n: nat, sub: bool, kind: Kind)
    returns (b: nat)
    requires Clash(x, y, sub) && n == |rest| + 2
    ensures Counted([x, y] + rest + Revealing(n, sub), sub, kind) == b + One(x.kind, kind)
    ensures Counted([y, x] + rest + Revealing(n, sub), sub, kind) == b + One(y.kind, kind)
    ensures Revealed(n, kind) <= b + 1 && b <= n + Revealed(n, kind)
  {
    var more := Revealing(n, sub);
    PairCounts(x, y, sub, kind);
    PairCounts(y, x, sub, kind);
    SameRest([x, y], [y, x], rest + more, sub, kind);
    assert [x, y] + rest + more == [x, y] + (rest + more) && [y, x] + rest + more == [y, x] + (rest + more);
    RevealingCounts(n, sub, kind);
    ReplayAdds([x, y] + rest, more, sub, kind);
    CountedAtMost([x, y] + rest, sub, kind);
    AtLeastFirst(x, y, rest + more, sub, kind);
    b := Counted([x, y] + rest + more, sub, kind) - One(x.kind, kind);
  }

  lemma {:induction false} AtLeastFirst(x: Event, y: Event, rest: seq<Event>, sub: bool, kind: Kind)
    requires Clash(x, y, sub)
    ensures Counted([x, y] + rest, sub, kind) >= One(x.kind, kind)
  {
    PairCounts(x, y, sub, kind);
    CountedGrowsWith([x, y], rest, sub, kind);
  }

  lemma {:induction false} CountedGrowsWith(a: seq<Event>, rest: seq<Event>, sub: bool, kind: Kind)
    ensures Counted(a + rest, sub, kind) >= Counted(a, sub, kind)
  {
    if rest == [] {
      assert a + rest == a;
    } else {
      assert (a + rest)[..|a + rest| - 1] == a + rest[..|rest| - 1];
      CountedGrowsWith(a, rest[..|rest| - 1], sub, kind);
    }
  }

  lemma {:induction false} RatesDiffer(p: nat, q: nat, p': nat, q': nat)
    requires q > 0 && q' > 0 && p * q' != p' * q
    ensures Rate(p, q) != Rate(p', q')
  {
    SameRate(p, q, p', q');
  }

  lemma {:induction false} SameRate(p: nat, q: nat, p': nat, q': nat)
    requires q > 0 && q' > 0
    ensures Rate(p, q) == Rate(p', q') <==> p * q' == p' * q
  {
    var (x, y) := (Rate(p, q), Rate(p', q'));
    var (a, b, c, d) := (p as real, q as real, p' as real, q' as real);
    assert x * b == a && y * d == c;
    assert (x - y) * (b * d) == a * d - c * b by { assert x * b * d == a * d && y * d * b == c * b; }
    assert (p * q') as real == a * d && (p' * q) as real == c * b;
    ZeroFactor(x - y, b * d);
  }

  lemma {:induction false} ZeroFactor(x: real, w: real)
    requires w > 0.0
    ensures x * w == 0.0 <==> x == 0.0
  {
    SignOfFactor(x, w);
    SignOfFactor(-x, w);
  }

  function OverrideRate(turns: nat, overrides: nat): Option<real> {
    FromTally(0, 0, turns, overrides, 0, 0).overrideRate
  }

  function Acceptance(accepted: nat, rejected: nat): Option<real> {
    FromTally(0, 0, 0, 0, accepted, rejected).acceptance
  }

  /** With more turns than overrides, one more of either shows. */
  lemma {:induction false} OverrideShows(t: nat, o: nat, x: Kind, y: Kind)
    requires 1 <= o && o + 2 <= t && x != y
    requires x.TurnCompleted? || x.UserOverride? || y.TurnCompleted? || y.UserOverride?
    ensures OverrideRate(t + One(x, TurnCompleted), o + One(x, UserOverride))
            != OverrideRate(t + One(y, TurnCompleted), o + One(y, UserOverride))
  {
    var (t1, o1) := (t + One(x, TurnCompleted), o + One(x, UserOverride));
    var (t2, o2) := (t + One(y, TurnCompleted), o + One(y, UserOverride));
    assert o * (t + 1) == o * t + o && (o + 1) * t == o * t + t && (o + 1) * (t + 1) == o * t + o + t + 1;
    RatesDiffer(o1, t1, o2, t2);
  }

  /** With both outcomes present, one more of either shows. */
  lemma {:induction false} AcceptanceShows(a: nat, r: nat, x: Kind, y: Kind)
    requires 1 <= a && 1 <= r && x != y && (x.Accepted? || x.Rejected? || y.Accepted? || y.Rejected?)
    ensures Acceptance(a + One(x, Accepted), r + One(x, Rejected))
            != Acceptance(a + One(y, Accepted), r + One(y, Rejected))
  {
    var (a1, r1) := (a + One(x, Accepted), r + One(x, Rejected));
    var (a2, r2) := (a + One(y, Accepted), r + One(y, Rejected));
    var w := a + r;
    assert a * (w + 1) == a * w + a && (a + 1) * w == a * w + w && (a + 1) * (w + 1) == a * w + a + w + 1;
    RatesDiffer(a1, a1 + r1, a2, a2 + r2);
  }

  /** Swapping two clashing events at the front changes the signals, once enough else has been counted. */
  lemma {:induction false} ClashShows(x: Event, y: Event, rest: seq<Event>, n: nat, sub: bool)
    requires Clash(x, y, sub) && n == |rest| + 2
    ensures SignalsOf([x, y] + rest + Revealing(n, sub), sub) != SignalsOf([y, x] + rest + Revealing(n, sub), sub)
  {
    var peer := SharedCount(x, y, rest, n, sub, PeerReuse);
    var self := SharedCount(x, y, rest, n, sub, SelfReuse);
    var turns := SharedCount(x, y, rest, n, sub, TurnCompleted);
    var overrides := SharedCount(x, y, rest, n, sub, UserOverride);
    var accepted := SharedCount(x, y, rest, n, sub, Accepted);
    var rejected := SharedCount(x, y, rest, n, sub, Rejected);
    SomeSignalShows(peer, self, turns, overrides, accepted, rejected, x.kind, y.kind);
  }

  function WithOne(peer: nat, self: nat, turns: nat, overrides: nat, accepted: nat, rejected: nat, x: Kind)
    : ScoreSignals
  {
    FromTally(peer + One(x, PeerReuse), self + One(x, SelfReuse), turns + One(x, TurnCompleted),
              overrides + One(x, UserOverride), accepted + One(x, Accepted), rejected + One(x, Rejected))
  }

  lemma {:induction false} SomeSignalShows(peer: nat, self: nat, turns: nat, overrides: nat, accepted: nat,
      rejected: nat, x: Kind, y: Kind)
    requires 1 <= overrides && overrides + 2 <= turns && 1 <= accepted && 1 <= rejected && x != y
    ensures WithOne(peer, self, turns, overrides, accepted, rejected, x)
            != WithOne(peer, self, turns, overrides, accepted, rejected, y)
  {
    var u := WithOne(peer, self, turns, overrides, accepted, rejected, x);
    var v := WithOne(peer, self, turns, overrides, accepted, rejected, y);
    if x.PeerReuse? || y.PeerReuse? {
      assert u.peerReuse != v.peerReuse;
    } else if x.SelfReuse? || y.SelfReuse? {
      assert u.selfReuse != v.selfReuse;
    } else if x.TurnCompleted? || x.UserOverride? || y.TurnCompleted? || y.UserOverride? {
      OverrideShows(turns, overrides, x, y);
      assert u.overrideRate != v.overrideRate;
    } else {
      AcceptanceShows(accepted, rejected, x, y);
      assert u.acceptance != v.acceptance;
    }
  }

  lemma {:induction false} TwoToFront(events: seq<Event>, i: nat, j: nat) returns (rest: seq<Event>)
    requires i < j < |events|
    ensures multiset([events[i], events[j]] + rest) == multiset(events) == multiset([events[j], events[i]] + rest)
  {
    var (a, b, c) := (events[..i], events[i + 1..j], events[j + 1..]);
    rest := a + b + c;
    assert events == a + [events[i]] + b + [events[j]] + c;
    assert multiset([events[i], events[j]]) == multiset([events[j], events[i]]);
  }

  lemma {:induction false} ClashIsNotOrderFree(events: seq<Event>, lo: nat, hi: nat, sub: bool)
    requires lo < hi < |events| && Clash(events[lo], events[hi], sub)
    ensures !OrderFree(events + Revealing(|events|, sub), sub)
  {
    var more := Revealing(|events|, sub);
    var rest := TwoToFront(events, lo, hi);
    var (p, q) := ([events[lo], events[hi]] + rest, [events[hi], events[lo]] + rest);
    SameSize(p, events);
    ClashShows(events[lo], events[hi], rest, |events|, sub);
    MorePermuted(p, events, more);
    MorePermuted(q, events, more);
  }

  lemma {:induction false} SameSize(p: seq<Event>, events: seq<Event>)
    requires multiset(p) == multiset(events)
    ensures |p| == |events|
  {
    assert |multiset(p)| == |p| && |multiset(events)| == |events|;
  }

  lemma {:induction false} MorePermuted(p: seq<Event>, events: seq<Event>, more: seq<Event>)
    requires multiset(p) == multiset(events)
    ensures multiset(p + more) == multiset(events + more)
  {
  }

  /** Unrelated events leave every order free. */
  ghost predicate StaysOrderFree(events: seq<Event>, sub: bool) {
    forall more :: Unrelated(events, more, sub) ==> OrderFree(events + more, sub)
  }

  lemma {:induction false} ConsistentStaysFree(events: seq<Event>, sub: bool)
    requires Consistent(events, sub)
    ensures StaysOrderFree(events, sub)
  {
    forall more | Unrelated(events, more, sub) ensures OrderFree(events + more, sub) {
      UnrelatedKeepsConsistent(events, more, sub);
      ConsistentIsOrderFree(events + more, sub);
    }
  }

  lemma {:induction false} AnonymousIsUnrelated(events: seq<Event>, more: seq<Event>, sub: bool)
    requires AllAnonymous(more)
    ensures Unrelated(events, more, sub)
  {
  }

  /** The signals of the events, with whatever unrelated events join them, are the same for every order if and only if
      events that share an id share their kind. */
  lemma {:induction false} OrderIndependentIff(events: seq<Event>, sub: bool)
    ensures Consistent(events, sub) <==> StaysOrderFree(events, sub)
  {
    if Consistent(events, sub) {
      ConsistentStaysFree(events, sub);
    } else {
      var i, j :| 0 <= i < |events| && 0 <= j < |events| && Clash(events[i], events[j], sub);
      ClashIsNotOrderFree(events, if i < j then i else j, if i < j then j else i, sub);
      RevealingCounts(|events|, sub, Other);
      AnonymousIsUnrelated(events, Revealing(|events|, sub), sub);
    }
  }

  // ---------------------------------------------------------------- replay

  /** Appending events whose ids were already counted adds exactly their id-less ones. */
  lemma {:induction false} ReplayAdds(events: seq<Event>, again: seq<Event>, sub: bool, kind: Kind)
    requires forall k :: 0 <= k < |again| && again[k].subagent == sub && again[k].id.Some? ==>
             again[k].id.value in Seen(events, sub)
    ensures Seen(events + again, sub) == Seen(events, sub)
    ensures Counted(events + again, sub, kind) == Counted(events, sub, kind) + multiset(again)[Event(None, kind, sub)]
  {
    if again == [] {
      assert events + again == events;
    } else {
      var (init, e) := (again[..|again| - 1], again[|again| - 1]);
      ReplayAdds(events, init, sub, kind);
      assert (events + again)[..|events + again| - 1] == events + init;
      assert again == init + [e];
      assert e == Event(None, kind, sub) <==> Fresh(events + init, e, sub) && e.kind == kind;
    }
  }

  /** The id-less events of a kind. */
  function Anonymous(events: seq<Event>, sub: bool, kind: Kind): nat { multiset(events)[Plain(kind, sub)] }

  lemma {:induction false} ReplayedCount(events: seq<Event>, sub: bool, kind: Kind)
    ensures Counted(events + events, sub, kind) == Counted(events, sub, kind) + Anonymous(events, sub, kind)
  {
    forall k | 0 <= k < |events| && events[k].subagent == sub && events[k].id.Some?
      ensures events[k].id.value in Seen(events, sub)
    {
      SeenMeans(events, sub, events[k].id.value);
    }
    ReplayAdds(events, events, sub, kind);
  }

  lemma {:induction false} AnonymousIsCounted(events: seq<Event>, sub: bool, kind: Kind)
    ensures Anonymous(events, sub, kind) <= Counted(events, sub, kind)
  {
    if events != [] {
      var (init, e) := (events[..|events| - 1], events[|events| - 1]);
      AnonymousIsCounted(init, sub, kind);
      assert events == init + [e];
    }
  }

  /** p more overrides and q more turns leave the override rate as it was. */
  predicate RateKept(turns: nat, overrides: nat, q: nat, p: nat) {
    turns == 0 || overrides == 0 || p * turns == q * overrides || (overrides >= turns && overrides + p >= turns + q)
  }

  lemma {:induction false} RatioKept(t: nat, o: nat, q: nat, p: nat)
    requires t > 0
    ensures Rate(o + p, t + q) == Rate(o, t) <==> p * t == q * o
  {
    SameRate(o + p, t + q, o, t);
    assert (o + p) * t == o * t + p * t && o * (t + q) == o * t + q * o;
  }

  lemma {:induction false} RateIsOne(o: nat, t: nat)
    requires t > 0
    ensures Rate(o, t) == 1.0 <==> o == t
  {
    SameRate(o, t, 1, 1);
  }

  lemma {:induction false} OverrideKeptIff(t: nat, o: nat, q: nat, p: nat)
    requires q <= t && p <= o
    ensures OverrideRate(t + q, o + p) == OverrideRate(t, o) <==> RateKept(t, o, q, p)
  {
    if t > 0 && o > 0 {
      if o > t && o + p <= t + q {
        RatioFalls(t, o, q, p);
        RateIsOne(o + p, t + q);
      } else if o <= t && o + p > t + q {
        RatioRises(t, o, q, p);
        RateIsOne(o, t);
      } else if o <= t {
        RatioKept(t, o, q, p);
        if o == t && o + p == t + q { RateIsOne(o, t); RateIsOne(o + p, t + q); }
      }
    }
  }

  lemma {:induction false} RatioFalls(t: nat, o: nat, q: nat, p: nat)
    requires o > t > 0 && o + p <= t + q
    ensures p * t < q * o
  {
    assert p < q;
    assert p * t <= p * o < q * o;
  }

  lemma {:induction false} RatioRises(t: nat, o: nat, q: nat, p: nat)
    requires 0 < o <= t && o + p > t + q
    ensures p * t > q * o
  {
    assert p > q;
    assert p * t >= p * o > q * o;
  }

  /** u more acceptances and v more rejections leave the acceptance rate as it was. */
  lemma {:induction false} AcceptanceKeptIff(a: nat, r: nat, u: nat, v: nat)
    requires u <= a && v <= r
    ensures Acceptance(a + u, r + v) == Acceptance(a, r) <==> u * r == v * a
  {
    if a + r > 0 {
      SameRate(a + u, a + u + r + v, a, a + r);
      assert (a + u) * (a + r) == a * a + a * r + u * a + u * r;
      assert a * (a + u + r + v) == a * a + a * u + a * r + a * v;
    }
  }

  /** What a replay of the whole slice must not disturb, in terms of the counts and of how many events have no id. */
  predicate ReplaySafe(events: seq<Event>, sub: bool) {
    && Anonymous(events, sub, PeerReuse) == 0 && Anonymous(events, sub, SelfReuse) == 0
    && RateKept(Counted(events, sub, TurnCompleted), Counted(events, sub, UserOverride),
                Anonymous(events, sub, TurnCompleted), Anonymous(events, sub, UserOverride))
    && Anonymous(events, sub, Accepted) * Counted(events, sub, Rejected)
       == Anonymous(events, sub, Rejected) * Counted(events, sub, Accepted)
  }

  /** A replay leaves the signals as they were if and only if id-less events leave every ratio as it was; in particular
      whenever every counted event has an id. */
  lemma {:induction false} ReplayIsIdempotentIff(events: seq<Event>, sub: bool)
    ensures SignalsOf(events + events, sub) == SignalsOf(events, sub) <==> ReplaySafe(events, sub)
    ensures (forall kind :: kind != Other ==> Plain(kind, sub) !in events) ==> ReplaySafe(events, sub)
  {
    ReplayedTally(events, sub);
    TallyKeptIff(Counted(events, sub, PeerReuse), Counted(events, sub, SelfReuse), Counted(events, sub, TurnCompleted),
                 Counted(events, sub, UserOverride), Counted(events, sub, Accepted), Counted(events, sub, Rejected),
                 Anonymous(events, sub, PeerReuse), Anonymous(events, sub, SelfReuse),
                 Anonymous(events, sub, TurnCompleted), Anonymous(events, sub, UserOverride),
                 Anonymous(events, sub, Accepted), Anonymous(events, sub, Rejected));
    assert forall kind :: Plain(kind, sub) !in events ==> Anonymous(events, sub, kind) == 0;
  }

  lemma {:induction false} ReplayedTally(events: seq<Event>, sub: bool)
    ensures forall kind ::
            Counted(events + events, sub, kind) == Counted(events, sub, kind) + Anonymous(events, sub, kind)
    ensures forall kind :: Anonymous(events, sub, kind) <= Counted(events, sub, kind)
  {
    forall kind
      ensures Counted(events + events, sub, kind) == Counted(events, sub, kind) + Anonymous(events, sub, kind)
      ensures Anonymous(events, sub, kind) <= Counted(events, sub, kind)
    {
      ReplayedCount(events, sub, kind);
      AnonymousIsCounted(events, sub, kind);
    }
  }

  lemma {:induction false} TallyKeptIff(peer: nat, self: nat, t: nat, o: nat, a: nat, r: nat,
                                        peer': nat, self': nat, q: nat, p: nat, u: nat, v: nat)
    requires q <= t && p <= o && u <= a && v <= r
    ensures FromTally(peer + peer', self + self', t + q, o + p, a + u, r + v) == FromTally(peer, self, t, o, a, r)
            <==> peer' == 0 && self' == 0 && RateKept(t, o, q, p) && u * r == v * a
  {
    OverrideKeptIff(t, o, q, p);
    AcceptanceKeptIff(a, r, u, v);
    var (now, was) := (FromTally(peer + peer', self + self', t + q, o + p, a + u, r + v),
        FromTally(peer, self, t, o, a, r));
    assert now.overrideRate == OverrideRate(t + q, o + p) && was.overrideRate == OverrideRate(t, o);
    assert now.acceptance == Acceptance(a + u, r + v) && was.acceptance == Acceptance(a, r);
  }

  /** The replay does show otherwise: one id-less reuse event is counted twice. */
  lemma {:induction false} ReplayShows()
    ensures var e := Plain(PeerReuse, false);
            SignalsOf([e], false).peerReuse == Some(1) && SignalsOf([e] + [e], false).peerReuse == Some(2)
  {
    var e := Plain(PeerReuse, false);
    assert [e][..0] == [];
    assert Counted([e], false, PeerReuse) == 1;
    ReplayedCount([e], false, PeerReuse);
  }

  // ---------------------------------------------------------------- partitions

  function Only(events: seq<Event>, sub: bool): seq<Event> {
    if events == [] then []
    else
      var init := Only(events[..|events| - 1], sub);
      if events[|events| - 1].subagent == sub then init + [events[|events| - 1]] else init
  }

  lemma {:induction false} OnlyGrows(init: seq<Event>, e: Event, sub: bool)
    ensures Only(init + [e], sub) == if e.subagent == sub then Only(init, sub) + [e] else Only(init, sub)
  {
    assert (init + [e])[..|init|] == init;
  }

  lemma {:induction false} SeenGrows(init: seq<Event>, e: Event, sub: bool)
    ensures Seen(init + [e], sub) == Seen(init, sub) + if e.subagent == sub && e.id.Some? then {e.id.value} else {}
  {
    assert (init + [e])[..|init|] == init;
  }

  lemma {:induction false} CountedGrows(init: seq<Event>, e: Event, sub: bool, kind: Kind)
    ensures Counted(init + [e], sub, kind)
            == Counted(init, sub, kind) + if Fresh(init, e, sub) && e.kind == kind then 1 else 0
  {
    assert (init + [e])[..|init|] == init;
  }

  /** The parent's signals do not depend on subagent events, nor the other way round. */
  lemma {:induction false} PartitionsIndependent(events: seq<Event>, sub: bool, kind: Kind)
    ensures Counted(events, sub, kind) == Counted(Only(events, sub), sub, kind)
    ensures Seen(events, sub) == Seen(Only(events, sub), sub)
  {
    if events != [] {
      var (init, e) := (events[..|events| - 1], events[|events| - 1]);
      PartitionsIndependent(init, sub, kind);
      assert events == init + [e];
      OnlyGrows(init, e, sub);
      SeenGrows(init, e, sub);
      CountedGrows(init, e, sub, kind);
      SeenGrows(Only(init, sub), e, sub);
      CountedGrows(Only(init, sub), e, sub, kind);
    }
  }

  // ---------------------------------------------------------------- the Python port

  function Erased(events: seq<Event>): seq<Event> {
    seq(|events|, k requires 0 <= k < |events| => events[k].(subagent := false))
  }

  lemma {:induction false} ErasedSame(events: seq<Event>)
    requires forall k :: 0 <= k < |events| ==> !events[k].subagent
    ensures Erased(events) == events
  {
  }

  /** aggregate_signals: the same loop without partitions. It agrees with the Go code on a list without subagent
      events; on any other list it counts as if every event were the parent's. */
  method AggregatePort(events: seq<Event>) returns (out: ScoreSignals)
    ensures out == SignalsOf(Erased(events), false)
    ensures (forall k :: 0 <= k < |events| ==> !events[k].subagent) ==> out == SignalsOf(events, false)
  {
    ghost var all := Erased(events);
    var seen: set<nat> := {};
    var peer, self, turns, overrides, accepted, rejected := 0, 0, 0, 0, 0, 0;
    for i := 0 to |events|
      invariant seen == Seen(all[..i], false)
      invariant peer == Counted(all[..i], false, PeerReuse) && self == Counted(all[..i], false, SelfReuse)
      invariant turns == Counted(all[..i], false, TurnCompleted) && overrides == Counted(all[..i], false, UserOverride)
      invariant accepted == Counted(all[..i], false, Accepted) && rejected == Counted(all[..i], false, Rejected)
    {
      assert all[..i + 1][..i] == all[..i];
      var e := events[i];
      if e.id.Some? {
        if e.id.value in seen { continue; }
        seen := seen + {e.id.value};
      }
      match e.kind {
        case PeerReuse => peer := peer + 1;
        case SelfReuse => self := self + 1;
        case TurnCompleted => turns := turns + 1;
        case UserOverride => overrides := overrides + 1;
        case Accepted => accepted := accepted + 1;
        case Rejected => rejected := rejected + 1;
        case Other =>
      }
    }
    assert all[..|events|] == all;
    out := FromTally(peer, self, turns, overrides, accepted, rejected);
    if forall k :: 0 <= k < |events| ==> !events[k].subagent {
      ErasedSame(events);
    }
  }
}
