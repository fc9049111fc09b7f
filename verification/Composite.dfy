/** The composite score (internal/scoring/scoring.go) and its Python port (modal/scoring.py), over exact reals. */
module Composite {
  import opened Common

  datatype Float = NaN | NegInf | PosInf | Fin(r: real)

  datatype Inputs = Inputs(
    durability7: Option<Float>,
    durability30: Option<Float>,
    peer: int,
    self: int,
    overrideRate: Option<Float>,
    acceptance: Option<Float>)

  /** 1 - exp(-n/k) enters only through these three facts. */
  ghost predicate Saturates(curve: nat -> real) {
    && curve(0) == 0.0
    && (forall n :: 0.0 <= curve(n) < 1.0)
    && (forall m, n :: m <= n ==> curve(m) <= curve(n))
  }

  function Clamp01(v: real): real { if v < 0.0 then 0.0 else if v > 1.0 then 1.0 else v }

  /** normalizeUnit: NaN is missing, everything else is clamped. */
  function Unit(p: Option<Float>): (v: Option<real>)
    ensures v.Some? ==> 0.0 <= v.value <= 1.0
    ensures v.None? <==> p.None? || p.value.NaN?
  {
    match p
    case None => None
    case Some(NaN) => None
    case Some(NegInf) => Some(0.0)
    case Some(PosInf) => Some(1.0)
    case Some(Fin(r)) => Some(Clamp01(r))
  }

  function NonNegative(n: int): nat { if n < 0 then 0 else n }

  // ---------------------------------------------------------------- the weighted mean of what is present

  /** The signals that can be missing. */
  datatype Slot = Durability7 | Durability30 | Overrides | Acceptance

  function Weight(slot: Slot): real {
    match slot case Durability7 => 0.25 case Durability30 => 0.15 case Overrides => 0.10 case Acceptance => 0.20
  }

  function Raw(in_: Inputs, slot: Slot): Option<Float> {
    match slot
    case Durability7 => in_.durability7
    case Durability30 => in_.durability30
    case Overrides => in_.overrideRate
    case Acceptance => in_.acceptance
  }

  /** What a signal contributes, if it is present: its value in [0, 1], inverted for the override rate. */
  function Value(in_: Inputs, slot: Slot): (v: Option<real>)
    ensures v.Some? ==> 0.0 <= v.value <= 1.0
  {
    var u := Unit(Raw(in_, slot));
    if u.None? then None else if slot.Overrides? then Some(1.0 - u.value) else u
  }

  function Mass(in_: Inputs, slot: Slot): real { if Value(in_, slot).Some? then Weight(slot) else 0.0 }

  function Term(in_: Inputs, slot: Slot): real {
    if Value(in_, slot).Some? then Weight(slot) * Value(in_, slot).value else 0.0
  }

  function Num(in_: Inputs, curve: nat -> real): real {
    Term(in_, Durability7) + Term(in_, Durability30)
    + 0.20 * curve(NonNegative(in_.peer)) + 0.10 * curve(NonNegative(in_.self))
    + Term(in_, Overrides) + Term(in_, Acceptance)
  }

  function Den(in_: Inputs): (d: real)
    ensures d >= 0.30
  {
    Mass(in_, Durability7) + Mass(in_, Durability30) + 0.20 + 0.10 + Mass(in_, Overrides) + Mass(in_, Acceptance)
  }

  /** The weighted mean of the signals that are present. */
  function Score(in_: Inputs, curve: nat -> real): real {
    Num(in_, curve) / Den(in_)
  }

  lemma {:induction false} TermInRange(in_: Inputs, slot: Slot)
    ensures 0.0 <= Term(in_, slot) <= Mass(in_, slot)
  {
  }

  lemma {:induction false} DivisionKeepsOrder(a: real, b: real, d: real)
    requires a <= b && d > 0.0
    ensures a / d <= b / d
  {
    assert (b / d - a / d) * d == b - a;
  }

  lemma {:induction false} ScoreInRange(in_: Inputs, curve: nat -> real)
    requires Saturates(curve)
    ensures 0.0 <= Score(in_, curve) <= 1.0
  {
    TermInRange(in_, Durability7);
    TermInRange(in_, Durability30);
    TermInRange(in_, Overrides);
    TermInRange(in_, Acceptance);
    DivisionKeepsOrder(0.0, Num(in_, curve), Den(in_));
    DivisionKeepsOrder(Num(in_, curve), Den(in_), Den(in_));
    assert Den(in_) / Den(in_) == 1.0;
  }

  // ---------------------------------------------------------------- the code

  /** Composite: the accumulated quotient is the weighted mean, already in [0, 1] before it is clamped. */
  method Composite(in_: Inputs, curve: nat -> real) returns (score: real, contributing: seq<Slot>)
    requires Saturates(curve)
    ensures score == Score(in_, curve) && 0.0 <= score <= 1.0
    ensures forall slot :: slot in contributing <==> Value(in_, slot).Some?
  {
    var num, den := 0.0, 0.0;
    contributing := [];
    var v := Unit(in_.durability7);
    if v.Some? {
      num, den, contributing := num + 0.25 * v.value, den + 0.25, contributing + [Durability7];
    }
    v := Unit(in_.durability30);
    if v.Some? {
      num, den, contributing := num + 0.15 * v.value, den + 0.15, contributing + [Durability30];
    }
    num, den := num + 0.20 * curve(NonNegative(in_.peer)), den + 0.20;
    num, den := num + 0.10 * curve(NonNegative(in_.self)), den + 0.10;
    v := Unit(in_.overrideRate);
    if v.Some? {
      num, den, contributing := num + 0.10 * (1.0 - v.value), den + 0.10, contributing + [Overrides];
    }
    v := Unit(in_.acceptance);
    if v.Some? {
      num, den, contributing := num + 0.20 * v.value, den + 0.20, contributing + [Acceptance];
    }
    ScoreInRange(in_, curve);
    score := if den > 0.0 then num / den else 0.0;
    score := Clamp01(score);
  }

  // ---------------------------------------------------------------- monotone

  /** Both missing, or both present and not larger. */
  predicate AtMost(u: Option<real>, v: Option<real>) {
    (u.None? && v.None?) || (u.Some? && v.Some? && u.value <= v.value)
  }

  /** Nothing lower, except the override rate, which is not higher. */
  predicate NoWorse(a: Inputs, b: Inputs) {
    && AtMost(Unit(a.durability7), Unit(b.durability7)) && AtMost(Unit(a.durability30), Unit(b.durability30))
    && a.peer <= b.peer && a.self <= b.self
    && AtMost(Unit(b.overrideRate), Unit(a.overrideRate)) && AtMost(Unit(a.acceptance), Unit(b.acceptance))
  }

  lemma {:induction false} TermMonotone(a: Inputs, b: Inputs, slot: Slot)
    requires NoWorse(a, b)
    ensures Term(a, slot) <= Term(b, slot) && Mass(a, slot) == Mass(b, slot)
  {
  }

  /** More reuse, more durability, more acceptance or fewer overrides never lower the score. */
  lemma {:induction false} ScoreIsMonotone(a: Inputs, b: Inputs, curve: nat -> real)
    requires Saturates(curve) && NoWorse(a, b)
    ensures Score(a, curve) <= Score(b, curve)
  {
    TermMonotone(a, b, Durability7);
    TermMonotone(a, b, Durability30);
    TermMonotone(a, b, Overrides);
    TermMonotone(a, b, Acceptance);
    assert curve(NonNegative(a.peer)) <= curve(NonNegative(b.peer))
        && curve(NonNegative(a.self)) <= curve(NonNegative(b.self));
    DivisionKeepsOrder(Num(a, curve), Num(b, curve), Den(b));
  }

  // ---------------------------------------------------------------- missing signals

  lemma {:induction false} SignOfProduct(x: real, p: real, q: real, y: real)
    requires x * p == q * y && p > 0.0 && q > 0.0
    ensures y >= 0.0 ==> x >= 0.0
    ensures y <= 0.0 ==> x <= 0.0
  {
    assert x == q * y / p;
    if y >= 0.0 { assert q * y >= 0.0; DivisionKeepsOrder(0.0, q * y, p); }
    if y <= 0.0 { assert q * y <= 0.0; DivisionKeepsOrder(q * y, 0.0, p); }
  }

  /** `now` lies between `was` and v. */
  predicate PulledTowards(was: real, v: real, now: real) {
    (was <= v ==> was <= now <= v) && (v <= was ==> v <= now <= was)
  }

  lemma {:induction false} MeanIsPulled(n: real, d: real, w: real, v: real, more: real)
    requires d > 0.0 && w > 0.0 && more == n + w * v
    ensures PulledTowards(n / d, v, more / (d + w))
  {
    var (m, t) := (n / d, more / (d + w));
    assert m * d == n && t * (d + w) == m * d + w * v;
    assert (t - m) * (d + w) == w * (v - m);
    assert (v - t) * (d + w) == d * (v - m);
    SignOfProduct(t - m, d + w, w, v - m);
    SignOfProduct(v - t, d + w, d, v - m);
  }

  /** b has the signals of a, and one more. */
  predicate AddsOne(a: Inputs, slot: Slot, b: Inputs) {
    && Value(a, slot).None? && Value(b, slot).Some?
    && a.peer == b.peer && a.self == b.self
    && forall other :: other != slot ==> Value(a, other) == Value(b, other)
  }

  lemma {:induction false} OneMore(a: Inputs, slot: Slot, b: Inputs, curve: nat -> real)
    requires AddsOne(a, slot, b)
    ensures Num(b, curve) == Num(a, curve) + Term(b, slot) && Den(b) == Den(a) + Weight(slot)
  {
    assert forall other :: other != slot ==> Term(a, other) == Term(b, other) && Mass(a, other) == Mass(b, other);
  }

  lemma {:induction false} WeightPositive(slot: Slot)
    ensures Weight(slot) > 0.0
  {
  }

  lemma {:induction false} PulledBy(a: Inputs, b: Inputs, curve: nat -> real, w: real, v: real, term: real)
    requires w > 0.0 && term == w * v && Num(b, curve) == Num(a, curve) + term && Den(b) == Den(a) + w
    ensures PulledTowards(Score(a, curve), v, Score(b, curve))
  {
    MeanIsPulled(Num(a, curve), Den(a), w, v, Num(b, curve));
  }

  /** Renormalisation: a signal that turns up, whichever it is, moves the score towards its own value and never past
      it. A missing signal is thus not a zero. */
  lemma {:induction false} NewSignalPullsTheScore(a: Inputs, slot: Slot, b: Inputs, curve: nat -> real)
    requires AddsOne(a, slot, b)
    ensures PulledTowards(Score(a, curve), Value(b, slot).value, Score(b, curve))
  {
    OneMore(a, slot, b, curve);
    WeightPositive(slot);
    PulledBy(a, b, curve, Weight(slot), Value(b, slot).value, Term(b, slot));
  }

  // ---------------------------------------------------------------- the Python port

  /** composite_score takes optional counts, None standing for no reuse. */
  datatype PortInputs = PortInputs(
    durability7: Option<Float>,
    durability30: Option<Float>,
    peer: Option<int>,
    self: Option<int>,
    overrideRate: Option<Float>,
    acceptance: Option<Float>)

  function CountOf(n: Option<int>): nat { if n.None? || n.value < 0 then 0 else n.value }

  /** The Go inputs with the same signals. */
  function Ported(p: PortInputs): Inputs {
    Inputs(p.durability7, p.durability30, if p.peer.Some? then p.peer.value else 0,
        if p.self.Some? then p.self.value else 0,
           p.overrideRate, p.acceptance)
  }

  /** composite_score gives the score of the Go code. */
  method CompositePort(p: PortInputs, curve: nat -> real) returns (score: real)
    requires Saturates(curve)
    ensures score == Score(Ported(p), curve)
  {
    var num, den := 0.0, 0.0;
    var v := Unit(p.durability7);
    if v.Some? { num, den := num + 0.25 * v.value, den + 0.25; }
    v := Unit(p.durability30);
    if v.Some? { num, den := num + 0.15 * v.value, den + 0.15; }
    num, den := num + 0.20 * curve(CountOf(p.peer)), den + 0.20;
    num, den := num + 0.10 * curve(CountOf(p.self)), den + 0.10;
    v := Unit(p.overrideRate);
    if v.Some? { num, den := num + 0.10 * (1.0 - v.value), den + 0.10; }
    v := Unit(p.acceptance);
    if v.Some? { num, den := num + 0.20 * v.value, den + 0.20; }
    ScoreInRange(Ported(p), curve);
    score := Clamp01(if den > 0.0 then num / den else 0.0);
  }
}
