/** The daemon's pending suggestions and their suppression (internal/daemon/server.go). */
module Suggestions {
  import opened Common

  /** `key` is the normalised prompt, None when that is empty; `offer` tells offers apart. */
  datatype Suggestion = Suggestion(offer: nat, key: Option<nat>)

  datatype Op = Enqueue(s: Suggestion) | Pop | Suppress(key: Option<nat>)

  datatype State = State(pending: seq<Suggestion>, suppressed: set<nat>)

  predicate Hidden(s: Suggestion, suppressed: set<nat>) { s.key.Some? && s.key.value in suppressed }

  function Without(pending: seq<Suggestion>, key: nat): (kept: seq<Suggestion>)
    ensures |kept| <= |pending|
  {
    if pending == [] then []
    else Without(pending[..|pending| - 1], key)
         + (if pending[|pending| - 1].key == Some(key) then [] else [pending[|pending| - 1]])
  }

  lemma {:induction false} WithoutKeeps(pending: seq<Suggestion>, key: nat)
    ensures forall s :: s in Without(pending, key) <==> s in pending && s.key != Some(key)
  {
    if pending != [] {
      WithoutKeeps(pending[..|pending| - 1], key);
      assert pending == pending[..|pending| - 1] + [pending[|pending| - 1]];
    }
  }

  function After(st: State, op: Op): State {
    match op
    case Enqueue(s) => if Hidden(s, st.suppressed) then st else st.(pending := st.pending + [s])
    case Pop => if st.pending == [] then st else st.(pending := st.pending[1..])
    case Suppress(key) =>
      if key.None? then st else State(Without(st.pending, key.value), st.suppressed + {key.value})
  }

  function Exec(ops: seq<Op>): State {
    if ops == [] then State([], {}) else After(Exec(ops[..|ops| - 1]), ops[|ops| - 1])
  }

  /** What the operation at position j hands to the user, if it is a pop of a non-empty queue. */
  function Shown(ops: seq<Op>, j: nat): Option<Suggestion>
    requires j < |ops|
  {
    if ops[j].Pop? && Exec(ops[..j]).pending != [] then Some(Exec(ops[..j]).pending[0]) else None
  }

  // ---------------------------------------------------------------- suppression

  lemma {:induction false} PendingIsVisible(ops: seq<Op>)
    ensures forall s :: s in Exec(ops).pending ==> !Hidden(s, Exec(ops).suppressed)
  {
    if ops != [] {
      var (init, last) := (ops[..|ops| - 1], ops[|ops| - 1]);
      PendingIsVisible(init);
      if last.Suppress? && last.key.Some? {
        WithoutKeeps(Exec(init).pending, last.key.value);
      }
    }
  }

  lemma {:induction false} SuppressionStays(ops: seq<Op>, i: nat, key: nat)
    requires i < |ops| && ops[i] == Suppress(Some(key))
    ensures key in Exec(ops).suppressed
  {
    if i < |ops| - 1 {
      SuppressionStays(ops[..|ops| - 1], i, key);
    }
  }

  lemma {:induction false} PendingAvoids(ops: seq<Op>, i: nat, key: nat)
    requires i < |ops| && ops[i] == Suppress(Some(key))
    ensures forall s :: s in Exec(ops).pending ==> s.key != Some(key)
  {
    SuppressionStays(ops, i, key);
    PendingIsVisible(ops);
  }

  /** Over every mix of operations: a suggestion shown or still pending was never suppressed beforehand, whether it was
      offered before or after the suppression. */
  lemma {:induction false} SuppressedIsNeverShown(ops: seq<Op>, i: nat, j: nat, key: nat)
    requires i < j < |ops| && ops[i] == Suppress(Some(key))
    ensures Shown(ops, j).Some? ==> Shown(ops, j).value.key != Some(key)
    ensures forall s :: s in Exec(ops).pending ==> s.key != Some(key)
  {
    PendingAvoids(ops[..j], i, key);
    PendingAvoids(ops, i, key);
  }

  // ---------------------------------------------------------------- order

  predicate Ascending(pending: seq<Suggestion>) {
    forall a, b :: 0 <= a < b < |pending| ==> pending[a].offer < pending[b].offer
  }

  /** Offers are numbered in the order they are made. */
  predicate Numbered(ops: seq<Op>) {
    forall i :: 0 <= i < |ops| && ops[i].Enqueue? ==> ops[i].s.offer == i
  }

  lemma {:induction false} WithoutAscends(pending: seq<Suggestion>, key: nat)
    requires Ascending(pending)
    ensures Ascending(Without(pending, key))
  {
    if pending != [] {
      WithoutAscends(pending[..|pending| - 1], key);
      WithoutKeeps(pending[..|pending| - 1], key);
      assert forall s :: s in pending[..|pending| - 1] ==> s.offer < pending[|pending| - 1].offer;
    }
  }

  lemma {:induction false} PendingAscends(ops: seq<Op>)
    requires Numbered(ops)
    ensures Ascending(Exec(ops).pending)
    ensures forall s :: s in Exec(ops).pending ==> s.offer < |ops| && ops[s.offer] == Enqueue(s)
  {
    if ops != [] {
      var init := ops[..|ops| - 1];
      PendingAscends(init);
      var last := ops[|ops| - 1];
      if last.Suppress? && last.key.Some? {
        WithoutAscends(Exec(init).pending, last.key.value);
        WithoutKeeps(Exec(init).pending, last.key.value);
      }
    }
  }

  /** What is shown later is pending, or not yet offered, when something is shown: the first of the queue
      comes first. */
  lemma {:induction false} LaterPendingIsYounger(ops: seq<Op>, i: nat)
    requires Numbered(ops) && i < |ops| && Shown(ops, i).Some?
    ensures forall s :: s in Exec(ops).pending ==> s.offer > Shown(ops, i).value.offer
  {
    var init := ops[..|ops| - 1];
    PendingAscends(init);
    if i < |ops| - 1 {
      assert init[..i] == ops[..i];
      LaterPendingIsYounger(init, i);
      PendingAscends(ops[..i]);
      if ops[|ops| - 1].Suppress? && ops[|ops| - 1].key.Some? {
        WithoutKeeps(Exec(init).pending, ops[|ops| - 1].key.value);
      }
    }
  }

  /** Suggestions are shown in the order they were offered, each at most once, however suppressions intervene. */
  lemma {:induction false} ShownInOrder(ops: seq<Op>, i: nat, j: nat)
    requires Numbered(ops) && i < j < |ops| && Shown(ops, i).Some? && Shown(ops, j).Some?
    ensures Shown(ops, i).value.offer < Shown(ops, j).value.offer
  {
    assert ops[..j][..i] == ops[..i];
    LaterPendingIsYounger(ops[..j], i);
  }

  // ---------------------------------------------------------------- the code: one buffer, filtered in place

  class Queue {
    var buffer: array<Suggestion>
    var length: nat
    var suppressed: set<nat>

    ghost predicate Valid() reads this { length <= buffer.Length }

    ghost function Contents(): State reads this, buffer
      requires Valid()
    {
      State(buffer[..length], suppressed)
    }

    /** SuppressSuggestion: the kept entries are moved down over the dropped ones while the same buffer is read. */
    method SuppressSuggestion(key: Option<nat>) returns (ok: bool)
      requires Valid()
      modifies this, buffer
      ensures Valid() && buffer == old(buffer) && ok == key.Some?
      ensures Contents() == After(old(Contents()), Suppress(key))
    {
      if key.None? { return false; }
      length := Filter(buffer, length, key.value);
      suppressed := suppressed + {key.value};
      return true;
    }

    static method Filter(a: array<Suggestion>, n: nat, key: nat) returns (kept: nat)
      requires n <= a.Length
      modifies a
      ensures kept <= n && a[..kept] == Without(old(a[..n]), key)
    {
      kept := 0;
      ghost var was := a[..n];
      for i := 0 to n
        invariant kept <= i && a[..kept] == Without(was[..i], key)
        invariant forall m :: i <= m < n ==> a[m] == was[m]
      {
        assert was[..i + 1][..i] == was[..i];
        if a[i].key != Some(key) {
          ghost var done := a[..kept];
          a[kept] := a[i];
          kept := kept + 1;
          assert a[..kept] == done + [was[i]];
        }
      }
      assert was[..n] == was;
    }

    /** PopSuggestion: the rest of the buffer moves down by one. */
    method PopSuggestion() returns (s: Option<Suggestion>)
      requires Valid()
      modifies this`length, buffer
      ensures Valid() && buffer == old(buffer)
      ensures Contents() == After(old(Contents()), Pop)
      ensures s == if old(Contents()).pending == [] then None else Some(old(Contents()).pending[0])
    {
      if length == 0 { return None; }
      s := Some(buffer[0]);
      forall i | 0 <= i < length - 1 {
        buffer[i] := buffer[i + 1];
      }
      length := length - 1;
    }

    /** EnqueueSuggestion; append grows the buffer when it is full. */
    method EnqueueSuggestion(s: Suggestion)
      requires Valid()
      modifies this, buffer
      ensures Valid() && (buffer == old(buffer) || fresh(buffer))
      ensures Contents() == After(old(Contents()), Enqueue(s))
    {
      if s.key.Some? && s.key.value in suppressed { return; }
      if length == buffer.Length {
        var was := buffer;
        buffer := new Suggestion[2 * length + 1](i => s);
        forall i | 0 <= i < length {
          buffer[i] := was[i];
        }
        assert buffer[..length] == was[..length];
      }
      buffer[length] := s;
      length := length + 1;
    }
  }
}
