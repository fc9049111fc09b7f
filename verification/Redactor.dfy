/** redactAll, allIndex, parseTrufflehogOutput and classifyWith (internal/redact/classify.go), on top of the
    sort and merge of Redact.dfy. */
module Redactor {
  import opened Common
  import opened Redact

  // ---------------------------------------------------------------- rewrite

  function Rewritten(payload: Bytes, ms: seq<Finding>, cursor: nat): Option<Bytes>
    requires cursor <= |payload|
  {
    if ms == [] then Some(payload[cursor..])
    else
      var m := ms[0];
      if m.start < cursor || m.end > |payload| || m.start > m.end then None
      else
        match Rewritten(payload, ms[1..], m.end)
        case None => None
        case Some(rest) => Some(payload[cursor..m.start] + m.tag.Text() + rest)
  }

  /** The output loop of redactAll. */
  method Rewrite(payload: Bytes, merged: seq<Finding>) returns (out: Option<Bytes>)
    ensures out == Rewritten(payload, merged, 0)
  {
    var buffer: Bytes := [];
    var cursor := 0;
    assert merged[0..] == merged;
    PrefixedNothing(Rewritten(payload, merged, 0));
    for i := 0 to |merged|
      invariant 0 <= cursor <= |payload|
      invariant Rewritten(payload, merged, 0) == Prefixed(buffer, Rewritten(payload, merged[i..], cursor))
    {
      var f := merged[i];
      assert merged[i..][1..] == merged[i + 1..];
      if f.start < cursor || f.end > |payload| || f.start > f.end { return None; }
      PrefixedTwice(buffer, payload[cursor..f.start] + f.tag.Text(), Rewritten(payload, merged[i + 1..], f.end));
      buffer := buffer + (payload[cursor..f.start] + f.tag.Text());
      cursor := f.end;
    }
    out := Some(buffer + payload[cursor..]);
  }

  function Prefixed(front: Bytes, rest: Option<Bytes>): Option<Bytes> {
    if rest.None? then None else Some(front + rest.value)
  }

  lemma {:induction false} PrefixedNothing(rest: Option<Bytes>)
    ensures Prefixed([], rest) == rest
  {
    if rest.Some? { assert [] + rest.value == rest.value; }
  }

  lemma {:induction false} PrefixedTwice(a: Bytes, b: Bytes, rest: Option<Bytes>)
    ensures Prefixed(a, Prefixed(b, rest)) == Prefixed(a + b, rest)
  {
    if rest.Some? { assert a + (b + rest.value) == (a + b) + rest.value; }
  }

  predicate AllRedactable(fs: seq<Finding>) {
    forall i :: 0 <= i < |fs| ==> fs[i].redactable
  }

  function Redacted(payload: Bytes, fs: seq<Finding>): Option<Bytes> {
    if fs == [] then Some(payload)
    else if !AllRedactable(fs) then None
    else Rewritten(payload, Merged(Sort(fs)), 0)
  }

  method RedactAll(payload: Bytes, findings: seq<Finding>) returns (out: Option<Bytes>)
    ensures out == Redacted(payload, findings)
  {
    if findings == [] { return Some(payload); }
    for i := 0 to |findings|
      invariant forall j :: 0 <= j < i ==> findings[j].redactable
    {
      if !findings[i].redactable { return None; }
    }
    var sorted := Sort(findings);
    SortElements(findings);
    var merged := Merge(sorted);
    out := Rewrite(payload, merged);
  }

  // ---------------------------------------------------------------- when it succeeds

  lemma {:induction false} RewrittenSucceeds(payload: Bytes, ms: seq<Finding>, cursor: nat)
    requires cursor <= |payload| && Disjoint(ms) && (ms != [] ==> cursor <= ms[0].start)
    ensures Rewritten(payload, ms, cursor).Some? <==> Within(ms, |payload|)
  {
    if ms != [] && ms[0].end <= |payload| {
      RewrittenSucceeds(payload, ms[1..], ms[0].end);
      if Within(ms[1..], |payload|) {
        forall k | 0 <= k < |ms| ensures ms[k].end <= |payload| { if k > 0 { assert ms[k] == ms[1..][k - 1]; } }
      }
    }
  }

  /** For spans, redaction fails exactly when some finding must not be redacted or runs past the payload; in
      particular overlaps never make it fail. */
  lemma {:induction false} RedactionSucceedsIff(payload: Bytes, fs: seq<Finding>)
    requires forall i :: 0 <= i < |fs| ==> Span(fs[i])
    ensures Redacted(payload, fs).Some? <==> AllRedactable(fs) && Within(fs, |payload|)
  {
    if fs != [] && AllRedactable(fs) {
      SortedKeeps(fs, |payload|);
      MergedDisjoint(Sort(fs), |payload|);
      RewrittenSucceeds(payload, Merged(Sort(fs)), 0);
    }
  }

  lemma {:induction false} SortedKeeps(fs: seq<Finding>, n: nat)
    requires forall i :: 0 <= i < |fs| ==> Span(fs[i])
    ensures Ordered(Sort(fs)) && forall i :: 0 <= i < |Sort(fs)| ==> Span(Sort(fs)[i])
    ensures Within(Sort(fs), n) <==> Within(fs, n)
  {
    SortSorts(fs);
    SortElements(fs);
    var sorted := Sort(fs);
    forall i | 0 <= i < |sorted| ensures sorted[i] in fs { assert sorted[i] in Elements(sorted); }
    forall i | 0 <= i < |fs| ensures fs[i] in sorted { assert fs[i] in Elements(fs); }
  }

  // ---------------------------------------------------------------- what it produces

  lemma {:induction false} ReferenceStep(payload: Bytes, fs: set<Finding>, a: nat, b: nat)
    requires a < b <= |payload| && !Covered(fs, a)
    requires Reference(payload, fs, a + 1) == payload[a + 1..b] + Reference(payload, fs, b)
    ensures Reference(payload, fs, a) == payload[a..b] + Reference(payload, fs, b)
  {
    var rest := Reference(payload, fs, b);
    assert Reference(payload, fs, a) == [payload[a]] + (payload[a + 1..b] + rest);
    Regroup([payload[a]], payload[a + 1..b], rest);
    assert payload[a..b] == [payload[a]] + payload[a + 1..b];
  }

  lemma {:induction false} ReferenceSkips(payload: Bytes, fs: set<Finding>, a: nat, b: nat)
    requires a <= b <= |payload| && forall x :: a <= x < b ==> !Covered(fs, x)
    ensures Reference(payload, fs, a) == payload[a..b] + Reference(payload, fs, b)
    decreases b - a
  {
    if a < b {
      ReferenceSkips(payload, fs, a + 1, b);
      ReferenceStep(payload, fs, a, b);
    }
  }

  lemma {:induction false} ClassEndIs(fs: set<Finding>, i: nat, e: nat, n: nat)
    requires i < e <= n && (forall x :: i < x < e ==> Joined(fs, x)) && (e < n ==> !Joined(fs, e))
    ensures ClassEnd(fs, i, n) == e
    decreases e - i
  {
    if i + 1 < e { ClassEndIs(fs, i + 1, e, n); }
  }

  /** Between and beside the ranges nothing is inside one, and no range runs on past its end. */
  lemma {:induction false} Gaps(ms: seq<Finding>, k: nat, x: int)
    requires Disjoint(ms) && k <= |ms| && (forall l :: 0 <= l < |ms| ==> Nonempty(ms[l]))
    requires (k > 0 ==> ms[k - 1].end <= x) && (k < |ms| ==> x <= ms[k].start)
    ensures (k < |ms| && x == ms[k].start) || !Inside(ms, x)
    ensures !Interior(ms, x)
  {
    forall l | 0 <= l < |ms| ensures !(ms[l].start < x < ms[l].end) && (ms[l].start <= x < ms[l].end ==> l == k) {
      if l < k - 1 { assert ms[l].end <= ms[k - 1].start; }
      if l > k { assert ms[k].end <= ms[l].start; }
    }
  }

  /** The end of the range before the k-th, and the start of the k-th. */
  function GapStart(ms: seq<Finding>, k: nat): int
    requires k <= |ms|
  {
    if k == 0 then 0 else ms[k - 1].end
  }

  function GapEnd(ms: seq<Finding>, k: nat, n: nat): int
    requires k <= |ms|
  {
    if k == |ms| then n else ms[k].start
  }

  lemma {:induction false} GapIsCopied(payload: Bytes, fs: set<Finding>, ms: seq<Finding>, k: nat)
    requires Tiles(fs, ms) && Disjoint(ms) && Within(ms, |payload|) && k <= |ms|
    ensures 0 <= GapStart(ms, k) <= GapEnd(ms, k, |payload|) <= |payload|
    ensures Reference(payload, fs, GapStart(ms, k))
            == payload[GapStart(ms, k)..GapEnd(ms, k, |payload|)] + Reference(payload, fs, GapEnd(ms, k, |payload|))
  {
    var (a, b) := (GapStart(ms, k), GapEnd(ms, k, |payload|));
    if 0 < k < |ms| { assert ms[k - 1].end <= ms[k].start; }
    forall x | a <= x < b ensures !Covered(fs, x) { Gaps(ms, k, x); }
    ReferenceSkips(payload, fs, a, b);
  }

  /** One gap and the class after it, as the reference has them. */
  ghost predicate Segment(payload: Bytes, fs: set<Finding>, ms: seq<Finding>, k: nat) {
    && k <= |ms| && 0 <= GapStart(ms, k) <= GapEnd(ms, k, |payload|) <= |payload|
    && var gap := payload[GapStart(ms, k)..GapEnd(ms, k, |payload|)];
       if k == |ms| then Reference(payload, fs, GapStart(ms, k)) == gap
       else
         && ms[k].start <= ms[k].end <= |payload|
         && Reference(payload, fs, GapStart(ms, k)) == gap + ms[k].tag.Text() + Reference(payload, fs, ms[k].end)
  }

  lemma {:induction false} SegmentHolds(payload: Bytes, fs: set<Finding>, ms: seq<Finding>, k: nat)
    requires Tiles(fs, ms) && Disjoint(ms) && Within(ms, |payload|) && k <= |ms|
    ensures Segment(payload, fs, ms, k)
  {
    GapIsCopied(payload, fs, ms, k);
    var gap := payload[GapStart(ms, k)..GapEnd(ms, k, |payload|)];
    if k < |ms| {
      ClassAt(payload, fs, ms, k);
      Regroup(gap, ms[k].tag.Text(), Reference(payload, fs, ms[k].end));
    }
  }

  /** Rewriting the ranges from the k-th on, starting where the one before it ended. */
  lemma {:induction false} RewrittenIsReference(payload: Bytes, fs: set<Finding>, ms: seq<Finding>, k: nat)
    requires k <= |ms| && forall l :: k <= l <= |ms| ==> Segment(payload, fs, ms, l)
    requires 0 <= GapStart(ms, k) <= |payload|
    ensures Rewritten(payload, ms[k..], GapStart(ms, k)) == Some(Reference(payload, fs, GapStart(ms, k)))
    decreases |ms| - k
  {
    assert Segment(payload, fs, ms, k);
    if k < |ms| {
      RewrittenIsReference(payload, fs, ms, k + 1);
      assert ms[k..][1..] == ms[k + 1..];
    } else {
      assert payload[GapStart(ms, k)..|payload|] == payload[GapStart(ms, k)..];
    }
  }

  lemma {:induction false} ClassAt(payload: Bytes, fs: set<Finding>, ms: seq<Finding>, k: nat)
    requires Tiles(fs, ms) && Disjoint(ms) && Within(ms, |payload|) && k < |ms|
    ensures Reference(payload, fs, ms[k].start) == ms[k].tag.Text() + Reference(payload, fs, ms[k].end)
  {
    var m := ms[k];
    RangeIsClass(fs, ms, k, |payload|);
    assert Tagged(fs, m.start, m.end, m.tag);
    TaggedIsLabel(fs, m.start, m.end, m.tag);
  }

  /** A merged range starts covered, and the class that starts there ends where it ends. */
  lemma {:induction false} RangeIsClass(fs: set<Finding>, ms: seq<Finding>, k: nat, n: nat)
    requires Tiles(fs, ms) && Disjoint(ms) && Within(ms, n) && k < |ms|
    ensures Nonempty(ms[k]) && Covered(fs, ms[k].start) && ClassEnd(fs, ms[k].start, n) == ms[k].end <= n
  {
    var m := ms[k];
    assert Inside(ms, m.start) && Covered(fs, m.start);
    forall x | m.start < x < m.end ensures Joined(fs, x) { assert Interior(ms, x); }
    if k + 1 < |ms| { assert ms[k].end <= ms[k + 1].start; }
    Gaps(ms, k + 1, m.end);
    assert !Joined(fs, m.end);
    ClassEndIs(fs, m.start, m.end, n);
  }

  /** For every payload and every list of non-empty, in-range, redactable findings, redaction succeeds, and its
      result is the reference: the uncovered bytes in order, with one placeholder per overlap class. */
  lemma {:induction false} RedactionIsReference(payload: Bytes, fs: seq<Finding>)
    requires AllRedactable(fs) && Within(fs, |payload|) && forall i :: 0 <= i < |fs| ==> Nonempty(fs[i])
    ensures Redacted(payload, fs) == Some(Reference(payload, Elements(fs), 0))
  {
    if fs == [] {
      assert Elements(fs) == {};
      ReferenceSkips(payload, {}, 0, |payload|);
      assert payload[0..|payload|] + [] == payload;
    } else {
      var sorted := Sort(fs);
      SortedKeeps(fs, |payload|);
      SortElements(fs);
      forall i | 0 <= i < |sorted| ensures Nonempty(sorted[i]) { assert sorted[i] in Elements(sorted); }
      MergedDisjoint(sorted, |payload|);
      MergedTiles(sorted);
      var ms := Merged(sorted);
      forall k | 0 <= k <= |ms|
        ensures Segment(payload, Elements(fs), ms, k)
      {
        SegmentHolds(payload, Elements(fs), ms, k);
      }
      RewrittenIsReference(payload, Elements(fs), ms, 0);
      assert ms[0..] == ms;
    }
  }

  /** So neither the order nor the repetition of findings matters. */
  lemma {:induction false} OrderDoesNotMatter(payload: Bytes, fs: seq<Finding>, gs: seq<Finding>)
    requires Elements(fs) == Elements(gs) && forall i :: 0 <= i < |fs| ==> Nonempty(fs[i])
    ensures Redacted(payload, fs) == Redacted(payload, gs)
  {
    forall i | 0 <= i < |gs| ensures gs[i] in fs { assert gs[i] in Elements(gs); }
    forall i | 0 <= i < |fs| ensures fs[i] in gs { assert fs[i] in Elements(fs); }
    if AllRedactable(fs) && Within(fs, |payload|) {
      RedactionIsReference(payload, fs);
      RedactionIsReference(payload, gs);
    } else {
      RedactionSucceedsIff(payload, fs);
      RedactionSucceedsIff(payload, gs);
    }
  }

  /** Empty findings at one offset are kept apart, so for them the order would show. */
  lemma {:induction false} EmptyFindingsKeepTheirOrder(a: Bytes, b: Bytes)
    requires a + b != b + a
    ensures var (f, g) := (Finding(0, 0, Named(a), true), Finding(0, 0, Named(b), true));
            Redacted([], [f, g]) != Redacted([], [g, f])
  {
    var (f, g) := (Finding(0, 0, Named(a), true), Finding(0, 0, Named(b), true));
    TwoEmpty(f, g);
    TwoEmpty(g, f);
  }

  lemma {:induction false} TwoEmpty(f: Finding, g: Finding)
    requires f == Finding(0, 0, f.tag, true) && g == Finding(0, 0, g.tag, true)
    ensures Redacted([], [f, g]) == Some(f.tag.Text() + g.tag.Text())
  {
    assert [f, g][..1] == [f] && [f][..0] == [];
    assert Sort([f]) == [f] && Sort([f, g]) == [f, g];
    assert Merged([f]) == [f] && Merged([f, g]) == [f, g];
    assert [f, g][1..] == [g] && [g][1..] == [];
    assert Rewritten([], [g], 0) == Some([] + g.tag.Text() + []);
    assert [] + g.tag.Text() + [] == g.tag.Text();
    assert [] + f.tag.Text() + g.tag.Text() == f.tag.Text() + g.tag.Text();
  }

  // ---------------------------------------------------------------- occurrences

  predicate OccursAt(haystack: Bytes, needle: Bytes, p: nat) {
    p + |needle| <= |haystack| && haystack[p..p + |needle|] == needle
  }

  /** bytes.Index on haystack[from:], as an offset into haystack. */
  method IndexFrom(haystack: Bytes, needle: Bytes, from: nat) returns (at: Option<nat>)
    requires from <= |haystack|
    ensures at.Some? ==> from <= at.value && OccursAt(haystack, needle, at.value)
    ensures forall p: nat :: from <= p < (if at.Some? then at.value else |haystack|) ==> !OccursAt(haystack, needle, p)
  {
    for p := from to |haystack|
      invariant forall q: nat :: from <= q < p ==> !OccursAt(haystack, needle, q)
    {
      if OccursAt(haystack, needle, p) { return Some(p); }
    }
    if needle == [] { return Some(|haystack|); }
    at := None;
  }

  ghost predicate Hit(offs: seq<nat>, width: nat, p: int) {
    exists k :: 0 <= k < |offs| && offs[k] <= p < offs[k] + width
  }

  /** What the search has found so far: every occurrence before `start` is hit. */
  ghost predicate HitsBefore(haystack: Bytes, needle: Bytes, offs: seq<nat>, start: nat) {
    forall p: nat :: p < start && OccursAt(haystack, needle, p) ==> Hit(offs, |needle|, p)
  }

  lemma {:induction false} HitsGrow(haystack: Bytes, needle: Bytes, offs: seq<nat>, start: nat, i: nat)
    requires HitsBefore(haystack, needle, offs, start)
    requires forall p: nat :: start <= p < i ==> !OccursAt(haystack, needle, p)
    ensures HitsBefore(haystack, needle, offs + [i], i + |needle|)
  {
    var longer := offs + [i];
    forall p: nat | p < i + |needle| && OccursAt(haystack, needle, p) ensures Hit(longer, |needle|, p) {
      if p < start {
        assert Hit(offs, |needle|, p);
        var k :| 0 <= k < |offs| && offs[k] <= p < offs[k] + |needle|;
        assert longer[k] == offs[k];
      } else {
        assert longer[|offs|] == i;
      }
    }
  }

  /** Occurrences that end by `start`, one after the other. */
  ghost predicate Spaced(haystack: Bytes, needle: Bytes, offs: seq<nat>, start: nat) {
    && (forall k :: 0 <= k < |offs| ==> OccursAt(haystack, needle, offs[k]) && offs[k] + |needle| <= start)
    && (forall k, l :: 0 <= k < l < |offs| ==> offs[k] + |needle| <= offs[l])
  }

  lemma {:induction false} SpacedGrows(haystack: Bytes, needle: Bytes, offs: seq<nat>, start: nat, i: nat)
    requires Spaced(haystack, needle, offs, start) && start <= i && OccursAt(haystack, needle, i)
    ensures Spaced(haystack, needle, offs + [i], i + |needle|)
  {
  }

  lemma {:induction false} AllHit(haystack: Bytes, needle: Bytes, offs: seq<nat>, start: nat)
    requires HitsBefore(haystack, needle, offs, start) && forall p: nat :: start <= p ==> !OccursAt(haystack, needle, p)
    ensures forall p: nat :: OccursAt(haystack, needle, p) ==> Hit(offs, |needle|, p)
  {
  }

  /** The offsets are occurrences, they do not overlap, and every occurrence starts inside one of them. */
  ghost predicate Indexed(haystack: Bytes, needle: Bytes, offs: seq<nat>) {
    && (forall k :: 0 <= k < |offs| ==> OccursAt(haystack, needle, offs[k]))
    && (forall k, l :: 0 <= k < l < |offs| ==> offs[k] + |needle| <= offs[l])
    && (needle != [] ==> forall p: nat :: OccursAt(haystack, needle, p) ==> Hit(offs, |needle|, p))
    && (needle == [] ==> offs == [])
  }

  method AllIndex(haystack: Bytes, needle: Bytes) returns (offs: seq<nat>)
    ensures Indexed(haystack, needle, offs)
  {
    offs := [];
    if needle == [] { return; }
    var start := 0;
    while start + |needle| <= |haystack|
      invariant start <= |haystack|
      invariant Spaced(haystack, needle, offs, start) && HitsBefore(haystack, needle, offs, start)
      decreases |haystack| - start
    {
      var i := IndexFrom(haystack, needle, start);
      if i.None? {
        AllHit(haystack, needle, offs, start);
        return;
      }
      HitsGrow(haystack, needle, offs, start, i.value);
      SpacedGrows(haystack, needle, offs, start, i.value);
      offs := offs + [i.value];
      start := i.value + |needle|;
    }
    AllHit(haystack, needle, offs, start);
  }

  // ---------------------------------------------------------------- whole occurrences

  /** Some proper prefix of the text is also its suffix, so that two occurrences can overlap. */
  predicate Bordered(needle: Bytes) {
    exists b :: 0 < b < |needle| && Border(needle, b)
  }

  predicate Border(needle: Bytes, b: nat)
    requires b <= |needle|
  {
    needle[..b] == needle[|needle| - b..]
  }

  /** Every byte of every occurrence lies in one of the offsets' ranges. */
  ghost predicate WhollyHit(haystack: Bytes, needle: Bytes, offs: seq<nat>) {
    forall p: nat, i: nat :: OccursAt(haystack, needle, p) && p <= i < p + |needle| ==> Hit(offs, |needle|, i)
  }

  lemma {:induction false} OverlapIsBorder(haystack: Bytes, needle: Bytes, p: nat, q: nat)
    requires OccursAt(haystack, needle, p) && OccursAt(haystack, needle, q) && p < q < p + |needle|
    ensures Border(needle, p + |needle| - q)
  {
    assert needle[q - p..] == haystack[q..p + |needle|];
    assert needle[..p + |needle| - q] == haystack[q..p + |needle|];
  }

  lemma {:induction false} UnborderedIsWhole(haystack: Bytes, needle: Bytes, offs: seq<nat>)
    requires needle != [] && !Bordered(needle) && Indexed(haystack, needle, offs)
    ensures WhollyHit(haystack, needle, offs)
  {
    forall p: nat, i: nat | OccursAt(haystack, needle, p) && p <= i < p + |needle| ensures Hit(offs, |needle|, i) {
      assert Hit(offs, |needle|, p);
      var k :| 0 <= k < |offs| && offs[k] <= p < offs[k] + |needle|;
      if offs[k] < p { OverlapIsBorder(haystack, needle, offs[k], p); }
    }
  }

  /** The text once more, overlapping itself by b bytes. */
  function Doubled(needle: Bytes, b: nat): Bytes
    requires b <= |needle|
  {
    needle + needle[b..]
  }

  /** Of two occurrences that overlap by a border only the first is found, and the tail of the second is not covered. */
  lemma {:induction false} BorderedTailIsMissed(needle: Bytes, b: nat)
    requires 0 < b < |needle| && Border(needle, b)
    ensures OccursAt(Doubled(needle, b), needle, |needle| - b)
    ensures forall offs :: Indexed(Doubled(needle, b), needle, offs) <==> offs == [0]
    ensures !Hit([0], |needle|, |Doubled(needle, b)| - 1)
  {
    var h := Doubled(needle, b);
    assert h[..|needle|] == needle;
    assert h[|needle| - b..2 * |needle| - b] == needle[|needle| - b..] + needle[b..] == needle[..b] + needle[b..];
    forall offs ensures Indexed(h, needle, offs) <==> offs == [0] { DoubledOffsets(needle, b, offs); }
  }

  lemma {:induction false} TwoNeedRoom(haystack: Bytes, needle: Bytes, offs: seq<nat>)
    requires Indexed(haystack, needle, offs)
    ensures |offs| > 1 ==> 2 * |needle| <= |haystack|
  {
    if |offs| > 1 { assert offs[0] + |needle| <= offs[1] && OccursAt(haystack, needle, offs[1]); }
  }

  lemma {:induction false} DoubledOffsets(needle: Bytes, b: nat, offs: seq<nat>)
    requires 0 < b < |needle|
    ensures Indexed(Doubled(needle, b), needle, offs) <==> offs == [0]
  {
    var h := Doubled(needle, b);
    assert h[0..|needle|] == needle && OccursAt(h, needle, 0);
    if Indexed(h, needle, offs) {
      assert Hit(offs, |needle|, 0);
      var k :| 0 <= k < |offs| && offs[k] <= 0 < offs[k] + |needle|;
      TwoNeedRoom(h, needle, offs);
    }
    if offs == [0] {
      forall p: nat | OccursAt(h, needle, p)
        ensures Hit(offs, |needle|, p)
      {
        assert offs[0] <= p < offs[0] + |needle|;
      }
    }
  }

  /** "aba" occurs twice in "ababa"; the second occurrence is not found and its last two bytes are not covered. */
  lemma {:induction false} OverlapIsMissed(offs: seq<nat>)
    requires Indexed("ababa", "aba", offs)
    ensures OccursAt("ababa", "aba", 2) && offs == [0] && !Hit(offs, 3, 3) && !Hit(offs, 3, 4)
  {
    assert "aba"[..1] == "a" && "aba"[2..] == "a" && "aba"[1..] == "ba";
    assert Doubled("aba", 1) == "ababa";
    BorderedTailIsMissed("aba", 1);
  }

  /** The search covers every occurrence of a text in every payload if and only if the text has no border. */
  lemma {:induction false} WholeIffUnbordered(needle: Bytes)
    requires needle != []
    ensures !Bordered(needle) <==>
              forall haystack, offs :: Indexed(haystack, needle, offs) ==> WhollyHit(haystack, needle, offs)
  {
    if !Bordered(needle) {
      forall haystack, offs | Indexed(haystack, needle, offs) ensures WhollyHit(haystack, needle, offs) {
        UnborderedIsWhole(haystack, needle, offs);
      }
    } else {
      var b :| 0 < b < |needle| && Border(needle, b);
      BorderedTailIsMissed(needle, b);
      assert Indexed(Doubled(needle, b), needle, [0]);
      assert !Hit([0], |needle|, |Doubled(needle, b)| - 1);
      assert !WhollyHit(Doubled(needle, b), needle, [0]);
    }
  }

  // ---------------------------------------------------------------- classify

  /** One trufflehog result, with its sanitized placeholder. */
  datatype Report = Report(placeholder: Bytes, raw: Bytes, rawV2: Bytes) {
    function Secret(): Bytes { if raw != [] then raw else rawV2 }
  }

  /** The first byte of every occurrence is covered, and every byte if the secret has no border. */
  ghost predicate Caught(fs: seq<Finding>, secret: Bytes, payload: Bytes) {
    secret != [] ==> forall p: nat, i: nat :: Due(payload, secret, p, i) ==> Covered(Elements(fs), i)
  }

  /** Byte i is the first of the occurrence at p, or any of its bytes if the secret has no border. */
  predicate Due(payload: Bytes, secret: Bytes, p: nat, i: nat) {
    OccursAt(payload, secret, p) && (i == p || (!Bordered(secret) && p <= i < p + |secret|))
  }

  /** f is an occurrence of the secret of r, to be replaced by its placeholder. */
  predicate Reported(f: Finding, r: Report, payload: Bytes) {
    && f.redactable && f.tag == Named(r.placeholder)
    && f.start >= 0 && r.Secret() != [] && OccursAt(payload, r.Secret(), f.start) && f.end == f.start + |r.Secret()|
  }

  predicate Places(fs: seq<Finding>, offs: seq<nat>, width: nat) {
    |fs| == |offs| && forall i :: 0 <= i < |fs| ==> fs[i].start == offs[i] && fs[i].end == offs[i] + width
  }

  predicate AllReported(fs: seq<Finding>, r: Report, payload: Bytes) {
    forall i :: 0 <= i < |fs| ==> Reported(fs[i], r, payload)
  }

  lemma {:induction false} PlacesGrow(fs: seq<Finding>, offs: seq<nat>, width: nat, k: nat, f: Finding)
    requires k < |offs| && Places(fs, offs[..k], width) && f.start == offs[k] && f.end == offs[k] + width
    ensures Places(fs + [f], offs[..k + 1], width)
  {
    assert offs[..k + 1] == offs[..k] + [offs[k]];
  }

  lemma {:induction false} PlacesCover(fs: seq<Finding>, offs: seq<nat>, width: nat, p: nat)
    requires Places(fs, offs, width) && Hit(offs, width, p)
    ensures Covered(Elements(fs), p)
  {
    var k :| 0 <= k < |offs| && offs[k] <= p < offs[k] + width;
    assert fs[k] in Elements(fs);
  }

  lemma {:induction false} PlacesCatch(payload: Bytes, secret: Bytes, offs: seq<nat>, fs: seq<Finding>)
    requires Indexed(payload, secret, offs) && Places(fs, offs, |secret|)
    ensures Caught(fs, secret, payload)
  {
    if secret != [] {
      if !Bordered(secret) { UnborderedIsWhole(payload, secret, offs); }
      forall p: nat, i: nat | Due(payload, secret, p, i) ensures Covered(Elements(fs), i) {
        assert Hit(offs, |secret|, i);
        PlacesCover(fs, offs, |secret|, i);
      }
    }
  }

  /** The findings of one report. */
  method Locate(payload: Bytes, r: Report) returns (fs: seq<Finding>)
    ensures forall i :: 0 <= i < |fs| ==> Reported(fs[i], r, payload)
    ensures Caught(fs, r.Secret(), payload)
  {
    var secret := r.Secret();
    var offs := AllIndex(payload, secret);
    fs := [];
    for k := 0 to |offs|
      invariant Places(fs, offs[..k], |secret|) && AllReported(fs, r, payload)
    {
      var f := Finding(offs[k], offs[k] + |secret|, Named(r.placeholder), true);
      PlacesGrow(fs, offs, |secret|, k, f);
      assert Reported(f, r, payload);
      fs := fs + [f];
    }
    assert offs[..|offs|] == offs;
    PlacesCatch(payload, secret, offs, fs);
  }

  ghost predicate FromScan(f: Finding, reports: seq<Report>, payload: Bytes) {
    exists r :: r in reports && Reported(f, r, payload)
  }

  /** parseTrufflehogOutput over the decoded reports: nothing but occurrences of reported secrets is covered, and of
      every occurrence the first byte is, and all of it if the secret has no border. */
  method ParseReports(payload: Bytes, reports: seq<Report>) returns (fs: seq<Finding>)
    ensures forall i :: 0 <= i < |fs| ==> FromScan(fs[i], reports, payload)
    ensures forall r :: r in reports ==> Caught(fs, r.Secret(), payload)
  {
    fs := [];
    for k := 0 to |reports|
      invariant forall i :: 0 <= i < |fs| ==> FromScan(fs[i], reports, payload)
      invariant forall j :: 0 <= j < k ==> Caught(fs, reports[j].Secret(), payload)
    {
      var more := Locate(payload, reports[k]);
      forall j | 0 <= j <= k ensures Caught(fs + more, reports[j].Secret(), payload) {
        CaughtGrows(fs, more, reports[j].Secret(), payload);
      }
      forall i | 0 <= i < |more|
        ensures FromScan(more[i], reports, payload)
      {
        assert Reported(more[i], reports[k], payload);
      }
      fs := fs + more;
    }
  }

  lemma {:induction false} CaughtGrows(fs: seq<Finding>, more: seq<Finding>, secret: Bytes, payload: Bytes)
    requires Caught(fs, secret, payload) || Caught(more, secret, payload)
    ensures Caught(fs + more, secret, payload)
  {
    if secret != [] {
      forall p: nat, i: nat | Due(payload, secret, p, i) ensures Covered(Elements(fs + more), i) {
        if Caught(fs, secret, payload) {
          var f :| f in Elements(fs) && f.start <= i < f.end;
          assert f in Elements(fs + more);
        } else {
          var f :| f in Elements(more) && f.start <= i < f.end;
          assert f in Elements(fs + more);
        }
      }
    }
  }

  datatype Classification = Dirty | Clean | Strippable

  /** trufflehog failed (missing, timed out, non-zero exit, malformed output), or its reports. */
  datatype Scan = Broken | Reports(reports: seq<Report>)

  /** classifyWith. Dirty and Clean hand back the payload untouched; a broken scan is Dirty; Clean means no
      reported secret occurs; Strippable is the reference redaction, in which the first byte of every
      occurrence of every reported secret is replaced, and every byte if the secret has no border. */
  method Classify(payload: Bytes, pii: seq<Finding>, scan: Scan)
    returns (tier: Classification, out: Bytes, ghost all: seq<Finding>)
    requires forall i :: 0 <= i < |pii| ==> Nonempty(pii[i]) && pii[i].end <= |payload|
    ensures tier != Strippable ==> out == payload
    ensures scan.Broken? ==> tier == Dirty
    ensures scan.Reports? ==> (tier == Dirty <==> !AllRedactable(pii))
    ensures tier == Clean ==> pii == [] && scan.Reports?
    ensures tier != Dirty ==> forall r :: r in scan.reports ==> Caught(all, r.Secret(), payload)
    ensures tier == Clean ==>
              forall r, p: nat :: r in scan.reports && r.Secret() != [] ==> !OccursAt(payload, r.Secret(), p)
    ensures forall f :: f in all ==> f in pii || (scan.Reports? && FromScan(f, scan.reports, payload))
    ensures tier == Strippable ==> pii <= all && out == Reference(payload, Elements(all), 0)
  {
    all := [];
    if scan.Broken? { return Dirty, payload, []; }
    var secrets := ParseReports(payload, scan.reports);
    var fs := pii + secrets;
    all := fs;
    forall r | r in scan.reports
      ensures Caught(fs, r.Secret(), payload)
    {
      CaughtGrows(pii, secrets, r.Secret(), payload);
    }
    forall f | f in secrets ensures FromScan(f, scan.reports, payload) {
      var i :| 0 <= i < |secrets| && secrets[i] == f;
    }
    if fs == [] {
      forall r, p: nat | r in scan.reports && r.Secret() != [] ensures !OccursAt(payload, r.Secret(), p) {
        assert Caught(fs, r.Secret(), payload) && Elements(fs) == {};
        assert OccursAt(payload, r.Secret(), p) ==> Due(payload, r.Secret(), p, p);
      }
      return Clean, payload, all;
    }
    var redacted := RedactAll(payload, fs);
    RedactionSucceedsIff(payload, fs);
    assert forall i :: 0 <= i < |pii| ==> fs[i] == pii[i];
    forall i | 0 <= i < |fs|
      ensures Nonempty(fs[i]) && fs[i].end <= |payload|
    {
      assert fs[i] in pii || fs[i] in secrets;
    }
    if redacted.None? { return Dirty, payload, all; }
    RedactionIsReference(payload, fs);
    return Strippable, redacted.value, all;
  }
}
