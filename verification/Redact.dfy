/** The redactor (internal/redact/classify.go): occurrence search, sort and merge of findings, rewrite, and the
    three-way classification. `Reference` says, byte by byte and without any ordering, what the
    rewritten payload must be. */
module Redact {

  type Bytes = string

  /** A placeholder: a detector's own, or the marker for findings that overlap and disagree. */
  datatype Tag = Overlap | Named(placeholder: Bytes) {
    function Text(): Bytes {
      if Overlap? then "[REDACTED_OVERLAP]" else placeholder
    }
  }

  datatype Finding = Finding(start: int, end: int, tag: Tag, redactable: bool)

  // ---------------------------------------------------------------- reference

  ghost predicate Covered(fs: set<Finding>, i: int) {
    exists f :: f in fs && f.start <= i < f.end
  }

  /** Byte i belongs to the same overlap class as byte i - 1. */
  ghost predicate Joined(fs: set<Finding>, i: int) {
    exists f :: f in fs && f.start < i < f.end
  }

  /** Findings of the class that spans [a, b). */
  predicate StartsIn(f: Finding, a: int, b: int) {
    a <= f.start < b
  }

  ghost predicate SameLabel(fs: set<Finding>, a: int, b: int, tag: Tag) {
    forall f :: f in fs && StartsIn(f, a, b) ==> f.tag == tag
  }

  /** One placeholder per class: the tag its findings share, or the overlap marker. */
  ghost function LabelOf(fs: set<Finding>, a: int, b: int): Tag {
    if exists f :: f in fs && StartsIn(f, a, b) && SameLabel(fs, a, b, f.tag)
    then var f :| f in fs && StartsIn(f, a, b) && SameLabel(fs, a, b, f.tag); f.tag
    else Overlap
  }

  /** Where the class that starts at i ends. */
  ghost function ClassEnd(fs: set<Finding>, i: nat, n: nat): (e: nat)
    requires i < n
    ensures i < e <= n
    decreases n - i
  {
    if i + 1 < n && Joined(fs, i + 1) then ClassEnd(fs, i + 1, n) else i + 1
  }

  /** The payload from byte i on, with every overlap class replaced by its placeholder. */
  ghost function Reference(payload: Bytes, fs: set<Finding>, i: nat): Bytes
    decreases |payload| - i
  {
    if i >= |payload| then []
    else if !Covered(fs, i) then [payload[i]] + Reference(payload, fs, i + 1)
    else var e := ClassEnd(fs, i, |payload|); LabelOf(fs, i, e).Text() + Reference(payload, fs, e)
  }

  // ---------------------------------------------------------------- sort

  predicate Precedes(f: Finding, g: Finding) {
    f.start < g.start || (f.start == g.start && f.end <= g.end)
  }

  predicate Ordered(fs: seq<Finding>) {
    forall i, j :: 0 <= i < j < |fs| ==> Precedes(fs[i], fs[j])
  }

  /** Where a later finding goes in a stable sort: after everything not greater than it. */
  function Insert(fs: seq<Finding>, f: Finding): seq<Finding> {
    if fs == [] || Precedes(fs[|fs| - 1], f) then fs + [f]
    else Insert(fs[..|fs| - 1], f) + [fs[|fs| - 1]]
  }

  /** sort.SliceStable by (start, end). */
  function Sort(fs: seq<Finding>): seq<Finding> {
    if fs == [] then [] else Insert(Sort(fs[..|fs| - 1]), fs[|fs| - 1])
  }

  ghost function Elements(fs: seq<Finding>): set<Finding> {
    set f | f in fs
  }

  lemma {:induction false} InsertElements(fs: seq<Finding>, f: Finding)
    ensures multiset(Insert(fs, f)) == multiset(fs) + multiset{f}
  {
    if fs != [] && !Precedes(fs[|fs| - 1], f) {
      InsertElements(fs[..|fs| - 1], f);
      assert fs == fs[..|fs| - 1] + [fs[|fs| - 1]];
    }
  }

  lemma {:induction false} InsertOrdered(fs: seq<Finding>, f: Finding)
    requires Ordered(fs)
    ensures Ordered(Insert(fs, f))
  {
    if fs != [] && !Precedes(fs[|fs| - 1], f) {
      var front, last := fs[..|fs| - 1], fs[|fs| - 1];
      InsertOrdered(front, f);
      InsertElements(front, f);
      var r := Insert(front, f);
      forall i | 0 <= i < |r| ensures Precedes(r[i], last) {
        assert r[i] in multiset(r);
        if r[i] != f { assert r[i] in front; }
      }
    }
  }

  lemma {:induction false} SortSorts(fs: seq<Finding>)
    ensures Ordered(Sort(fs)) && multiset(Sort(fs)) == multiset(fs)
  {
    if fs != [] {
      var front, f := fs[..|fs| - 1], fs[|fs| - 1];
      SortSorts(front);
      InsertOrdered(Sort(front), f);
      InsertElements(Sort(front), f);
      assert fs == front + [f];
    }
  }

  lemma {:induction false} SortElements(fs: seq<Finding>)
    ensures Elements(Sort(fs)) == Elements(fs) && |Sort(fs)| == |fs|
  {
    SortSorts(fs);
    forall f ensures f in Sort(fs) <==> f in fs {
      assert f in Sort(fs) <==> f in multiset(Sort(fs));
      assert f in fs <==> f in multiset(fs);
    }
    assert |multiset(Sort(fs))| == |multiset(fs)|;
  }

  // ---------------------------------------------------------------- merge

  function Absorb(last: Finding, f: Finding): Finding {
    last.(end := if f.end > last.end then f.end else last.end,
          tag := if f.tag != last.tag then Overlap else last.tag)
  }

  function MergeOne(merged: seq<Finding>, f: Finding): seq<Finding> {
    if merged == [] then [f]
    else
      var last := merged[|merged| - 1];
      if f.start < last.end then merged[..|merged| - 1] + [Absorb(last, f)] else merged + [f]
  }

  function Merged(fs: seq<Finding>): seq<Finding> {
    if fs == [] then [] else MergeOne(Merged(fs[..|fs| - 1]), fs[|fs| - 1])
  }

  /** The merge loop of redactAll, which edits the last merged range in place. */
  method Merge(sorted: seq<Finding>) returns (merged: seq<Finding>)
    requires sorted != []
    ensures merged == Merged(sorted)
  {
    merged := [sorted[0]];
    assert sorted[..1] == [sorted[0]] && [sorted[0]][..0] == [];
    for i := 1 to |sorted|
      invariant merged == Merged(sorted[..i]) && merged != []
    {
      var f := sorted[i];
      assert sorted[..i + 1][..i] == sorted[..i];
      var n := |merged| - 1;
      var last := merged[n];
      if f.start < last.end {
        if f.end > last.end { merged := merged[n := merged[n].(end := f.end)]; }
        if f.tag != last.tag { merged := merged[n := merged[n].(tag := Overlap)]; }
        assert merged == Merged(sorted[..i])[..n] + [merged[n]];
      } else {
        merged := merged + [f];
      }
    }
    assert sorted[..|sorted|] == sorted;
  }

  predicate Span(f: Finding) {
    0 <= f.start <= f.end
  }

  predicate Disjoint(ms: seq<Finding>) {
    && (forall k :: 0 <= k < |ms| ==> Span(ms[k]))
    && (forall k, l :: 0 <= k < l < |ms| ==> ms[k].end <= ms[l].start)
  }

  predicate Within(ms: seq<Finding>, n: nat) {
    forall k :: 0 <= k < |ms| ==> ms[k].end <= n
  }

  /** The last merged range starts no later than the next finding. */
  predicate Behind(ms: seq<Finding>, f: Finding) {
    ms != [] ==> ms[|ms| - 1].start <= f.start
  }

  lemma {:induction false} MergeOneDisjoint(before: seq<Finding>, f: Finding, n: nat)
    requires Disjoint(before) && Span(f) && Behind(before, f)
    ensures var after := MergeOne(before, f);
            Disjoint(after) && after != [] && Behind(after, f)
                && (Within(after, n) <==> Within(before, n) && f.end <= n)
  {
    if before != [] {
      var after := MergeOne(before, f);
      var b := |before| - 1;
      assert forall k :: 0 <= k < b ==> after[k] == before[k];
      if Within(after, n) {
        assert after[|after| - 1].end <= n && after[b].end <= n;
        forall k | 0 <= k < |before| ensures before[k].end <= n { assert after[k].end <= n; }
      }
    }
  }

  /** For spans in order: the merged ranges are disjoint and in order, and reach as far as the findings do. */
  lemma {:induction false} MergedDisjoint(fs: seq<Finding>, n: nat)
    requires Ordered(fs) && forall i :: 0 <= i < |fs| ==> Span(fs[i])
    ensures Disjoint(Merged(fs)) && (fs != [] ==> Merged(fs) != [] && Behind(Merged(fs), fs[|fs| - 1]))
    ensures Within(Merged(fs), n) <==> Within(fs, n)
  {
    if fs != [] {
      var front, f := fs[..|fs| - 1], fs[|fs| - 1];
      assert Ordered(front) && forall i :: 0 <= i < |front| ==> Span(front[i]);
      MergedDisjoint(front, n);
      BehindNext(fs, Merged(front));
      MergeOneDisjoint(Merged(front), f, n);
      WithinAppend(front, f, n);
      assert fs == front + [f];
    }
  }

  lemma {:induction false} BehindNext(fs: seq<Finding>, ms: seq<Finding>)
    requires fs != [] && Ordered(fs) && (|fs| == 1 ==> ms == []) && (|fs| > 1 ==> Behind(ms, fs[|fs| - 2]))
    ensures Behind(ms, fs[|fs| - 1])
  {
    if |fs| > 1 { assert Precedes(fs[|fs| - 2], fs[|fs| - 1]); }
  }

  lemma {:induction false} WithinAppend(front: seq<Finding>, f: Finding, n: nat)
    ensures Within(front + [f], n) <==> Within(front, n) && f.end <= n
  {
    var all := front + [f];
    assert all[|front|] == f && forall k :: 0 <= k < |front| ==> all[k] == front[k];
  }

  // ---------------------------------------------------------------- merged ranges are the overlap classes

  predicate Nonempty(f: Finding) {
    0 <= f.start < f.end
  }

  ghost predicate Inside(ms: seq<Finding>, x: int) {
    exists k :: 0 <= k < |ms| && ms[k].start <= x < ms[k].end
  }

  ghost predicate Interior(ms: seq<Finding>, x: int) {
    exists k :: 0 <= k < |ms| && ms[k].start < x < ms[k].end
  }

  ghost predicate Mixed(fs: set<Finding>, a: int, b: int) {
    exists g, h :: g in fs && h in fs && StartsIn(g, a, b) && StartsIn(h, a, b) && g.tag != h.tag
  }

  /** `tag` is the one placeholder of the findings that start in [a, b). */
  ghost predicate Tagged(fs: set<Finding>, a: int, b: int, tag: Tag) {
    && (exists g :: g in fs && StartsIn(g, a, b))
    && (SameLabel(fs, a, b, tag) || (tag == Overlap && Mixed(fs, a, b)))
  }

  lemma {:induction false} TaggedIsLabel(fs: set<Finding>, a: int, b: int, tag: Tag)
    requires Tagged(fs, a, b, tag)
    ensures tag == LabelOf(fs, a, b)
  {
    if SameLabel(fs, a, b, tag) {
      var g :| g in fs && StartsIn(g, a, b);
      assert SameLabel(fs, a, b, g.tag);
    } else {
      var g, h :| g in fs && h in fs && StartsIn(g, a, b) && StartsIn(h, a, b) && g.tag != h.tag;
    }
  }

  ghost predicate AllTagged(fs: set<Finding>, ms: seq<Finding>) {
    forall k :: 0 <= k < |ms| ==> Tagged(fs, ms[k].start, ms[k].end, ms[k].tag)
  }

  ghost predicate Contains(ms: seq<Finding>, f: Finding) {
    exists k :: 0 <= k < |ms| && ms[k].start <= f.start && f.end <= ms[k].end
  }

  /** The ranges cover exactly the covered bytes, break exactly between classes, and carry their tags. */
  ghost predicate Tiles(fs: set<Finding>, ms: seq<Finding>) {
    && (forall k :: 0 <= k < |ms| ==> Nonempty(ms[k]))
    && (forall x :: Covered(fs, x) <==> Inside(ms, x))
    && (forall x :: Joined(fs, x) <==> Interior(ms, x))
    && (forall f :: f in fs ==> Contains(ms, f))
    && AllTagged(fs, ms)
  }

  lemma {:induction false} CoveredPlus(fs: set<Finding>, f: Finding, x: int)
    ensures Covered(fs + {f}, x) <==> Covered(fs, x) || f.start <= x < f.end
    ensures Joined(fs + {f}, x) <==> Joined(fs, x) || f.start < x < f.end
  {
    if Covered(fs, x) {
      var g :| g in fs && g.start <= x < g.end;
      assert g in fs + {f};
    }
    if Joined(fs, x) {
      var g :| g in fs && g.start < x < g.end;
      assert g in fs + {f};
    }
    if f.start <= x < f.end { assert f in fs + {f}; }
  }

  lemma {:induction false} InsideAppend(ms: seq<Finding>, f: Finding, x: int)
    ensures Inside(ms + [f], x) <==> Inside(ms, x) || f.start <= x < f.end
    ensures Interior(ms + [f], x) <==> Interior(ms, x) || f.start < x < f.end
  {
    var all := ms + [f];
    if Inside(ms, x) {
      var k :| 0 <= k < |ms| && ms[k].start <= x < ms[k].end;
      assert all[k] == ms[k];
    }
    if Interior(ms, x) {
      var k :| 0 <= k < |ms| && ms[k].start < x < ms[k].end;
      assert all[k] == ms[k];
    }
    assert all[|ms|] == f;
  }

  /** Bytes inside the ranges after one more finding. */
  lemma {:induction false} InsidePlus(before: seq<Finding>, f: Finding, x: int)
    requires Nonempty(f) && Behind(before, f)
    ensures Inside(MergeOne(before, f), x) <==> Inside(before, x) || f.start <= x < f.end
    ensures Interior(MergeOne(before, f), x) <==> Interior(before, x) || f.start < x < f.end
  {
    if before == [] {
      InsideAppend([], f, x);
      assert [] + [f] == [f];
    } else {
      var init, last := before[..|before| - 1], before[|before| - 1];
      assert before == init + [last];
      InsideAppend(init, last, x);
      InsideAppend(init, Absorb(last, f), x);
      InsideAppend(before, f, x);
    }
  }

  lemma {:induction false} ContainsPlus(before: seq<Finding>, f: Finding, g: Finding)
    requires Behind(before, f) && (g == f || Contains(before, g))
    ensures Contains(MergeOne(before, f), g)
  {
    var after := MergeOne(before, f);
    if g == f {
      assert after[|after| - 1].start <= f.start && f.end <= after[|after| - 1].end;
    } else {
      var k :| 0 <= k < |before| && before[k].start <= g.start && g.end <= before[k].end;
      assert after[k].start <= g.start && g.end <= after[k].end;
    }
  }

  /** A finding that starts outside [a, b) does not change its tag. */
  lemma {:induction false} TaggedFrame(fs: set<Finding>, f: Finding, a: int, b: int, tag: Tag)
    requires Tagged(fs, a, b, tag) && !StartsIn(f, a, b)
    ensures Tagged(fs + {f}, a, b, tag)
  {
    var g :| g in fs && StartsIn(g, a, b);
    assert g in fs + {f};
    if !SameLabel(fs, a, b, tag) {
      var g', h :| g' in fs && h in fs && StartsIn(g', a, b) && StartsIn(h, a, b) && g'.tag != h.tag;
      assert g' in fs + {f} && h in fs + {f};
    }
  }

  /** Absorbing a finding that starts inside the last range. */
  lemma {:induction false} TaggedAbsorb(fs: set<Finding>, f: Finding, last: Finding)
    requires Tagged(fs, last.start, last.end, last.tag) && StartsIn(f, last.start, last.end)
    requires forall g :: g in fs ==> g.start <= f.start
    ensures var m := Absorb(last, f); Tagged(fs + {f}, m.start, m.end, m.tag)
  {
    var m := Absorb(last, f);
    var all := fs + {f};
    assert f in all && StartsIn(f, m.start, m.end);
    var g :| g in fs && StartsIn(g, last.start, last.end);
    assert g in all && StartsIn(g, m.start, m.end);
    if SameLabel(fs, last.start, last.end, last.tag) {
      if f.tag == last.tag { assert SameLabel(all, m.start, m.end, m.tag); } else { assert Mixed(all, m.start, m.end); }
    } else {
      var p, q :| p in fs && q in fs && StartsIn(p, last.start, last.end) && StartsIn(q, last.start, last.end)
          && p.tag != q.tag;
      assert p in all && q in all && StartsIn(p, m.start, m.end) && StartsIn(q, m.start, m.end);
    }
  }

  lemma {:induction false} AllTaggedPlus(fs: set<Finding>, before: seq<Finding>, f: Finding)
    requires AllTagged(fs, before) && (forall g :: g in fs ==> Contains(before, g))
    requires Disjoint(before) && Behind(before, f) && Nonempty(f)
    requires forall g :: g in fs ==> g.start <= f.start && Nonempty(g)
    ensures AllTagged(fs + {f}, MergeOne(before, f))
  {
    var after := MergeOne(before, f);
    var b := |before| - 1;
    forall k | 0 <= k < |after| ensures Tagged(fs + {f}, after[k].start, after[k].end, after[k].tag) {
      if k < b || (k == b && f.start >= before[b].end) {
        EarlierTagged(fs, before, f, k);
      } else if k == b {
        TaggedAbsorb(fs, f, before[b]);
      } else {
        FreshClass(fs, before, f);
      }
    }
  }

  /** A range that ends before f starts keeps its place and its tag. */
  lemma {:induction false} EarlierTagged(fs: set<Finding>, before: seq<Finding>, f: Finding, k: nat)
    requires AllTagged(fs, before) && Disjoint(before) && Behind(before, f)
    requires k < |before| && (k == |before| - 1 ==> f.start >= before[k].end)
    ensures MergeOne(before, f)[k] == before[k] && Tagged(fs + {f}, before[k].start, before[k].end, before[k].tag)
  {
    var b := |before| - 1;
    if k < b { assert before[k].end <= before[b].start; }
    assert !StartsIn(f, before[k].start, before[k].end);
    TaggedFrame(fs, f, before[k].start, before[k].end, before[k].tag);
  }

  /** A finding past every range is alone in its class. */
  lemma {:induction false} FreshClass(fs: set<Finding>, before: seq<Finding>, f: Finding)
    requires (forall g :: g in fs ==> Contains(before, g)) && Disjoint(before) && Nonempty(f)
    requires before != [] ==> before[|before| - 1].end <= f.start
    requires forall g :: g in fs ==> g.start <= f.start && Nonempty(g)
    ensures Tagged(fs + {f}, f.start, f.end, f.tag)
  {
    assert f in fs + {f} && StartsIn(f, f.start, f.end);
    forall g | g in fs ensures g.start < f.start {
      assert Contains(before, g);
      var k :| 0 <= k < |before| && before[k].start <= g.start && g.end <= before[k].end;
      if k < |before| - 1 { assert before[k].end <= before[|before| - 1].start; }
    }
  }

  lemma {:induction false} MergeOneNonempty(before: seq<Finding>, f: Finding)
    requires Nonempty(f) && forall k :: 0 <= k < |before| ==> Nonempty(before[k])
    ensures var after := MergeOne(before, f); forall k :: 0 <= k < |after| ==> Nonempty(after[k])
  {
  }

  lemma {:induction false} MergeOneTiles(fs: set<Finding>, before: seq<Finding>, f: Finding)
    requires Tiles(fs, before) && Disjoint(before) && Behind(before, f) && Nonempty(f)
    requires forall g :: g in fs ==> g.start <= f.start && Nonempty(g)
    ensures Tiles(fs + {f}, MergeOne(before, f))
  {
    var after := MergeOne(before, f);
    forall x ensures Covered(fs + {f}, x) <==> Inside(after, x) {
      CoveredPlus(fs, f, x);
      InsidePlus(before, f, x);
    }
    forall x ensures Joined(fs + {f}, x) <==> Interior(after, x) {
      CoveredPlus(fs, f, x);
      InsidePlus(before, f, x);
    }
    MergeOneNonempty(before, f);
    forall g | g in fs + {f} ensures Contains(after, g) { ContainsPlus(before, f, g); }
    AllTaggedPlus(fs, before, f);
  }

  /** The last of the ordered findings starts no earlier than the others. */
  lemma {:induction false} LastStarts(fs: seq<Finding>)
    requires Ordered(fs) && fs != [] && forall i :: 0 <= i < |fs| ==> Nonempty(fs[i])
    ensures forall g :: g in Elements(fs[..|fs| - 1]) ==> g.start <= fs[|fs| - 1].start && Nonempty(g)
    ensures Elements(fs) == Elements(fs[..|fs| - 1]) + {fs[|fs| - 1]}
  {
    var front, f := fs[..|fs| - 1], fs[|fs| - 1];
    assert fs == front + [f];
    forall g | g in Elements(front) ensures g.start <= f.start && Nonempty(g) {
      var i :| 0 <= i < |front| && front[i] == g;
      assert Precedes(fs[i], f) && fs[i] == g;
    }
  }

  /** Main fact about the merge: on ordered, non-empty findings it computes the overlap classes. */
  lemma {:induction false} MergedTiles(fs: seq<Finding>)
    requires Ordered(fs) && forall i :: 0 <= i < |fs| ==> Nonempty(fs[i])
    ensures Tiles(Elements(fs), Merged(fs))
  {
    if fs == [] {
      assert Elements(fs) == {};
    } else {
      var front, f := fs[..|fs| - 1], fs[|fs| - 1];
      MergedTiles(front);
      MergedDisjoint(front, 0);
      if front != [] { assert Precedes(fs[|fs| - 2], f); }
      LastStarts(fs);
      MergeOneTiles(Elements(front), Merged(front), f);
    }
  }
}
