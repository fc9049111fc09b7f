/** The subagent forest (internal/api/handler/session_detail.go): rows joined to parents through a map of mutable nodes,
    then frozen into immutable trees. */
module Forest {
  import opened Common

  datatype Row = Row(id: nat, parent: Option<nat>)

  /** A frozen node; `row` is the index of the row it shows. */
  datatype Tree = Tree(row: nat, children: seq<Tree>)

  // ---------------------------------------------------------------- who is under whom

  /** The latest of the first n rows that carries this id: what the map of nodes holds after n rows. */
  function Latest(rows: seq<Row>, id: nat, n: nat): (j: Option<nat>)
    requires n <= |rows|
    ensures j.Some? ==> j.value < n && rows[j.value].id == id && forall k :: j.value < k < n ==> rows[k].id != id
    ensures j.None? ==> forall k :: 0 <= k < n ==> rows[k].id != id
  {
    if n == 0 then None else if rows[n - 1].id == id then Some(n - 1) else Latest(rows, id, n - 1)
  }

  /** A row's own node is registered before its parent is looked up. */
  function Parent(rows: seq<Row>, k: nat): (j: Option<nat>)
    requires k < |rows|
    ensures j.Some? ==> j.value <= k
  {
    if rows[k].parent.None? then None else Latest(rows, rows[k].parent.value, k + 1)
  }

  predicate SelfParent(rows: seq<Row>, k: nat)
    requires k < |rows|
  {
    Parent(rows, k) == Some(k)
  }

  /** The rows among the first n whose parent is p, in row order. `None` asks for the roots. */
  function Under(rows: seq<Row>, p: Option<nat>, n: nat): (list: seq<nat>)
    requires n <= |rows|
    ensures forall m :: 0 <= m < |list| ==> list[m] < n && Parent(rows, list[m]) == p
  {
    if n == 0 then []
    else if Parent(rows, n - 1) == p then Under(rows, p, n - 1) + [n - 1]
    else Under(rows, p, n - 1)
  }

  predicate Increasing(list: seq<nat>) {
    forall a, b :: 0 <= a < b < |list| ==> list[a] < list[b]
  }

  /** Every row is listed under its parent, exactly once and in row order. */
  lemma {:induction false} UnderIsComplete(rows: seq<Row>, p: Option<nat>, n: nat)
    requires n <= |rows|
    ensures Increasing(Under(rows, p, n))
    ensures forall k :: 0 <= k < n ==> (k in Under(rows, p, n) <==> Parent(rows, k) == p)
  {
    if n > 0 {
      var (init, list) := (Under(rows, p, n - 1), Under(rows, p, n));
      UnderIsComplete(rows, p, n - 1);
      assert list == init || (list == init + [n - 1] && Parent(rows, n - 1) == p);
      assert n - 1 !in init;
    }
  }

  // ---------------------------------------------------------------- the forest the code returns

  /** Rows that can be frozen below `above`: later ones that are not their own parent. */
  ghost predicate Freezable(rows: seq<Row>, list: seq<nat>, above: int) {
    forall m :: 0 <= m < |list| ==> above < list[m] < |rows| && !SelfParent(rows, list[m])
  }

  lemma {:induction false} ChildrenFreezable(rows: seq<Row>, i: nat)
    requires i < |rows| && !SelfParent(rows, i)
    ensures Freezable(rows, Under(rows, Some(i), |rows|), i)
  {
    var list := Under(rows, Some(i), |rows|);
    forall m | 0 <= m < |list| ensures i < list[m] < |rows| && !SelfParent(rows, list[m]) {
      assert Parent(rows, list[m]) == Some(i) && list[m] != i;
    }
  }

  ghost function Frozen(rows: seq<Row>, i: nat): Tree
    requires i < |rows| && !SelfParent(rows, i)
    decreases |rows| - i, 1, 0
  {
    ChildrenFreezable(rows, i);
    Tree(i, FrozenAll(rows, Under(rows, Some(i), |rows|), i))
  }

  ghost function FrozenAll(rows: seq<Row>, list: seq<nat>, above: int): (trees: seq<Tree>)
    requires -1 <= above < |rows| && Freezable(rows, list, above)
    ensures |trees| == |list|
    decreases |rows| - above, 0, |list|
  {
    if list == [] then []
    else FrozenAll(rows, list[..|list| - 1], above) + [Frozen(rows, list[|list| - 1])]
  }

  lemma {:induction false} RootsFreezable(rows: seq<Row>)
    ensures Freezable(rows, Under(rows, None, |rows|), -1)
  {
  }

  ghost function Forest(rows: seq<Row>): seq<Tree> {
    if rows == [] then [] else
      RootsFreezable(rows);
      FrozenAll(rows, Under(rows, None, |rows|), -1)
  }

  // ---------------------------------------------------------------- how often a row appears

  function Shown(t: Tree, x: nat): nat
    decreases t, 0
  {
    (if t.row == x then 1 else 0) + ShownAll(t.children, x)
  }

  function ShownAll(ts: seq<Tree>, x: nat): nat
    decreases ts, |ts|
  {
    if ts == [] then 0 else
      assert ts[..|ts| - 1] < ts;
      ShownAll(ts[..|ts| - 1], x) + Shown(ts[|ts| - 1], x)
  }

  /** How often x's parent appears, if x has a parent other than itself. */
  ghost function Via(rows: seq<Row>, ts: seq<Tree>, x: nat): nat
    requires x < |rows|
  {
    if Parent(rows, x).Some? && !SelfParent(rows, x) then ShownAll(ts, Parent(rows, x).value) else 0
  }

  lemma {:induction false} NodeShows(rows: seq<Row>, i: nat, x: nat)
    requires i < |rows| && !SelfParent(rows, i) && x < |rows|
    ensures Shown(Frozen(rows, i), x) == (if i == x then 1 else 0) + Via(rows, [Frozen(rows, i)], x)
    decreases |rows| - i, 1, 0
  {
    var list := Under(rows, Some(i), |rows|);
    ChildrenFreezable(rows, i);
    UnderIsComplete(rows, Some(i), |rows|);
    ListShows(rows, list, i, x);
    var t := Frozen(rows, i);
    if Parent(rows, x).Some? {
      var p := Parent(rows, x).value;
      assert ShownAll([t][..0], p) == 0;
      assert ShownAll([t], p) == Shown(t, p);
    }
    if x in list {
      assert Parent(rows, x) == Some(i) && !SelfParent(rows, x);
    }
  }

  /** Every row of the list appears once for being listed, and once for each time its parent appears. */
  lemma {:induction false} ListShows(rows: seq<Row>, list: seq<nat>, above: int, x: nat)
    requires -1 <= above < |rows| && Freezable(rows, list, above) && Increasing(list) && x < |rows|
    ensures var ts := FrozenAll(rows, list, above);
            ShownAll(ts, x) == (if x in list then 1 else 0) + Via(rows, ts, x)
    decreases |rows| - above, 0, |list|
  {
    if list != [] {
      var (init, last) := (list[..|list| - 1], list[|list| - 1]);
      ListShows(rows, init, above, x);
      NodeShows(rows, last, x);
      ListSplits(rows, list, above, x);
      ViaSplits(rows, list, above, x);
      LastOnce(list, x);
    }
  }

  lemma {:induction false} LastOnce(list: seq<nat>, x: nat)
    requires list != [] && Increasing(list)
    ensures x in list <==> x in list[..|list| - 1] || x == list[|list| - 1]
    ensures !(x in list[..|list| - 1] && x == list[|list| - 1])
  {
    assert list == list[..|list| - 1] + [list[|list| - 1]];
  }

  lemma {:induction false} ViaSplits(rows: seq<Row>, list: seq<nat>, above: int, x: nat)
    requires -1 <= above < |rows| && Freezable(rows, list, above) && list != [] && x < |rows|
    ensures Via(rows, FrozenAll(rows, list, above), x)
            == Via(rows, FrozenAll(rows, list[..|list| - 1], above), x) + Via(rows, [Frozen(rows, list[|list| - 1])], x)
  {
    if Parent(rows, x).Some? {
      var p := Parent(rows, x).value;
      ListSplits(rows, list, above, p);
      assert ShownAll([Frozen(rows, list[|list| - 1])][..0], p) == 0;
    }
  }

  lemma {:induction false} ListSplits(rows: seq<Row>, list: seq<nat>, above: int, x: nat)
    requires -1 <= above < |rows| && Freezable(rows, list, above) && list != []
    ensures ShownAll(FrozenAll(rows, list, above), x)
            == ShownAll(FrozenAll(rows, list[..|list| - 1], above), x) + Shown(Frozen(rows, list[|list| - 1]), x)
  {
    var ts := FrozenAll(rows, list, above);
    assert ts[..|ts| - 1] == FrozenAll(rows, list[..|list| - 1], above);
  }

  /** The chain of parents ends at a root rather than at a row that is its own parent. */
  predicate Anchored(rows: seq<Row>, x: nat)
    requires x < |rows|
  {
    Parent(rows, x).None? || (!SelfParent(rows, x) && Anchored(rows, Parent(rows, x).value))
  }

  /** How often row x appears in the forest. */
  ghost function Appearances(rows: seq<Row>, x: nat): nat { ShownAll(Forest(rows), x) }

  /** A row appears exactly once if its chain of parents ends at a root, and not at all otherwise. */
  lemma {:induction false} ShownIffAnchored(rows: seq<Row>, x: nat)
    requires x < |rows|
    ensures Appearances(rows, x) == if Anchored(rows, x) then 1 else 0
  {
    RootsFreezable(rows);
    UnderIsComplete(rows, None, |rows|);
    ListShows(rows, Under(rows, None, |rows|), -1, x);
    if Parent(rows, x).Some? && !SelfParent(rows, x) {
      ShownIffAnchored(rows, Parent(rows, x).value);
    }
  }

  lemma {:induction false} AllAnchored(rows: seq<Row>, x: nat)
    requires x < |rows| && forall k :: 0 <= k < |rows| ==> !SelfParent(rows, k)
    ensures Anchored(rows, x)
  {
    assert !SelfParent(rows, x);
    if Parent(rows, x).Some? {
      AllAnchored(rows, Parent(rows, x).value);
    }
  }

  /** A row is its own parent exactly when it names its own id, something a caller can check in the rows. */
  lemma {:induction false} SelfParentIff(rows: seq<Row>, k: nat)
    requires k < |rows|
    ensures SelfParent(rows, k) <==> rows[k].parent == Some(rows[k].id)
  {
  }

  /** Every row appears exactly once if and only if no row names itself as its parent. */
  lemma {:induction false} EveryRowOnce(rows: seq<Row>)
    ensures (forall x :: 0 <= x < |rows| ==> Appearances(rows, x) == 1)
            <==> (forall k :: 0 <= k < |rows| ==> rows[k].parent != Some(rows[k].id))
  {
    forall x | 0 <= x < |rows|
      ensures Appearances(rows, x) == if Anchored(rows, x) then 1 else 0
      ensures SelfParent(rows, x) <==> rows[x].parent == Some(rows[x].id)
    {
      ShownIffAnchored(rows, x);
      SelfParentIff(rows, x);
    }
    if forall k :: 0 <= k < |rows| ==> rows[k].parent != Some(rows[k].id) {
      forall x | 0 <= x < |rows| ensures Appearances(rows, x) == 1 {
        AllAnchored(rows, x);
      }
    } else {
      var k :| 0 <= k < |rows| && rows[k].parent == Some(rows[k].id);
      assert !Anchored(rows, k) && Appearances(rows, k) == 0;
    }
  }

  /** A row that names itself as its parent is dropped, with everything below it. */
  lemma {:induction false} SelfParentVanishes()
    ensures Forest([Row(7, Some(7)), Row(8, Some(7))]) == []
  {
    var rows := [Row(7, Some(7)), Row(8, Some(7))];
    assert Parent(rows, 0) == Some(0);
    assert Parent(rows, 1) == Some(0) by { assert Latest(rows, 7, 1) == Some(0); }
    assert Under(rows, None, 0) == [] && Under(rows, None, 1) == [] && Under(rows, None, 2) == [];
    RootsFreezable(rows);
  }

  // ---------------------------------------------------------------- the code: mutable nodes, then freezing

  class Node {
    const row: nat
    var children: seq<Node>

    constructor (row: nat)
      ensures this.row == row && children == []
    {
      this.row, children := row, [];
    }
  }

  /** The nodes at these row indices. */
  ghost predicate Lists(nodes: seq<Node>, made: seq<Node>, list: seq<nat>) {
    |nodes| == |list| && forall m :: 0 <= m < |list| ==> list[m] < |made| && nodes[m] == made[list[m]]
  }

  /** After n rows: the children of each node made so far. */
  ghost predicate Listed(rows: seq<Row>, made: seq<Node>, kids: seq<seq<Node>>, n: nat)
    requires n <= |rows|
  {
    |made| == |kids| == n && forall k :: 0 <= k < n ==> Lists(kids[k], made, Under(rows, Some(k), n))
  }

  ghost function Kids(made: seq<Node>): seq<seq<Node>> reads made {
    seq(|made|, k requires 0 <= k < |made| reads made => made[k].children)
  }

  ghost predicate Numbered(made: seq<Node>) { forall k :: 0 <= k < |made| ==> made[k].row == k }

  ghost predicate Built(rows: seq<Row>, made: seq<Node>, n: nat)
    requires n <= |rows|
    reads made
  {
    Numbered(made) && Listed(rows, made, Kids(made), n)
  }

  /** The map holds the latest node of every id. */
  ghost predicate Mapped(rows: seq<Row>, made: seq<Node>, nodes: map<nat, Node>, n: nat)
    requires n <= |rows| && |made| == n
  {
    forall id ::
      if Latest(rows, id, n).Some? then id in nodes && nodes[id] == made[Latest(rows, id, n).value] else id !in nodes
  }

  lemma {:induction false} ListsGrow(nodes: seq<Node>, made: seq<Node>, list: seq<nat>, node: Node)
    requires Lists(nodes, made, list)
    ensures Lists(nodes, made + [node], list)
    ensures Lists(nodes + [node], made + [node], list + [|made|])
  {
  }

  lemma {:induction false} MappedGrows(rows: seq<Row>, made: seq<Node>, nodes: map<nat, Node>, n: nat, node: Node)
    requires n < |rows| && |made| == n && Mapped(rows, made, nodes, n)
    ensures Mapped(rows, made + [node], nodes[rows[n].id := node], n + 1)
  {
  }

  lemma {:induction false} NoneYet(rows: seq<Row>, k: nat, n: nat)
    requires n <= k && n <= |rows|
    ensures Under(rows, Some(k), n) == []
  {
    if n > 0 { NoneYet(rows, k, n - 1); }
  }

  /** The children lists once row n has its node and its place. */
  ghost function Placed(rows: seq<Row>, kids: seq<seq<Node>>, n: nat, node: Node): seq<seq<Node>>
    requires n < |rows| && |kids| == n
  {
    var more := kids + [[]];
    if Parent(rows, n).None? then more else more[Parent(rows, n).value := more[Parent(rows, n).value] + [node]]
  }

  lemma {:induction false} PlacedListed(rows: seq<Row>, made: seq<Node>, kids: seq<seq<Node>>, n: nat, node: Node)
    requires n < |rows| && Listed(rows, made, kids, n)
    ensures Listed(rows, made + [node], Placed(rows, kids, n, node), n + 1)
  {
    var all := made + [node];
    var after := Placed(rows, kids, n, node);
    forall k | 0 <= k < n + 1 ensures Lists(after[k], all, Under(rows, Some(k), n + 1)) {
      NoneYet(rows, n, n);
      ListsGrow((kids + [[]])[k], made, Under(rows, Some(k), n), node);
    }
  }

  /** One row: its node is registered, then attached to its parent or to the roots. */
  method Attach(rows: seq<Row>, ghost made: seq<Node>, nodes: map<nat, Node>, roots: seq<Node>, n: nat)
    returns (nodes': map<nat, Node>, roots': seq<Node>, node: Node)
    requires n < |rows| && |made| == n && Numbered(made) && Mapped(rows, made, nodes, n)
    modifies made
    ensures fresh(node) && Numbered(made + [node]) && Mapped(rows, made + [node], nodes', n + 1)
    ensures roots' == if Parent(rows, n).None? then roots + [node] else roots
    ensures Kids(made + [node]) == Placed(rows, old(Kids(made)), n, node)
  {
    node := new Node(n);
    nodes' := nodes[rows[n].id := node];
    MappedGrows(rows, made, nodes, n, node);
    ghost var all := made + [node];
    roots' := roots;
    if rows[n].parent.None? || rows[n].parent.value !in nodes' {
      roots' := roots + [node];
    } else {
      assert nodes'[rows[n].parent.value] == all[Parent(rows, n).value];
      var parent := nodes'[rows[n].parent.value];
      parent.children := parent.children + [node];
    }
  }

  /** mapSubagentTree, up to the freezing of its roots. */
  method Build(rows: seq<Row>) returns (roots: seq<Node>, ghost made: seq<Node>)
    ensures Built(rows, made, |rows|) && Lists(roots, made, Under(rows, None, |rows|))
  {
    var nodes: map<nat, Node> := map[];
    roots, made := [], [];
    for n := 0 to |rows|
      invariant Built(rows, made, n) && Lists(roots, made, Under(rows, None, n)) && Mapped(rows, made, nodes, n)
      invariant forall k :: 0 <= k < |made| ==> fresh(made[k])
    {
      var node;
      nodes, roots, node := Grow(rows, made, nodes, roots, n);
      made := made + [node];
    }
  }

  /** The loop body: attach one row and keep what is built. */
  method Grow(rows: seq<Row>, ghost made: seq<Node>, nodes: map<nat, Node>, roots: seq<Node>, n: nat)
    returns (nodes': map<nat, Node>, roots': seq<Node>, node: Node)
    requires n < |rows| && Built(rows, made, n) && Lists(roots, made, Under(rows, None, n))
    requires Mapped(rows, made, nodes, n)
    modifies made
    ensures fresh(node) && Built(rows, made + [node], n + 1)
    ensures Lists(roots', made + [node], Under(rows, None, n + 1)) && Mapped(rows, made + [node], nodes', n + 1)
  {
    ghost var kids := Kids(made);
    nodes', roots', node := Attach(rows, made, nodes, roots, n);
    BuiltGrows(rows, made, kids, n, node);
    RootsGrow(rows, made, roots, n, node);
  }

  lemma {:induction false} BuiltGrows(rows: seq<Row>, made: seq<Node>, kids: seq<seq<Node>>, n: nat, node: Node)
    requires n < |rows| && Listed(rows, made, kids, n) && Numbered(made + [node])
    requires Kids(made + [node]) == Placed(rows, kids, n, node)
    ensures Built(rows, made + [node], n + 1)
  {
    PlacedListed(rows, made, kids, n, node);
  }

  lemma {:induction false} RootsGrow(rows: seq<Row>, made: seq<Node>, roots: seq<Node>, n: nat, node: Node)
    requires n < |rows| && |made| == n && Lists(roots, made, Under(rows, None, n))
    ensures Lists(if Parent(rows, n).None? then roots + [node] else roots, made + [node], Under(rows, None, n + 1))
  {
    ListsGrow(roots, made, Under(rows, None, n), node);
  }

  lemma {:induction false} BuiltNode(rows: seq<Row>, made: seq<Node>, nodes: seq<Node>, list: seq<nat>, m: nat)
    requires Built(rows, made, |rows|) && Lists(nodes, made, list) && m < |list| && list[m] < |rows|
    ensures |nodes| == |list| && nodes[m].row == list[m]
    ensures Lists(nodes[m].children, made, Under(rows, Some(list[m]), |rows|))
  {
    assert Kids(made)[list[m]] == made[list[m]].children;
  }

  /** freezeSubagentNodes: the recursion ends because a child's row comes after its parent's. */
  method Freeze(rows: seq<Row>, ghost made: seq<Node>, nodes: seq<Node>, ghost list: seq<nat>, ghost above: int)
    returns (out: seq<Tree>)
    requires Built(rows, made, |rows|) && Lists(nodes, made, list)
    requires -1 <= above < |rows| && Freezable(rows, list, above)
    ensures out == FrozenAll(rows, list, above)
    decreases |rows| - above
  {
    out := [];
    for m := 0 to |nodes|
      invariant out == FrozenAll(rows, list[..m], above)
    {
      ghost var i := list[m];
      ChildrenFreezable(rows, i);
      BuiltNode(rows, made, nodes, list, m);
      var below := Freeze(rows, made, nodes[m].children, Under(rows, Some(i), |rows|), i);
      out := out + [Tree(nodes[m].row, below)];
      assert list[..m + 1][..m] == list[..m];
    }
    assert list[..|nodes|] == list;
  }

  /** mapSubagentTree */
  method MapSubagentTree(rows: seq<Row>) returns (out: seq<Tree>)
    ensures out == Forest(rows)
  {
    if |rows| == 0 { return []; }
    RootsFreezable(rows);
    var roots, made := Build(rows);
    out := Freeze(rows, made, roots, Under(rows, None, |rows|), -1);
  }
}
