/** The sessions table (migrations/0001_initial.sql): a session may name a parent session, which must be there, and
    deleting a session deletes every session below it. */
module SessionTree {
  import opened Common

  /** A session row, never updated after its insertion: the two fields of the object key, the parent, and the rest. */
  datatype SessionRow = SessionRow(tenant: nat, month: nat, parent: Option<nat>, detail: nat)

  /** A session with its events, embedding, scores and outcomes. */
  datatype Session = Session(row: SessionRow, children: nat)

  type Table = map<nat, Session>

  /** Following parents from id leads to root. */
  predicate Below(m: Table, id: nat, root: nat)
    decreases m.Keys
  {
    id in m && (id == root || (m[id].row.parent.Some? && Below(m - {id}, m[id].row.parent.value, root)))
  }

  /** DELETE of one row under ON DELETE CASCADE. */
  function Without(m: Table, root: nat): Table {
    map id | id in m && !Below(m, id, root) :: m[id]
  }

  /** The foreign key: every parent is there. */
  predicate Linked(m: Table) {
    forall id :: id in m && m[id].row.parent.Some? ==> m[id].row.parent.value in m
  }

  predicate Within(m: Table, n: Table) {
    forall id :: id in m ==> id in n && n[id] == m[id]
  }

  lemma {:induction false} BelowGrows(m: Table, n: Table, id: nat, root: nat)
    requires Within(m, n) && Below(m, id, root)
    ensures Below(n, id, root)
    decreases m.Keys
  {
    if id != root { BelowGrows(m - {id}, n - {id}, m[id].row.parent.value, root); }
  }

  /** The way from id to root avoids y, or y is on it. */
  lemma {:induction false} AroundOrThrough(m: Table, id: nat, root: nat, y: nat)
    requires Below(m, id, root)
    ensures Below(m - {y}, id, root) || Below(m, y, root)
    decreases m.Keys
  {
    if id != root && id != y {
      AroundOrThrough(m - {id}, m[id].row.parent.value, root, y);
      assert m - {id} - {y} == m - {y} - {id};
      if Below(m - {id}, y, root) { BelowGrows(m - {id}, m, y, root); }
    }
  }

  /** What lies below root is root and whatever has its parent below root. */
  lemma {:induction false} BelowIff(m: Table, id: nat, root: nat)
    requires id in m
    ensures Below(m, id, root) <==>
              id == root || (m[id].row.parent.Some? && Below(m, m[id].row.parent.value, root))
  {
    if id != root && m[id].row.parent.Some? {
      var p := m[id].row.parent.value;
      if Below(m, p, root) { AroundOrThrough(m, p, root, id); }
      if Below(m - {id}, p, root) { BelowGrows(m - {id}, m, p, root); }
    }
  }

  /** And nothing else: it is the least set that holds root and, with a session, all its children. */
  lemma {:induction false} BelowIsLeast(m: Table, id: nat, root: nat, below: set<nat>)
    requires Below(m, id, root) && root in below
    requires forall y :: y in m && m[y].row.parent.Some? && m[y].row.parent.value in below ==> y in below
    ensures id in below
    decreases m.Keys
  {
    if id != root { BelowIsLeast(m - {id}, m[id].row.parent.value, root, below); }
  }

  lemma {:induction false} BelowTransitive(m: Table, x: nat, y: nat, z: nat)
    requires Below(m, x, y) && Below(m, y, z)
    ensures Below(m, x, z)
  {
    var below := set i | i in m && Below(m, i, z);
    forall i | i in m && m[i].row.parent.Some? && m[i].row.parent.value in below ensures i in below {
      BelowIff(m, i, z);
    }
    BelowIsLeast(m, x, y, below);
  }

  /** A deletion cuts whole branches: what remains lies below the same sessions as before. */
  lemma {:induction false} BelowAfterDelete(m: Table, root: nat, id: nat, top: nat)
    ensures Below(Without(m, root), id, top) <==> Below(m, id, top) && !Below(m, id, root)
  {
    var n := Without(m, root);
    if Below(n, id, top) { BelowGrows(n, m, id, top); }
    if Below(m, id, top) {
      var below := set i | i in m && (Below(m, i, root) || Below(n, i, top));
      forall i | i in m && m[i].row.parent.Some? && m[i].row.parent.value in below ensures i in below {
        BelowIff(m, i, root);
        if i in n { BelowIff(n, i, top); }
      }
      assert top in below by { TopIsThere(m, id, top); }
      BelowIsLeast(m, id, top, below);
    }
  }

  lemma {:induction false} TopIsThere(m: Table, id: nat, top: nat)
    requires Below(m, id, top)
    ensures top in m
    decreases m.Keys
  {
    if id != top { TopIsThere(m - {id}, m[id].row.parent.value, top); }
  }

  /** A deletion keeps the foreign key. */
  lemma {:induction false} DeleteKeepsLinks(m: Table, root: nat)
    requires Linked(m)
    ensures Linked(Without(m, root))
  {
    forall id | id in Without(m, root) && m[id].row.parent.Some? ensures m[id].row.parent.value in Without(m, root) {
      BelowIff(m, id, root);
    }
  }
}
