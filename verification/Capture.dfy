/** The daemon's durable capture: the SQLite WAL (internal/daemon/capture_wal.go), the publisher that waits
    for the server's ack (internal/daemon/ws_publisher.go) and the pass that ties them together
    (internal/daemon/capture.go, scanAndPublishWithWAL). */
module Capture {
  import opened Common

  const DEFAULT_LIST_LIMIT: nat := 100

  // ---------------------------------------------------------------- the table

  /** 0, "" and 0 stand for the nil session id, the empty type and the zero time. */
  datatype Event = Event(session: nat, kind: string, occurredAt: nat, payload: string) {
    predicate HasKey() { session != 0 && kind != "" && occurredAt != 0 }
  }

  datatype Row = Row(id: nat, event: Event, sent: bool)

  datatype Table = Table(rows: seq<Row>, nextId: nat)

  ghost predicate Holds(rows: seq<Row>, e: Event) {
    exists i :: 0 <= i < |rows| && rows[i].event == e
  }

  /** Ids grow from 1, and the unique event key admits each event once. */
  ghost predicate TableOk(t: Table) {
    && t.nextId >= 1
    && (forall i :: 0 <= i < |t.rows| ==> 1 <= t.rows[i].id < t.nextId)
    && (forall i, j :: 0 <= i < j < |t.rows| ==> t.rows[i].id < t.rows[j].id && t.rows[i].event != t.rows[j].event)
  }

  /** INSERT OR IGNORE on the event key. */
  ghost function Appended(t: Table, e: Event): Table {
    if Holds(t.rows, e) then t else Table(t.rows + [Row(t.nextId, e, false)], t.nextId + 1)
  }

  ghost function AppendedAll(t: Table, es: seq<Event>): Table {
    if es == [] then t else Appended(AppendedAll(t, es[..|es| - 1]), es[|es| - 1])
  }

  function Unsent(rows: seq<Row>): seq<Row> {
    if rows == [] then [] else (if rows[0].sent then [] else [rows[0]]) + Unsent(rows[1..])
  }

  function Marked(rows: seq<Row>, id: nat): seq<Row> {
    seq(|rows|, i requires 0 <= i < |rows| => if rows[i].id == id then rows[i].(sent := true) else rows[i])
  }

  function Take<T>(s: seq<T>, n: nat): seq<T> {
    if |s| <= n then s else s[..n]
  }

  lemma {:induction false} UnsentSpec(rows: seq<Row>)
    ensures forall r :: r in Unsent(rows) <==> r in rows && !r.sent
    ensures (forall i, j :: 0 <= i < j < |rows| ==> rows[i].id < rows[j].id)
            ==> forall i, j :: 0 <= i < j < |Unsent(rows)| ==> Unsent(rows)[i].id < Unsent(rows)[j].id
  {
    if rows != [] {
      UnsentSpec(rows[1..]);
      var rest := Unsent(rows[1..]);
      assert rows == [rows[0]] + rows[1..];
      forall i | 0 <= i < |rest| ensures rest[i] in rows[1..] { assert rest[i] in rest; }
    }
  }

  lemma {:induction false} UnsentAppend(rows: seq<Row>, more: seq<Row>)
    ensures Unsent(rows + more) == Unsent(rows) + Unsent(more)
  {
    if rows == [] {
      assert rows + more == more;
    } else {
      UnsentAppend(rows[1..], more);
      assert (rows + more)[1..] == rows[1..] + more;
      Regroup(if rows[0].sent then [] else [rows[0]], Unsent(rows[1..]), Unsent(more));
    }
  }

  class CaptureWAL {
    var rows: seq<Row>
    var nextId: nat

    ghost function Contents(): Table reads this { Table(rows, nextId) }

    ghost predicate Valid() reads this { TableOk(Contents()) }

    constructor ()
      ensures Valid() && Contents() == Table([], 1)
    {
      rows, nextId := [], 1;
    }

    method Find(e: Event) returns (found: Option<nat>)
      ensures found.None? <==> !Holds(rows, e)
      ensures found.Some? ==> found.value < |rows| && rows[found.value].event == e
    {
      for i := 0 to |rows|
        invariant forall j :: 0 <= j < i ==> rows[j].event != e
      {
        if rows[i].event == e { return Some(i); }
      }
      found := None;
    }

    /** Appending an event again adds no row and changes none; it returns the original row. */
    method Append(e: Event, insert: Outcome) returns (entry: Option<Row>)
      requires Valid()
      modifies this
      ensures Valid()
      ensures Contents() == if e.HasKey() && insert.TookEffect() then Appended(old(Contents()), e) else old(Contents())
      ensures entry.Some? <==> e.HasKey() && insert.Ok?
      ensures entry.Some? ==> entry.value in rows && entry.value.event == e
      ensures entry.Some? && Holds(old(rows), e) ==> entry.value in old(rows)
    {
      if !e.HasKey() { return None; }
      var found := Find(e);
      if insert.TookEffect() && found.None? {
        rows, nextId := rows + [Row(nextId, e, false)], nextId + 1;
        assert rows[|rows| - 1].event == e;
      }
      if !insert.Ok? { return None; }
      var at := Find(e);
      entry := Some(rows[at.value]);
    }

    /** Appends in order and stops at the first error; `durable` counts the events that took effect. */
    method AppendBatch(events: seq<Event>, inserts: seq<Outcome>) returns (ok: bool, durable: nat)
      requires Valid() && |inserts| == |events|
      modifies this
      ensures Valid() && durable <= |events|
      ensures Contents() == AppendedAll(old(Contents()), events[..durable])
      ensures ok ==> durable == |events|
      ensures ok <==> forall i :: 0 <= i < |events| ==> events[i].HasKey() && inserts[i].Ok?
    {
      durable := 0;
      while durable < |events|
        invariant Valid() && durable <= |events|
        invariant Contents() == AppendedAll(old(Contents()), events[..durable])
        invariant forall i :: 0 <= i < durable ==> events[i].HasKey() && inserts[i].Ok?
      {
        assert events[..durable + 1][..durable] == events[..durable];
        var entry := Append(events[durable], inserts[durable]);
        if entry.None? {
          if events[durable].HasKey() && inserts[durable].TookEffect() { durable := durable + 1; }
          return false, durable;
        }
        durable := durable + 1;
      }
      ok := true;
    }

    /** The oldest unsent rows, at most `limit` of them (100 when the limit is not positive). */
    method ListUnsent(limit: int) returns (out: seq<Row>)
      ensures out == Take(Unsent(rows), if limit <= 0 then DEFAULT_LIST_LIMIT else limit)
    {
      var n := if limit <= 0 then DEFAULT_LIST_LIMIT else limit;
      out := [];
      var i := 0;
      while i < |rows| && |out| < n
        invariant 0 <= i <= |rows| && |out| <= n
        invariant out == Unsent(rows[..i])
      {
        UnsentAppend(rows[..i], [rows[i]]);
        assert rows[..i + 1] == rows[..i] + [rows[i]];
        if !rows[i].sent { out := out + [rows[i]]; }
        i := i + 1;
      }
      assert rows == rows[..i] + rows[i..];
      UnsentAppend(rows[..i], rows[i..]);
    }

    /** One transaction over the given ids; an invalid id or a failed commit rolls everything back. */
    method MarkSent(ids: seq<int>, commit: Outcome) returns (ok: bool)
      requires Valid()
      modifies this`rows
      ensures Valid()
      ensures var valid := forall i :: 0 <= i < |ids| ==> ids[i] > 0;
              && ok == (ids == [] || (valid && commit.Ok?))
              && |rows| == |old(rows)|
              && forall k :: 0 <= k < |rows| ==>
                   rows[k] == if valid && commit.TookEffect() && old(rows)[k].id in ids
                              then old(rows)[k].(sent := true) else old(rows)[k]
    {
      if ids == [] { return true; }
      var after := rows;
      for i := 0 to |ids|
        invariant |after| == |rows| && rows == old(rows)
        invariant forall j :: 0 <= j < i ==> ids[j] > 0
        invariant forall k :: 0 <= k < |rows| ==>
                  after[k] == if rows[k].id in ids[..i] then rows[k].(sent := true) else rows[k]
      {
        if ids[i] <= 0 { return false; }
        after := Marked(after, ids[i]);
      }
      assert ids[..|ids|] == ids;
      if commit.TookEffect() { rows := after; }
      ok := commit.Ok?;
    }
  }

  // ---------------------------------------------------------------- publish and wait for the ack

  /** A frame the publisher reads while it waits. Ping carries whether its pong could be written. */
  datatype Frame = BinaryFrame | Undecodable | Ping(pongSent: bool) | Ack(msg: nat, ok: bool) | OtherType

  predicate Skipped(f: Frame, msg: nat) {
    f == Ping(true) || f.OtherType? || (f.Ack? && f.msg != msg)
  }

  ghost predicate AckedAt(frames: seq<Frame>, msg: nat, i: nat) {
    i < |frames| && frames[i] == Ack(msg, true) && forall j :: 0 <= j < i ==> Skipped(frames[j], msg)
  }

  /** waitAck succeeds exactly when the first frame it may not skip is the ok ack of this message. */
  method WaitAck(frames: seq<Frame>, msg: nat) returns (ok: bool)
    ensures ok <==> exists i: nat :: AckedAt(frames, msg, i)
  {
    for i := 0 to |frames|
      invariant forall j :: 0 <= j < i ==> Skipped(frames[j], msg)
    {
      match frames[i] {
        case Ping(pongSent) => if !pongSent { return false; }
        case Ack(m, accepted) =>
          if m == msg {
            assert accepted ==> AckedAt(frames, msg, i);
            return accepted;
          }
        case OtherType =>
        case _ => return false;
      }
    }
    ok := false;
  }

  /** One publish attempt under a freshly minted message id, and the mark after it. */
  datatype Try = Try(msg: nat, dialed: bool, written: bool, frames: seq<Frame>, mark: Outcome) {
    ghost predicate Confirmed() {
      dialed && written && exists i: nat :: AckedAt(frames, msg, i)
    }
  }

  // ---------------------------------------------------------------- one pass

  /** Row `row` was published under message id `msg`. Whether and when the server adds it is the server's affair. */
  datatype Published = Published(row: nat, msg: nat)

  /** The WAL, the attempts so far in the order the daemon made them, and the messages confirmed by an ack. */
  datatype World = World(table: Table, log: seq<Published>, confirmed: set<nat>)

  ghost function Attempt(w: World, row: nat, t: Try): World {
    World(if t.Confirmed() && t.mark.TookEffect() then w.table.(rows := Marked(w.table.rows, row)) else w.table,
          w.log + [Published(row, t.msg)],
          if t.Confirmed() then w.confirmed + {t.msg} else w.confirmed)
  }

  /** The publish loop: rows in order, until one is not both confirmed and marked. */
  ghost function Delivered(w: World, todo: seq<Row>, tries: seq<Try>): World
    decreases |todo|
  {
    if todo == [] || tries == [] then w
    else
      var after := Attempt(w, todo[0].id, tries[0]);
      if tries[0].Confirmed() && tries[0].mark.Ok? then Delivered(after, todo[1..], tries[1..]) else after
  }

  /** What one pass meets: the scanned events of which `durable` reach the table, and the attempts. A crash
      anywhere in the pass is an append that does not finish or a list of attempts that ends early. */
  datatype Pass = Pass(events: seq<Event>, durable: nat, appendOk: bool, limit: nat, tries: seq<Try>)

  ghost function AfterPass(w: World, p: Pass): World
    requires p.durable <= |p.events|
  {
    var w1 := w.(table := AppendedAll(w.table, p.events[..p.durable]));
    if p.appendOk then Delivered(w1, Take(Unsent(w1.table.rows), p.limit), p.tries) else w1
  }

  /** Publish one entry, wait for its ack, then mark it sent. */
  method PublishOne(wal: CaptureWAL, id: nat, t: Try, ghost w: World) returns (ok: bool, ghost after: World)
    requires wal.Valid() && wal.Contents() == w.table && id > 0
    modifies wal`rows
    ensures wal.Valid() && wal.Contents() == after.table
    ensures after == Attempt(w, id, t)
    ensures ok <==> t.Confirmed() && t.mark.Ok?
  {
    after := Attempt(w, id, t);
    ok := false;
    if t.dialed && t.written { ok := WaitAck(t.frames, t.msg); }
    if ok {
      ok := wal.MarkSent([id], t.mark);
      assert wal.rows == after.table.rows;
    }
  }

  /** The loop of scanAndPublishWithWAL over the listed entries: one publish at a time, in order. */
  method PublishEntries(wal: CaptureWAL, entries: seq<Row>, tries: seq<Try>, ghost w: World)
    returns (sent: nat, ghost after: World)
    requires wal.Valid() && wal.Contents() == w.table
    requires |tries| >= |entries| && forall i :: 0 <= i < |entries| ==> entries[i].id > 0
    modifies wal`rows
    ensures wal.Valid() && wal.Contents() == after.table
    ensures after == Delivered(w, entries, tries)
    ensures sent <= |entries|
  {
    sent, after := 0, w;
    while sent < |entries|
      invariant wal.Valid() && wal.Contents() == after.table
      invariant sent <= |entries|
      invariant Delivered(w, entries, tries) == Delivered(after, entries[sent..], tries[sent..])
    {
      ghost var before := after;
      var ok: bool;
      ok, after := PublishOne(wal, entries[sent].id, tries[sent], before);
      assert entries[sent..][1..] == entries[sent + 1..] && tries[sent..][1..] == tries[sent + 1..];
      if !ok { return; }
      sent := sent + 1;
    }
  }

  /** scanAndPublishWithWAL with `events` as the scan's result: append, list, publish. */
  method ScanAndPublish(wal: CaptureWAL, paused: bool, events: seq<Event>, inserts: seq<Outcome>, limit: int,
                        tries: seq<Try>, ghost w: World)
    returns (sent: nat, ghost after: World, ghost p: Pass)
    requires wal.Valid() && wal.Contents() == w.table
    requires |inserts| == |events| && |tries| >= |wal.rows| + |events|
    modifies wal
    ensures wal.Valid() && wal.Contents() == after.table
    ensures paused ==> after == w
    ensures p.durable <= |p.events| && p.tries == tries
    ensures !paused ==> p.events == events && after == AfterPass(w, p)
  {
    sent, after := 0, w;
    var n := if limit <= 0 then DEFAULT_LIST_LIMIT else limit;
    p := Pass(events, 0, false, n, tries);
    if paused { return; }
    var ok, durable := wal.AppendBatch(events, inserts);
    p := Pass(events, durable, ok, n, tries);
    after := w.(table := wal.Contents());
    if !ok { return; }
    var entries := wal.ListUnsent(limit);
    UnsentLength(wal.rows);
    AppendedLength(w.table, events);
    assert events[..durable] == events;
    PositiveIds(wal.Contents(), entries);
    sent, after := PublishEntries(wal, entries, tries, after);
  }

  lemma {:induction false} AppendedLength(t: Table, es: seq<Event>)
    ensures |AppendedAll(t, es).rows| <= |t.rows| + |es|
  {
    if es != [] { AppendedLength(t, es[..|es| - 1]); }
  }

  lemma {:induction false} PositiveIds(t: Table, entries: seq<Row>)
    requires TableOk(t) && entries <= Unsent(t.rows)
    ensures forall i :: 0 <= i < |entries| ==> entries[i].id > 0
  {
    UnsentSpec(t.rows);
    forall i | 0 <= i < |entries| ensures entries[i].id > 0 { assert entries[i] in Unsent(t.rows); }
  }

  lemma {:induction false} UnsentLength(rows: seq<Row>)
    ensures |Unsent(rows)| <= |rows|
  {
    if rows != [] { UnsentLength(rows[1..]); }
  }
}
