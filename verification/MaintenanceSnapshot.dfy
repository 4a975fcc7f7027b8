/**
  The conversation snapshot that maintenance must find after a reviewed restoration: the
  snapshot from before, but for the one restored ledger and its new sidecars.
 */
module MaintenanceSnapshot {
  import opened Common

  datatype Kind = ConversationFile | SidecarFile

  datatype Row = Row(name: string, kind: Kind, digest: string, uncertainSend: bool, unresolved: nat)

  // `proper`: a plain file name and a well-formed digest.
  datatype Sidecar = Sidecar(name: string, digest: string, proper: bool)

  datatype Restoration = Restoration(target: string, before: string, after: string, sidecars: seq<Sidecar>)

  function Find(rows: seq<Row>, name: string): (r: Option<Row>)
    ensures r.Some? ==> r.value in rows && r.value.name == name
    ensures r.None? ==> forall row <- rows :: row.name != name
  {
    if rows == [] then None else if rows[0].name == name then Some(rows[0]) else Find(rows[1..], name)
  }

  // The ledger to restore is there, settled, and what the plan was reviewed for.
  predicate SourceHolds(rows: seq<Row>, p: Restoration) {
    var original := Find(rows, p.target);
    && original.Some? && original.value.kind == ConversationFile && original.value.digest == p.before
    && !original.value.uncertainSend && original.value.unresolved == 0
  }

  function Retarget(row: Row, p: Restoration): Row {
    if row.name == p.target then row.(digest := p.after) else row
  }

  function Retargeted(rows: seq<Row>, p: Restoration): (r: seq<Row>)
    ensures |r| == |rows| && forall i :: 0 <= i < |r| ==> r[i] == Retarget(rows[i], p)
  {
    if rows == [] then [] else [Retarget(rows[0], p)] + Retargeted(rows[1..], p)
  }

  function SidecarRow(s: Sidecar): Row {
    Row(s.name, SidecarFile, s.digest, false, 0)
  }

  // A sidecar may join: it is proper, and a row of its name is the same sidecar.
  predicate Joins(rows: seq<Row>, s: Sidecar) {
    var existing := Find(rows, s.name);
    s.proper && (existing.Some? ==> existing.value.kind == SidecarFile && existing.value.digest == s.digest)
  }

  // The rows with the first `k` sidecars.
  function Joined(rows: seq<Row>, sidecars: seq<Sidecar>, k: nat): Option<seq<Row>>
    requires k <= |sidecars|
  {
    if k == 0 then Some(rows)
    else match Joined(rows, sidecars, k - 1)
      case None => None
      case Some(more) =>
        var s := sidecars[k - 1];
        if !Joins(more, s) then None
        else Some(if Find(more, s.name).Some? then more else more + [SidecarRow(s)])
  }

  // ----- sorting by name -------------------------------------------------------------------

  // Strictly before, character by character.
  predicate Below(a: string, b: string) {
    if b == "" then false
    else if a == "" then true
    else a[0] < b[0] || (a[0] == b[0] && Below(a[1..], b[1..]))
  }

  lemma {:induction false} BelowOneWay(a: string, b: string)
    requires Below(a, b)
    ensures !Below(b, a)
  {
    if a != "" && a[0] == b[0] {
      BelowOneWay(a[1..], b[1..]);
    }
  }

  predicate Sorted(rows: seq<Row>) {
    forall i :: 0 < i < |rows| ==> !Below(rows[i].name, rows[i - 1].name)
  }

  function Insert(row: Row, rows: seq<Row>): (r: seq<Row>)
    ensures multiset(r) == multiset(rows) + multiset{row}
    ensures r[0] == row || (rows != [] && r[0] == rows[0])
  {
    if rows == [] then [row]
    else if Below(row.name, rows[0].name) then [row] + rows
    else
      assert rows == [rows[0]] + rows[1..];
      [rows[0]] + Insert(row, rows[1..])
  }

  lemma {:induction false} InsertKeepsSorted(row: Row, rows: seq<Row>)
    requires Sorted(rows)
    ensures Sorted(Insert(row, rows))
  {
    if rows != [] {
      if Below(row.name, rows[0].name) {
        BelowOneWay(row.name, rows[0].name);
      } else {
        assert forall i :: 0 < i < |rows[1..]| ==> rows[1..][i] == rows[i + 1] && rows[1..][i - 1] == rows[i];
        InsertKeepsSorted(row, rows[1..]);
      }
    }
  }

  function SortByName(rows: seq<Row>): (r: seq<Row>)
    ensures multiset(r) == multiset(rows) && Sorted(r)
  {
    if rows == [] then []
    else
      var rest := SortByName(rows[1..]);
      InsertKeepsSorted(rows[0], rest);
      assert rows == [rows[0]] + rows[1..];
      Insert(rows[0], rest)
  }

  // ----- the program -------------------------------------------------------------------------

  lemma {:induction false} RefusalStays(rows: seq<Row>, sidecars: seq<Sidecar>, k: nat, n: nat)
    requires k <= n <= |sidecars| && Joined(rows, sidecars, k).None?
    ensures Joined(rows, sidecars, n).None?
    decreases n
  {
    if k < n {
      RefusalStays(rows, sidecars, k, n - 1);
    }
  }

  method RetargetAll(snapshot: seq<Row>, p: Restoration) returns (expected: seq<Row>)
    ensures expected == Retargeted(snapshot, p)
  {
    expected := [];
    for i := 0 to |snapshot|
      invariant |expected| == i && forall j :: 0 <= j < i ==> expected[j] == Retarget(snapshot[j], p)
    {
      expected := expected + [if snapshot[i].name == p.target then snapshot[i].(digest := p.after) else snapshot[i]];
    }
  }

  method RestoredSnapshot(snapshot: seq<Row>, p: Restoration) returns (r: Option<seq<Row>>)
    ensures r.Some? <==> SourceHolds(snapshot, p) && Joined(Retargeted(snapshot, p), p.sidecars, |p.sidecars|).Some?
    ensures r.Some? ==> Sorted(r.value) && multiset(r.value) == multiset(Joined(Retargeted(snapshot, p), p.sidecars, |p.sidecars|).value)
  {
    hide SourceHolds, Retargeted, Sorted, Joined;
    if !SourceHolds(snapshot, p) { return None; }
    var expected := RetargetAll(snapshot, p);
    var joined := JoinAll(expected, p.sidecars);
    if joined.None? { return None; }
    r := Some(SortByName(joined.value));
  }

  lemma JoinedNothing(rows: seq<Row>, sidecars: seq<Sidecar>)
    ensures Joined(rows, sidecars, 0) == Some(rows)
  {
  }

  lemma JoinedOneMore(rows: seq<Row>, sidecars: seq<Sidecar>, k: nat, more: seq<Row>)
    requires k < |sidecars| && Joined(rows, sidecars, k) == Some(more)
    ensures Joined(rows, sidecars, k + 1)
         == if !Joins(more, sidecars[k]) then None
            else if Find(more, sidecars[k].name).Some? then Some(more)
            else Some(more + [SidecarRow(sidecars[k])])
  {
  }

  method JoinAll(rows: seq<Row>, sidecars: seq<Sidecar>) returns (r: Option<seq<Row>>)
    ensures r == Joined(rows, sidecars, |sidecars|)
  {
    hide Joined, Find, SidecarRow;
    var expected := rows;
    JoinedNothing(rows, sidecars);
    for k := 0 to |sidecars|
      invariant Joined(rows, sidecars, k) == Some(expected)
    {
      JoinedOneMore(rows, sidecars, k, expected);
      var sidecar := sidecars[k];
      var existing := Find(expected, sidecar.name);
      if !sidecar.proper || (existing.Some? && (existing.value.kind != SidecarFile || existing.value.digest != sidecar.digest)) {
        RefusalStays(rows, sidecars, k + 1, |sidecars|);
        return None;
      }
      if existing.None? { expected := expected + [SidecarRow(sidecar)]; }
    }
    r := Some(expected);
  }

  // ----- what may differ -----------------------------------------------------------------------

  predicate Expected(rows: seq<Row>, sidecars: seq<Sidecar>, k: nat, row: Row)
    requires k <= |sidecars|
  {
    row in rows || ((forall x <- rows :: x.name != row.name) && exists j :: 0 <= j < k && row == SidecarRow(sidecars[j]))
  }

  lemma {:induction false} JoinedIsExact(rows: seq<Row>, sidecars: seq<Sidecar>, k: nat)
    requires k <= |sidecars| && Joined(rows, sidecars, k).Some?
    ensures var more := Joined(rows, sidecars, k).value;
            && (forall row <- more :: Expected(rows, sidecars, k, row))
            && (forall row <- rows :: row in more)
            && (forall j :: 0 <= j < k ==> exists row <- more :: row.name == sidecars[j].name && row.kind == SidecarFile && row.digest == sidecars[j].digest)
  {
    if k > 0 {
      JoinedIsExact(rows, sidecars, k - 1);
      var before, more := Joined(rows, sidecars, k - 1).value, Joined(rows, sidecars, k).value;
      assert forall row <- before :: row in more;
      if Find(before, sidecars[k - 1].name).None? {
        assert more[|before|] == SidecarRow(sidecars[k - 1]);
      }
    }
  }

  // After a reviewed restoration exactly the target's digest may differ, and exactly the
  // expected sidecars may be new; nothing disappears.
  lemma OnlyReviewedDiffers(snapshot: seq<Row>, p: Restoration, r: seq<Row>)
    requires Joined(Retargeted(snapshot, p), p.sidecars, |p.sidecars|).Some?
    requires multiset(r) == multiset(Joined(Retargeted(snapshot, p), p.sidecars, |p.sidecars|).value)
    ensures forall row <- snapshot :: Retarget(row, p) in r
    ensures forall row <- r :: (exists x <- snapshot :: row == Retarget(x, p))
                               || ((forall x <- snapshot :: x.name != row.name) && exists s <- p.sidecars :: row == SidecarRow(s))
  {
    var rows := Retargeted(snapshot, p);
    var more := Joined(rows, p.sidecars, |p.sidecars|).value;
    JoinedIsExact(rows, p.sidecars, |p.sidecars|);
    forall row | row in snapshot ensures Retarget(row, p) in r {
      var i :| 0 <= i < |snapshot| && snapshot[i] == row;
      assert rows[i] in more;
      assert rows[i] in multiset(more);
    }
    forall row | row in r
      ensures (exists x <- snapshot :: row == Retarget(x, p))
              || ((forall x <- snapshot :: x.name != row.name) && exists s <- p.sidecars :: row == SidecarRow(s))
    {
      assert row in multiset(r) && row in more;
      assert Expected(rows, p.sidecars, |p.sidecars|, row);
      if row in rows {
        var i :| 0 <= i < |rows| && rows[i] == row;
        assert snapshot[i] in snapshot && row == Retarget(snapshot[i], p);
      } else {
        forall x | x in snapshot ensures x.name != row.name {
          var i :| 0 <= i < |snapshot| && snapshot[i] == x;
          assert rows[i] in rows && rows[i].name == x.name;
        }
      }
    }
  }
}
