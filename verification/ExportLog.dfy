/** The export transition log: capped, appended to once per inverter, event and kind, and
    drained by acknowledgements. Instants are integers. */
module ExportLog {
  import opened Basics
  import opened Sequences

  const MAX_TOTAL := 1024
  const MAX_PER_INVERTER := 64
  const SNAPSHOT_PER_INVERTER := 8

  datatype Event = Event(exports: bool, start: int, end: int)

  datatype Kind = Accepted | Armed | Started | CleanupVerified | Aborted | ClockHold | Tripped

  datatype Row = Row(inverter: string, id: nat, event: Event, at: int, kind: Kind, acked: bool)

  type Rows = seq<Row>

  /** An acknowledged row whose event has ended is no longer needed. */
  predicate Needed(row: Row, now: int) {
    !(row.acked && row.event.end <= now)
  }

  function NeededAt(now: int): Row -> bool {
    (row: Row) => Needed(row, now)
  }

  predicate IsAcked(row: Row) {
    row.acked
  }

  predicate IsUnacked(row: Row) {
    !row.acked
  }

  function IsOf(inverter: string): Row -> bool {
    (row: Row) => row.inverter == inverter
  }

  function IsUnackedOf(inverter: string): Row -> bool {
    (row: Row) => row.inverter == inverter && !row.acked
  }

  function Pruned(rows: Rows, now: int): Rows {
    Only(rows, NeededAt(now))
  }

  function AckedRows(rows: Rows): Rows {
    Only(rows, IsAcked)
  }

  function Unacked(rows: Rows): Rows {
    Only(rows, IsUnacked)
  }

  function Of(rows: Rows, inverter: string): Rows {
    Only(rows, IsOf(inverter))
  }

  function UnackedOf(rows: Rows, inverter: string): Rows {
    Only(rows, IsUnackedOf(inverter))
  }

  /** The rows of one inverter, counting those about to be added. */
  function Load(rows: Rows, inverter: string, reserve: nat, target: Option<string>): nat {
    |Of(rows, inverter)| + if target == Some(inverter) then reserve else 0
  }

  predicate Full(rows: Rows, inverter: string, reserve: nat, target: Option<string>) {
    Load(rows, inverter, reserve, target) > MAX_PER_INVERTER
  }

  /** The first row, from k on, whose inverter is over its cap. */
  function FirstFull(rows: Rows, k: nat, reserve: nat, target: Option<string>): (i: nat)
    requires k <= |rows|
    ensures k <= i <= |rows|
    decreases |rows| - k
  {
    if k == |rows| || Full(rows, rows[k].inverter, reserve, target) then k
    else FirstFull(rows, k + 1, reserve, target)
  }

  lemma {:induction false} FirstFullIsFirst(rows: Rows, k: nat, reserve: nat, target: Option<string>)
    requires k <= |rows|
    ensures
      var i := FirstFull(rows, k, reserve, target);
      && (i < |rows| ==> Full(rows, rows[i].inverter, reserve, target))
      && forall j :: k <= j < i ==> !Full(rows, rows[j].inverter, reserve, target)
    decreases |rows| - k
  {
    if k < |rows| && !Full(rows, rows[k].inverter, reserve, target) {
      FirstFullIsFirst(rows, k + 1, reserve, target);
    }
  }

  function FirstAcked(rows: Rows, k: nat): (i: nat)
    requires k <= |rows|
    ensures k <= i <= |rows| && (i < |rows| ==> rows[i].acked)
    ensures forall j :: k <= j < i ==> !rows[j].acked
    decreases |rows| - k
  {
    if k == |rows| || rows[k].acked then k else FirstAcked(rows, k + 1)
  }

  predicate Within(rows: Rows, reserve: nat, target: Option<string>) {
    |rows| + reserve <= MAX_TOTAL && FirstFull(rows, 0, reserve, target) == |rows|
  }

  /** What to drop from an over-full log: the oldest acknowledged row, else the oldest row
      of the full inverter, else the oldest row. */
  function Victim(rows: Rows, reserve: nat, target: Option<string>): (i: nat)
    requires rows != [] && !Within(rows, reserve, target)
    ensures i < |rows|
  {
    var acked := FirstAcked(rows, 0);
    if acked < |rows| then acked
    else if |rows| + reserve > MAX_TOTAL then 0
    else FirstFull(rows, 0, reserve, target)
  }

  /** `dropped` counts the unacknowledged rows given up. */
  function Shrunk(rows: Rows, reserve: nat, target: Option<string>): (Rows, nat)
    requires reserve <= MAX_PER_INVERTER
    decreases |rows|
  {
    if Within(rows, reserve, target) then (rows, 0)
    else
      var i := Victim(rows, reserve, target);
      var (kept, dropped) := Shrunk(Removed(rows, i), reserve, target);
      (kept, dropped + if rows[i].acked then 0 else 1)
  }

  function Trimmed(rows: Rows, now: int, reserve: nat, target: Option<string>): (Rows, nat)
    requires reserve <= MAX_PER_INVERTER
  {
    Shrunk(Pruned(rows, now), reserve, target)
  }

  lemma ShrunkOnce(rows: Rows, reserve: nat, target: Option<string>)
    requires reserve <= MAX_PER_INVERTER && !Within(rows, reserve, target)
    ensures rows != []
    ensures
      var i := Victim(rows, reserve, target);
      var rest := Shrunk(Removed(rows, i), reserve, target);
      Shrunk(rows, reserve, target) == (rest.0, rest.1 + if rows[i].acked then 0 else 1)
  {
  }

  lemma TrimStep(rows: Rows, reserve: nat, target: Option<string>, i: nat, whole: (Rows, nat), dropped: nat)
    requires reserve <= MAX_PER_INVERTER && !Within(rows, reserve, target)
    requires rows != [] && i == Victim(rows, reserve, target)
    requires Shrunk(rows, reserve, target).0 == whole.0 && Shrunk(rows, reserve, target).1 + dropped == whole.1
    ensures
      var rest := Shrunk(Removed(rows, i), reserve, target);
      rest.0 == whole.0 && rest.1 + (if rows[i].acked then dropped else dropped + 1) == whole.1
  {
    ShrunkOnce(rows, reserve, target);
  }

  method PickVictim(rows: Rows, reserve: nat, target: Option<string>) returns (i: nat)
    requires rows != [] && !Within(rows, reserve, target)
    ensures i < |rows| && i == Victim(rows, reserve, target)
  {
    i := FirstAcked(rows, 0);
    if i == |rows| {
      i := if |rows| + reserve > MAX_TOTAL then 0 else FirstFull(rows, 0, reserve, target);
    }
  }

  method Trim(rows: Rows, now: int, reserve: nat, target: Option<string>) returns (kept: Rows, dropped: nat)
    requires reserve <= MAX_PER_INVERTER
    ensures (kept, dropped) == Trimmed(rows, now, reserve, target)
  {
    kept, dropped := Pruned(rows, now), 0;
    ghost var whole := Shrunk(kept, reserve, target);
    while !Within(kept, reserve, target)
      invariant Shrunk(kept, reserve, target).0 == whole.0
      invariant Shrunk(kept, reserve, target).1 + dropped == whole.1
      decreases |kept|
    {
      EmptyIsWithin(reserve, target);
      var i := PickVictim(kept, reserve, target);
      TrimStep(kept, reserve, target, i, whole, dropped);
      if !kept[i].acked {
        dropped := dropped + 1;
      }
      kept := Removed(kept, i);
    }
  }

  lemma EmptyIsWithin(reserve: nat, target: Option<string>)
    requires reserve <= MAX_PER_INVERTER
    ensures Within([], reserve, target)
  {
  }

  // ---------------------------------------------------------------- what trimming keeps

  predicate Suffix(a: Rows, b: Rows) {
    |a| <= |b| && a == b[|b| - |a|..]
  }

  ghost predicate Caps(rows: Rows, reserve: nat, target: Option<string>) {
    |rows| + reserve <= MAX_TOTAL && forall i :: !Full(rows, i, reserve, target)
  }

  /** Room under the inverter's own cap, for what is about to be added only if it is its. */
  predicate HasRoom(rows: Rows, inverter: string, reserve: nat, target: Option<string>) {
    if target == Some(inverter) then |Of(rows, inverter)| + reserve <= MAX_PER_INVERTER
    else |Of(rows, inverter)| <= MAX_PER_INVERTER
  }

  lemma WithinIsCaps(rows: Rows, reserve: nat, target: Option<string>)
    requires reserve <= MAX_PER_INVERTER
    ensures Within(rows, reserve, target) <==> Caps(rows, reserve, target)
  {
    FirstFullIsFirst(rows, 0, reserve, target);
    if Within(rows, reserve, target) {
      forall i ensures !Full(rows, i, reserve, target) {
        if Of(rows, i) != [] {
          OnlyMembers(rows, IsOf(i));
          var x := Of(rows, i)[0];
          assert x in Of(rows, i);
          var k :| 0 <= k < |rows| && rows[k] == x;
          assert !Full(rows, rows[k].inverter, reserve, target);
          assert IsOf(i)(x);
        }
      }
    }
  }

  /** Dropping one row from an over-full log: the oldest acknowledged one, or with none
      left the oldest of its own inverter, which is a full one unless the total is over. */
  ghost predicate DropsOldest(rows: Rows, kept: Rows, row: Row) {
    && (row.acked ==>
        AckedRows(rows) == [row] + AckedRows(kept) && Unacked(kept) == Unacked(rows)
        && forall i :: UnackedOf(kept, i) == UnackedOf(rows, i))
    && (!row.acked ==>
        AckedRows(rows) == [] == AckedRows(kept) && |Unacked(rows)| == |Unacked(kept)| + 1
        && UnackedOf(rows, row.inverter) == [row] + UnackedOf(kept, row.inverter)
        && forall i :: i != row.inverter ==> UnackedOf(kept, i) == UnackedOf(rows, i))
    && forall i :: |Of(kept, i)| <= |Of(rows, i)|
  }

  lemma OthersUntouched(rows: Rows, i: nat, j: string)
    requires i < |rows|
    ensures
      var kept, row := Removed(rows, i), rows[i];
      && |Of(kept, j)| <= |Of(rows, j)|
      && (row.acked || j != row.inverter ==> UnackedOf(kept, j) == UnackedOf(rows, j))
  {
    OnlyRemoved(rows, i, IsOf(j));
    OnlyRemoved(rows, i, IsUnackedOf(j));
  }

  lemma VictimIsOldest(rows: Rows, reserve: nat, target: Option<string>)
    requires rows != [] && !Within(rows, reserve, target)
    ensures
      var i := Victim(rows, reserve, target);
      DropsOldest(rows, Removed(rows, i), rows[i])
  {
    var i := Victim(rows, reserve, target);
    var row, kept := rows[i], Removed(rows, i);
    forall j ensures
      && |Of(kept, j)| <= |Of(rows, j)|
      && (row.acked || j != row.inverter ==> UnackedOf(kept, j) == UnackedOf(rows, j))
    {
      OthersUntouched(rows, i, j);
    }
    OnlyRemoved(rows, i, IsAcked);
    OnlyRemoved(rows, i, IsUnacked);
    OnlyNone(rows[..i], IsAcked);
    if !row.acked {
      OnlyNone(rows[i + 1..], IsAcked);
      VictimLeadsItsInverter(rows, i, reserve, target);
    }
  }

  lemma VictimLeadsItsInverter(rows: Rows, i: nat, reserve: nat, target: Option<string>)
    requires rows != [] && !Within(rows, reserve, target) && i == Victim(rows, reserve, target) && !rows[i].acked
    ensures UnackedOf(rows, rows[i].inverter) == [rows[i]] + UnackedOf(Removed(rows, i), rows[i].inverter)
  {
    FirstFullIsFirst(rows, 0, reserve, target);
    OnlyRemoved(rows, i, IsUnackedOf(rows[i].inverter));
    OnlyNone(rows[..i], IsUnackedOf(rows[i].inverter));
  }

  /** What trimming promises of what it keeps. */
  ghost predicate TrimsOldest(rows: Rows, kept: Rows, dropped: nat) {
    && Sub(kept, rows)
    && |Unacked(rows)| == |Unacked(kept)| + dropped
    && (dropped > 0 ==> AckedRows(kept) == [])
    && Suffix(AckedRows(kept), AckedRows(rows))
    && forall i :: Suffix(UnackedOf(kept, i), UnackedOf(rows, i))
  }

  lemma SuffixOfLonger(a: Rows, b: Rows, row: Row)
    requires Suffix(a, b)
    ensures Suffix(a, [row] + b)
  {
  }

  lemma UnackedSuffix(rows: Rows, row: Row, rest: Rows, kept: Rows, dropped: nat, i: string)
    requires DropsOldest(rows, rest, row) && TrimsOldest(rest, kept, dropped)
    ensures Suffix(UnackedOf(kept, i), UnackedOf(rows, i))
  {
    assert Suffix(UnackedOf(kept, i), UnackedOf(rest, i));
    SuffixOfLonger(UnackedOf(kept, i), UnackedOf(rest, i), row);
  }

  lemma AckedSuffix(rows: Rows, row: Row, rest: Rows, kept: Rows, dropped: nat)
    requires DropsOldest(rows, rest, row) && TrimsOldest(rest, kept, dropped)
    ensures Suffix(AckedRows(kept), AckedRows(rows)) && (!row.acked ==> AckedRows(kept) == [])
  {
    SuffixOfLonger(AckedRows(kept), AckedRows(rest), row);
    if !row.acked {
      assert AckedRows(kept) == [] == AckedRows(rows);
    }
  }

  lemma TrimsOneMore(rows: Rows, row: Row, rest: Rows, kept: Rows, dropped: nat)
    requires Sub(rest, rows) && DropsOldest(rows, rest, row) && TrimsOldest(rest, kept, dropped)
    ensures TrimsOldest(rows, kept, dropped + if row.acked then 0 else 1)
  {
    SubTransitive(kept, rest, rows);
    AckedSuffix(rows, row, rest, kept, dropped);
    forall i ensures Suffix(UnackedOf(kept, i), UnackedOf(rows, i)) {
      UnackedSuffix(rows, row, rest, kept, dropped, i);
    }
  }

  /** Shrinking ends within the caps; it gives up the oldest rows first, acknowledged
      before unacknowledged, and counts exactly the unacknowledged ones. */
  lemma {:induction false} ShrunkFits(rows: Rows, reserve: nat, target: Option<string>)
    requires reserve <= MAX_PER_INVERTER
    ensures
      var (kept, dropped) := Shrunk(rows, reserve, target);
      Caps(kept, reserve, target) && TrimsOldest(rows, kept, dropped)
    decreases |rows|
  {
    if Within(rows, reserve, target) {
      WithinIsCaps(rows, reserve, target);
      SubReflexive(rows);
      assert AckedRows(rows)[|AckedRows(rows)| - |AckedRows(rows)|..] == AckedRows(rows);
      forall i ensures Suffix(UnackedOf(rows, i), UnackedOf(rows, i)) {
        assert UnackedOf(rows, i)[|UnackedOf(rows, i)| - |UnackedOf(rows, i)|..] == UnackedOf(rows, i);
      }
    } else {
      ShrunkOnce(rows, reserve, target);
      var i := Victim(rows, reserve, target);
      var rest := Removed(rows, i);
      RemovedIsSub(rows, i);
      VictimIsOldest(rows, reserve, target);
      ShrunkFits(rest, reserve, target);
      var (kept, dropped) := Shrunk(rest, reserve, target);
      TrimsOneMore(rows, rows[i], rest, kept, dropped);
    }
  }

  /** Trimming stops as soon as it can: unless nothing was dropped, putting the last
      victim back exceeds a cap. */
  lemma {:induction false} ShrunkNoFurther(rows: Rows, reserve: nat, target: Option<string>)
    requires reserve <= MAX_PER_INVERTER
    ensures
      var kept := Shrunk(rows, reserve, target).0;
      kept == rows || exists fuller: Rows, i: nat :: i < |fuller| && IsLastDrop(fuller, i, kept, reserve, target)
    decreases |rows|
  {
    if !Within(rows, reserve, target) {
      ShrunkOnce(rows, reserve, target);
      WithinIsCaps(rows, reserve, target);
      var i := Victim(rows, reserve, target);
      ShrunkNoFurther(Removed(rows, i), reserve, target);
      if Shrunk(Removed(rows, i), reserve, target).0 == Removed(rows, i) {
        assert IsLastDrop(rows, i, Removed(rows, i), reserve, target);
      }
    }
  }

  ghost predicate IsLastDrop(fuller: Rows, i: nat, kept: Rows, reserve: nat, target: Option<string>)
    requires i < |fuller|
  {
    kept == Removed(fuller, i) && !Caps(fuller, reserve, target)
  }

  /** Nothing is given up while there is room for everything. */
  lemma TrimsNothingThatFits(rows: Rows, reserve: nat, target: Option<string>)
    requires reserve <= MAX_PER_INVERTER && |rows| + reserve <= MAX_TOTAL
    requires forall k :: 0 <= k < |rows| ==> HasRoom(rows, rows[k].inverter, reserve, target)
    ensures Shrunk(rows, reserve, target) == (rows, 0)
  {
    FirstFullIsFirst(rows, 0, reserve, target);
  }

  /** While the total is within its cap, an inverter within its own loses none of its
      unacknowledged rows to another one's overflow. */
  lemma {:induction false} NeighboursAreSpared(rows: Rows, reserve: nat, target: Option<string>, inverter: string)
    requires reserve <= MAX_PER_INVERTER && |rows| + reserve <= MAX_TOTAL && HasRoom(rows, inverter, reserve, target)
    ensures UnackedOf(Shrunk(rows, reserve, target).0, inverter) == UnackedOf(rows, inverter)
    decreases |rows|
  {
    if !Within(rows, reserve, target) {
      ShrunkOnce(rows, reserve, target);
      VictimIsOldest(rows, reserve, target);
      var i := Victim(rows, reserve, target);
      FirstFullIsFirst(rows, 0, reserve, target);
      assert rows[i].acked || rows[i].inverter != inverter;
      assert |Of(Removed(rows, i), inverter)| <= |Of(rows, inverter)|;
      NeighboursAreSpared(Removed(rows, i), reserve, target, inverter);
    }
  }

  // ---------------------------------------------------------------- the operations

  /** The key of a row: one kind at most once per inverter and event. */
  predicate SameKey(a: Row, b: Row) {
    a.inverter == b.inverter && a.kind == b.kind && a.event == b.event
  }

  predicate Has(rows: Rows, row: Row) {
    exists r :: r in rows && SameKey(r, row)
  }

  function Appended(rows: Rows, row: Row): Rows {
    if Has(rows, row) then rows else Trimmed(rows, row.at, 1, Some(row.inverter)).0 + [row]
  }

  /** A kind is added once for each inverter and event: at the end, unless a row of them is
      there already. */
  lemma AppendsExactlyWhen(rows: Rows, row: Row)
    ensures
      var v := Appended(rows, row);
      if exists r :: r in rows && r.inverter == row.inverter && r.event == row.event && r.kind == row.kind
      then v == rows
      else v != [] && v[|v| - 1] == row
  {
    if r :| r in rows && r.inverter == row.inverter && r.event == row.event && r.kind == row.kind {
      assert SameKey(r, row);
    }
  }

  function Mark(row: Row, ids: set<nat>): Row {
    if row.id in ids then row.(acked := true) else row
  }

  function Marked(rows: Rows, ids: set<nat>): (r: Rows)
    ensures |r| == |rows| && forall k :: 0 <= k < |rows| ==> r[k] == Mark(rows[k], ids)
  {
    seq(|rows|, k requires 0 <= k < |rows| => Mark(rows[k], ids))
  }

  function AckedBy(rows: Rows, ids: set<nat>, now: int): Rows {
    Pruned(Marked(rows, ids), now)
  }

  /** Mark the rows named, drop those no longer needed, in one pass. */
  method Acknowledge(rows: Rows, ids: set<nat>, now: int) returns (kept: Rows)
    ensures kept == AckedBy(rows, ids, now)
  {
    kept := [];
    var marked := Marked(rows, ids);
    for k := 0 to |rows|
      invariant kept == Pruned(marked[..k], now)
    {
      var row := rows[k];
      if row.id in ids {
        row := row.(acked := true);
      }
      assert marked[..k + 1] == marked[..k] + [row];
      OnlyAppended(marked[..k], row, NeededAt(now));
      if Needed(row, now) {
        kept := kept + [row];
      }
    }
    assert marked[..|rows|] == marked;
  }

  /** An acknowledgement marks exactly the rows named. A row goes exactly when it is
      acknowledged and its event has ended; every other one stays, in its place. */
  lemma KeptExactlyUntilItsEnd(rows: Rows, ids: set<nat>, now: int, k: nat)
    requires k < |rows|
    ensures
      var row := rows[k].(acked := rows[k].acked || rows[k].id in ids);
      (row in AckedBy(rows, ids, now) <==> !row.acked || now < row.event.end)
    ensures rows[k] in Pruned(rows, now) <==> !rows[k].acked || now < rows[k].event.end
    ensures Sub(Pruned(rows, now), rows) && Sub(AckedBy(rows, ids, now), Marked(rows, ids))
  {
    var marked := Marked(rows, ids);
    assert marked[k] in marked && marked[k] == rows[k].(acked := rows[k].acked || rows[k].id in ids);
    OnlyIsSub(rows, NeededAt(now));
    OnlyIsSub(marked, NeededAt(now));
    OnlyMembers(rows, NeededAt(now));
    OnlyMembers(marked, NeededAt(now));
    if NeededAt(now)(marked[k]) {
      OnlyKeepsMembers(marked, NeededAt(now), marked[k]);
    }
    if NeededAt(now)(rows[k]) {
      OnlyKeepsMembers(rows, NeededAt(now), rows[k]);
    }
  }

  method Append(rows: Rows, row: Row) returns (next: Rows, dropped: nat)
    ensures next == Appended(rows, row)
    ensures dropped == if Has(rows, row) then 0 else Trimmed(rows, row.at, 1, Some(row.inverter)).1
  {
    if Has(rows, row) {
      return rows, 0;
    }
    next, dropped := Trim(rows, row.at, 1, Some(row.inverter));
    next := next + [row];
  }

  datatype Op = Add(row: Row) | Ack(ids: set<nat>, now: int) | Prune(now: int)

  function Applied(rows: Rows, op: Op): Rows {
    match op
    case Add(row) => Appended(rows, row)
    case Ack(ids, now) => AckedBy(rows, ids, now)
    case Prune(now) => Pruned(rows, now)
  }

  function Run(rows: Rows, ops: seq<Op>): Rows
    decreases |ops|
  {
    if ops == [] then rows else Run(Applied(rows, ops[0]), ops[1..])
  }

  /** What a row is apart from its acknowledgement. */
  function Bare(row: Row): Row {
    row.(acked := false)
  }

  function Entries(rows: Rows): (r: Rows)
    ensures |r| == |rows| && forall k :: 0 <= k < |rows| ==> r[k] == Bare(rows[k])
  {
    seq(|rows|, k requires 0 <= k < |rows| => Bare(rows[k]))
  }

  /** Everything ever asked to be appended, in order. */
  function Asked(ops: seq<Op>): Rows
    decreases |ops|
  {
    if ops == [] then []
    else (if ops[0].Add? then [ops[0].row] else []) + Asked(ops[1..])
  }

  predicate KeysUnique(rows: Rows) {
    forall i, j :: 0 <= i < j < |rows| ==> !SameKey(rows[i], rows[j])
  }

  ghost predicate Inv(rows: Rows) {
    Caps(rows, 0, None) && KeysUnique(rows)
  }

  lemma {:induction false} SubKeysUnique(a: Rows, b: Rows)
    requires Sub(a, b) && KeysUnique(b)
    ensures KeysUnique(a)
    decreases |b|
  {
    if a != [] {
      var u, v := a[..|a| - 1], b[..|b| - 1];
      if a[|a| - 1] == b[|b| - 1] && Sub(u, v) {
        SubKeysUnique(u, v);
        SubMembers(u, v);
        forall i, j | 0 <= i < j < |a| ensures !SameKey(a[i], a[j]) {
          if j == |a| - 1 {
            assert a[i] in v;
          }
        }
      } else {
        SubKeysUnique(a, v);
      }
    }
  }

  lemma {:induction false} SubCounts(a: Rows, b: Rows, inverter: string)
    requires Sub(a, b)
    ensures |Of(a, inverter)| <= |Of(b, inverter)|
    decreases |b|
  {
    if a == [] {
      assert Of(a, inverter) == [];
    } else if a[|a| - 1] == b[|b| - 1] && Sub(a[..|a| - 1], b[..|b| - 1]) {
      SubCounts(a[..|a| - 1], b[..|b| - 1], inverter);
    } else {
      SubCounts(a, b[..|b| - 1], inverter);
    }
  }

  lemma SubKeepsInv(a: Rows, b: Rows)
    requires Sub(a, b) && Inv(b)
    ensures Inv(a)
  {
    SubKeysUnique(a, b);
    SubMembers(a, b);
    forall i ensures !Full(a, i, 0, None) {
      SubCounts(a, b, i);
      assert !Full(b, i, 0, None);
    }
  }

  lemma {:induction false} MarkingCounts(rows: Rows, ids: set<nat>, inverter: string)
    ensures |Of(Marked(rows, ids), inverter)| == |Of(rows, inverter)|
    decreases |rows|
  {
    if rows != [] {
      MarkingCounts(rows[..|rows| - 1], ids, inverter);
      assert Marked(rows, ids)[..|rows| - 1] == Marked(rows[..|rows| - 1], ids);
    }
  }

  lemma MarkingKeepsInv(rows: Rows, ids: set<nat>)
    requires Inv(rows)
    ensures Inv(Marked(rows, ids)) && Entries(Marked(rows, ids)) == Entries(rows)
  {
    forall i ensures !Full(Marked(rows, ids), i, 0, None) {
      MarkingCounts(rows, ids, i);
      assert !Full(rows, i, 0, None);
    }
  }

  lemma {:induction false} EntriesOfSub(a: Rows, b: Rows)
    requires Sub(a, b)
    ensures Sub(Entries(a), Entries(b))
    decreases |b|
  {
    if a != [] {
      var u, v := a[..|a| - 1], b[..|b| - 1];
      assert Entries(a)[..|a| - 1] == Entries(u) && Entries(b)[..|b| - 1] == Entries(v);
      if a[|a| - 1] == b[|b| - 1] && Sub(u, v) {
        EntriesOfSub(u, v);
      } else {
        EntriesOfSub(a, v);
      }
    }
  }

  lemma KeepsRoomFor(kept: Rows, row: Row)
    requires Caps(kept, 1, Some(row.inverter))
    ensures Caps(kept + [row], 0, None)
  {
    forall i ensures !Full(kept + [row], i, 0, None) {
      assert !Full(kept, i, 1, Some(row.inverter));
      OnlyAppended(kept, row, IsOf(i));
    }
  }

  lemma NewKeyIsUnique(rows: Rows, kept: Rows, row: Row)
    requires KeysUnique(rows) && Sub(kept, rows) && !Has(rows, row)
    ensures KeysUnique(kept + [row])
  {
    SubKeysUnique(kept, rows);
    SubMembers(kept, rows);
    forall i, j | 0 <= i < j < |kept + [row]| ensures !SameKey((kept + [row])[i], (kept + [row])[j]) {
      if j == |kept| {
        assert kept[i] in rows;
      }
    }
  }

  lemma EntriesAppended(rows: Rows, kept: Rows, row: Row)
    requires Sub(kept, rows)
    ensures Sub(Entries(kept + [row]), Entries(rows) + [Bare(row)])
  {
    EntriesOfSub(kept, rows);
    SubConcat(Entries(kept), Entries(rows), [Bare(row)]);
    assert Entries(kept + [row]) == Entries(kept) + [Bare(row)];
  }

  lemma TrimmedIsSub(rows: Rows, now: int, reserve: nat, target: Option<string>)
    requires reserve <= MAX_PER_INVERTER
    ensures
      var kept := Trimmed(rows, now, reserve, target).0;
      Sub(kept, rows) && Caps(kept, reserve, target)
  {
    OnlyIsSub(rows, NeededAt(now));
    ShrunkFits(Pruned(rows, now), reserve, target);
    SubTransitive(Trimmed(rows, now, reserve, target).0, Pruned(rows, now), rows);
  }

  lemma AppendKeepsInv(rows: Rows, row: Row)
    requires Inv(rows)
    ensures Inv(Appended(rows, row))
    ensures Sub(Entries(Appended(rows, row)), Entries(rows) + [Bare(row)])
  {
    if Has(rows, row) {
      SubReflexive(Entries(rows));
      assert (Entries(rows) + [Bare(row)])[..|rows|] == Entries(rows);
    } else {
      var kept := Trimmed(rows, row.at, 1, Some(row.inverter)).0;
      TrimmedIsSub(rows, row.at, 1, Some(row.inverter));
      KeepsRoomFor(kept, row);
      NewKeyIsUnique(rows, kept, row);
      EntriesAppended(rows, kept, row);
    }
  }

  lemma OpKeepsInv(rows: Rows, op: Op)
    requires Inv(rows)
    ensures Inv(Applied(rows, op))
    ensures Sub(Entries(Applied(rows, op)), Entries(rows) + (if op.Add? then [Bare(op.row)] else []))
  {
    match op
    case Add(row) => AppendKeepsInv(rows, row);
    case Ack(ids, now) =>
      MarkingKeepsInv(rows, ids);
      var marked := Marked(rows, ids);
      OnlyIsSub(marked, NeededAt(now));
      SubKeepsInv(AckedBy(rows, ids, now), marked);
      EntriesOfSub(AckedBy(rows, ids, now), marked);
      assert Entries(rows) + [] == Entries(rows);
    case Prune(now) =>
      OnlyIsSub(rows, NeededAt(now));
      SubKeepsInv(Pruned(rows, now), rows);
      EntriesOfSub(Pruned(rows, now), rows);
      assert Entries(rows) + [] == Entries(rows);
  }

  lemma AskedOneMore(ops: seq<Op>)
    requires ops != []
    ensures Entries(Asked(ops)) == (if ops[0].Add? then [Bare(ops[0].row)] else []) + Entries(Asked(ops[1..]))
  {
  }

  lemma SubOfLonger(a: Rows, b: Rows, c: Rows, tail: Rows)
    requires Sub(a, b + tail) && Sub(b, c)
    ensures Sub(a, c + tail)
  {
    SubConcat(b, c, tail);
    SubTransitive(a, b + tail, c + tail);
  }

  lemma {:induction false} RunKeepsInv(rows: Rows, ops: seq<Op>)
    requires Inv(rows)
    ensures Inv(Run(rows, ops))
    decreases |ops|
  {
    if ops != [] {
      OpKeepsInv(rows, ops[0]);
      RunKeepsInv(Applied(rows, ops[0]), ops[1..]);
    }
  }

  lemma SubOfMore(end: Rows, next: Rows, rows: Rows, first: Rows, tail: Rows)
    requires Sub(end, next + tail) && Sub(next, rows + first)
    ensures Sub(end, rows + (first + tail))
  {
    SubOfLonger(end, next, rows + first, tail);
    assert rows + first + tail == rows + (first + tail);
  }

  lemma OneMoreOp(rows: Rows, ops: seq<Op>, end: Rows)
    requires Inv(rows) && ops != []
    requires Sub(end, Entries(Applied(rows, ops[0])) + Entries(Asked(ops[1..])))
    ensures Sub(end, Entries(rows) + Entries(Asked(ops)))
  {
    OpKeepsInv(rows, ops[0]);
    AskedOneMore(ops);
    SubOfMore(end, Entries(Applied(rows, ops[0])), Entries(rows),
              if ops[0].Add? then [Bare(ops[0].row)] else [], Entries(Asked(ops[1..])));
  }

  lemma {:induction false} RunKeepsOrder(rows: Rows, ops: seq<Op>)
    requires Inv(rows)
    ensures Sub(Entries(Run(rows, ops)), Entries(rows) + Entries(Asked(ops)))
    decreases |ops|
  {
    if ops == [] {
      assert Entries(rows) + Entries(Asked(ops)) == Entries(rows);
      SubReflexive(Entries(rows));
    } else {
      OpKeepsInv(rows, ops[0]);
      RunKeepsOrder(Applied(rows, ops[0]), ops[1..]);
      OneMoreOp(rows, ops, Entries(Run(rows, ops)));
    }
  }

  /** After any appends, acknowledgements and prunes from an empty log: at most 1024 rows,
      at most 64 of one inverter, no inverter, event and kind twice, and the rows are what
      is left, in order, of those appended. */
  lemma LogStaysBounded(ops: seq<Op>)
    ensures
      var rows := Run([], ops);
      && |rows| <= MAX_TOTAL && (forall i :: |Of(rows, i)| <= MAX_PER_INVERTER)
      && (forall i, j :: 0 <= i < j < |rows| ==>
            rows[i].inverter != rows[j].inverter || rows[i].event != rows[j].event || rows[i].kind != rows[j].kind)
      && Sub(Entries(rows), Entries(Asked(ops)))
  {
    assert Inv([]);
    RunKeepsInv([], ops);
    RunKeepsOrder([], ops);
    assert Entries([]) + Entries(Asked(ops)) == Entries(Asked(ops));
    var rows := Run([], ops);
    forall i ensures |Of(rows, i)| <= MAX_PER_INVERTER {
      assert !Full(rows, i, 0, None);
    }
    forall i, j | 0 <= i < j < |rows|
      ensures rows[i].inverter != rows[j].inverter || rows[i].event != rows[j].event || rows[i].kind != rows[j].kind
    {
      assert !SameKey(rows[i], rows[j]);
    }
  }

  // ---------------------------------------------------------------- draining

  /** The oldest unacknowledged rows of an inverter, as many as one snapshot offers. */
  function Visible(rows: Rows, inverter: string): Rows {
    var all := UnackedOf(rows, inverter);
    if |all| <= SNAPSHOT_PER_INVERTER then all else all[..SNAPSHOT_PER_INVERTER]
  }

  /** The ids of every row a snapshot of all inverters offers. */
  function Offered(rows: Rows): set<nat> {
    set k: nat | k < |rows| && rows[k] in Visible(rows, rows[k].inverter) :: rows[k].id
  }

  predicate IdsUnique(rows: Rows) {
    forall i, j :: 0 <= i < j < |rows| ==> rows[i].id != rows[j].id
  }

  /** One round: every visible row is offered, and all of them are acknowledged. */
  function Drained(rows: Rows, now: int): Rows {
    AckedBy(rows, Offered(rows), now)
  }

  function Rounds(rows: Rows, nows: seq<int>): Rows
    decreases |nows|
  {
    if nows == [] then rows else Rounds(Drained(rows, nows[0]), nows[1..])
  }

  function IsLeft(inverter: string, ids: set<nat>): Row -> bool {
    (row: Row) => row.inverter == inverter && !row.acked && row.id !in ids
  }

  function IsNotIn(ids: set<nat>): Row -> bool {
    (row: Row) => row.id !in ids
  }

  lemma {:induction false} UnackedAfter(rows: Rows, ids: set<nat>, now: int, inverter: string)
    ensures UnackedOf(AckedBy(rows, ids, now), inverter) == Only(rows, IsLeft(inverter, ids))
    decreases |rows|
  {
    if rows != [] {
      var before, row := rows[..|rows| - 1], rows[|rows| - 1];
      UnackedAfter(before, ids, now, inverter);
      assert Marked(rows, ids) == Marked(before, ids) + [Mark(row, ids)];
      OnlyAppended(Marked(before, ids), Mark(row, ids), NeededAt(now));
      OnlyAppended(Pruned(Marked(before, ids), now), Mark(row, ids), IsUnackedOf(inverter));
      assert Pruned(Marked(before, ids), now) + [] == Pruned(Marked(before, ids), now);
    }
  }

  /** A filter of a split: everything before n is out, everything after is in. */
  lemma OnlyTail(s: Rows, n: nat, p: Row -> bool)
    requires n <= |s| && (forall k :: 0 <= k < n ==> !p(s[k])) && forall k :: n <= k < |s| ==> p(s[k])
    ensures Only(s, p) == s[n..]
  {
    var a, b := s[..n], s[n..];
    assert s == a + b;
    OnlyParted(a, b, p);
  }

  lemma OnlyParted(a: Rows, b: Rows, p: Row -> bool)
    requires (forall k :: 0 <= k < |a| ==> !p(a[k])) && forall k :: 0 <= k < |b| ==> p(b[k])
    ensures Only(a + b, p) == b
  {
    OnlyNone(a, p);
    OnlyAll(b, p);
    OnlyConcat(a, b, p);
  }

  lemma {:induction false} SubIdsUnique(a: Rows, b: Rows)
    requires Sub(a, b) && IdsUnique(b)
    ensures IdsUnique(a)
    decreases |b|
  {
    if a != [] {
      var u, v := a[..|a| - 1], b[..|b| - 1];
      if a[|a| - 1] == b[|b| - 1] && Sub(u, v) {
        SubIdsUnique(u, v);
        SubMembers(u, v);
        forall i, j | 0 <= i < j < |a| ensures a[i].id != a[j].id {
          if j == |a| - 1 {
            assert a[i] in v;
          }
        }
      } else {
        SubIdsUnique(a, v);
      }
    }
  }

  lemma UniqueIdNamesTheRow(rows: Rows, a: Row, b: Row)
    requires IdsUnique(rows) && a in rows && b in rows && a != b
    ensures a.id != b.id
  {
  }

  /** A row that is offered is not one of the later ones of any inverter. */
  lemma LaterIsNotOffered(rows: Rows, inverter: string, k: nat, row: Row)
    requires IdsUnique(rows) && SNAPSHOT_PER_INVERTER <= k < |UnackedOf(rows, inverter)|
    requires row in rows && row in Visible(rows, row.inverter)
    ensures row.id != UnackedOf(rows, inverter)[k].id
  {
    var all := UnackedOf(rows, inverter);
    OnlyMembers(rows, IsUnackedOf(inverter));
    OnlyIsSub(rows, IsUnackedOf(inverter));
    SubIdsUnique(all, rows);
    assert all[k] in all && IsUnackedOf(inverter)(all[k]);
    if row.inverter == inverter {
      var j :| 0 <= j < SNAPSHOT_PER_INVERTER && all[j] == row;
      assert all[j].id != all[k].id;
    } else {
      UniqueIdNamesTheRow(rows, row, all[k]);
    }
  }

  /** The first eight of an inverter are offered, and none of its others. */
  lemma OfferedAreTheFirst(rows: Rows, inverter: string, k: nat)
    requires IdsUnique(rows) && k < |UnackedOf(rows, inverter)|
    ensures UnackedOf(rows, inverter)[k].id in Offered(rows) <==> k < SNAPSHOT_PER_INVERTER
  {
    var all := UnackedOf(rows, inverter);
    OnlyMembers(rows, IsUnackedOf(inverter));
    assert all[k] in all && IsUnackedOf(inverter)(all[k]);
    if k < SNAPSHOT_PER_INVERTER {
      assert all[k] in Visible(rows, inverter);
      var m :| 0 <= m < |rows| && rows[m] == all[k];
      assert rows[m] in Visible(rows, rows[m].inverter);
    } else {
      forall m: nat | m < |rows| && rows[m] in Visible(rows, rows[m].inverter) ensures rows[m].id != all[k].id {
        LaterIsNotOffered(rows, inverter, k, rows[m]);
      }
    }
  }

  lemma RoundTakesEight(rows: Rows, now: int, inverter: string)
    requires IdsUnique(rows)
    ensures
      var all := UnackedOf(rows, inverter);
      UnackedOf(Drained(rows, now), inverter) ==
        if |all| <= SNAPSHOT_PER_INVERTER then [] else all[SNAPSHOT_PER_INVERTER..]
  {
    var all, ids := UnackedOf(rows, inverter), Offered(rows);
    UnackedAfter(rows, ids, now, inverter);
    OnlyOfOnly(rows, IsUnackedOf(inverter), IsNotIn(ids), IsLeft(inverter, ids));
    forall k | 0 <= k < |all| ensures all[k].id in ids <==> k < SNAPSHOT_PER_INVERTER {
      OfferedAreTheFirst(rows, inverter, k);
    }
    OnlyTail(all, if |all| <= SNAPSHOT_PER_INVERTER then |all| else SNAPSHOT_PER_INVERTER, IsNotIn(ids));
  }

  lemma RoundKeepsIds(rows: Rows, now: int)
    requires IdsUnique(rows)
    ensures IdsUnique(Drained(rows, now))
  {
    var marked := Marked(rows, Offered(rows));
    OnlyIsSub(marked, NeededAt(now));
    SubIdsUnique(Drained(rows, now), marked);
  }

  /** With nothing appended, each round of offering and acknowledging takes the eight
      oldest of every inverter: k rounds leave max(0, n - 8k) of n. */
  lemma {:induction false} RoundsDrain(rows: Rows, nows: seq<int>, inverter: string)
    requires IdsUnique(rows)
    ensures
      var all, taken := UnackedOf(rows, inverter), SNAPSHOT_PER_INVERTER * |nows|;
      UnackedOf(Rounds(rows, nows), inverter) == if |all| <= taken then [] else all[taken..]
    decreases |nows|
  {
    if nows != [] {
      RoundTakesEight(rows, nows[0], inverter);
      RoundKeepsIds(rows, nows[0]);
      RoundsDrain(Drained(rows, nows[0]), nows[1..], inverter);
    }
  }
}
