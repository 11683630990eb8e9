/** Protection holds on one inverter's power switch: requests are durable before an
    Off, an Off is ours only once it read back as applied, and only ours is undone.

    Writes, read-backs and sightings are logged as events. A sighting of On is `recorded`
    when the disk no longer claims the Off that it ended. */
module PowerHold {
  import opened Basics

  datatype Power = On | Off

  datatype Cause = Ev | Dispatch

  datatype Hold = Hold(cause: Cause, confirmed: bool, owned: bool, pendingRelease: bool, trustedEnd: Option<int>)

  datatype Event = OffApplied | WroteOn | SawOn(recorded: bool)

  /** The switch, the durable records, the memory of them (None once a save failed),
      and everything that bears on whose Off it is. An undecodable switch is None. */
  datatype World = World(power: Option<Power>, disk: seq<Hold>, memory: Option<seq<Hold>>, trace: seq<Event>)

  predicate OursConfirmed(records: seq<Hold>) {
    exists h :: h in records && h.confirmed && h.owned
  }

  function Log(w: World, e: Event): World {
    w.(trace := w.trace + [e])
  }

  function Each(records: seq<Hold>, f: Hold -> Hold): (r: seq<Hold>)
    ensures |r| == |records| && forall k :: 0 <= k < |r| ==> r[k] == f(records[k])
  {
    seq(|records|, k requires 0 <= k < |records| => f(records[k]))
  }

  function Confirming(records: seq<Hold>, c: bool): seq<Hold> {
    Each(records, (h: Hold) => h.(confirmed := c))
  }

  function Releasing(records: seq<Hold>): seq<Hold> {
    Each(records, (h: Hold) => h.(pendingRelease := true))
  }

  /** Save the records of this device; a failure withdraws the memory of all of them. */
  function Replaced(w: World, records: seq<Hold>, f: WriteFault): (World, bool)
    requires w.memory.Some?
  {
    if records == w.memory.value then (w, true)
    else
      var disk := if f == FailsBefore then w.disk else records;
      if f == Clean then (w.(disk := disk, memory := Some(records)), true)
      else (w.(disk := disk, memory := None), false)
  }

  datatype PowerOutcome = NoChange | AppliedPower | UnverifiedPower | FailedPower | UnreadablePower | RefusedPower

  /** What one verified edge write meets. */
  datatype Luck = Luck(readable: bool, allowed: bool, accepted: bool, landed: bool, answers: nat -> bool)

  function Reading(w: World, readable: bool): Option<Power> {
    if readable then w.power else None
  }

  /** One of the first n verifying reads was answered. */
  predicate Heard(luck: Luck, n: nat) {
    n > 0 && (luck.answers(n - 1) || Heard(luck, n - 1))
  }

  function PowerWritten(w: World, target: Power, luck: Luck): (World, PowerOutcome) {
    var before := Reading(w, luck.readable);
    if target == On && before.None? then (w, UnreadablePower)
    else if before == Some(target) then (w, NoChange)
    else if !luck.allowed then (w, RefusedPower)
    else
      var sent := if target == On then Log(w, WroteOn) else w;
      var after := if luck.landed then sent.(power := Some(target)) else sent;
      if !luck.accepted then (after, FailedPower)
      else if after.power == Some(target) && Heard(luck, 3)
        then (after, AppliedPower)
      else (after, UnverifiedPower)
  }

  /** What each outcome says of the switch: applied and no-change mean it is at the target,
      and nothing moved unless a write was sent; an On is only ever sent to a switch that
      was read and was not On. */
  lemma OutcomeMeans(w: World, target: Power, luck: Luck)
    ensures
      var (v, outcome) := PowerWritten(w, target, luck);
      && v.disk == w.disk && v.memory == w.memory
      && (outcome in {AppliedPower, NoChange} ==> v.power == Some(target))
      && (outcome in {NoChange, RefusedPower, UnreadablePower} ==> v == w)
      && (v.power == w.power || v.power == Some(target))
      && (v.trace != w.trace ==> target == On && w.power == Some(Off) && v.trace == w.trace + [WroteOn])
  {
    assert w.power.Some? ==> w.power.value == On || w.power.value == Off;
  }

  // ---------------------------------------------------------------- release

  datatype ReleaseInput = ReleaseInput(
    handover: bool, refused: bool, readable: bool, restored: bool,
    f1: WriteFault, f2: WriteFault, luck: Luck)

  function Released(w: World, x: ReleaseInput): World {
    if w.memory.None? || w.memory.value == [] || x.refused then w
    else
      var records := w.memory.value;
      var before := Reading(w, x.readable);
      if before == Some(On) then SightingSaved(w, [], x.f1).0
      else if before == Some(Off) && !OursConfirmed(records) then
        if x.handover || (forall h :: h in records ==> h.pendingRelease) then Replaced(w, [], x.f1).0 else w
      else if before.None? || !x.restored then w
      else
        var (marked, saved) := Replaced(w, Releasing(records), x.f1);
        if !saved then marked
        else
          var (written, outcome) := PowerWritten(marked, On, x.luck);
          if outcome == AppliedPower || outcome == NoChange then SightingSaved(written, [], x.f2).0
          else written
  }

  /** An On was seen: the saved records no longer claim the Off. */
  function SightingSaved(w: World, records: seq<Hold>, f: WriteFault): (World, bool)
    requires w.memory.Some?
  {
    var (saved, ok) := Replaced(w, records, f);
    (Log(saved, SawOn(!OursConfirmed(saved.disk))), ok)
  }

  // ---------------------------------------------------------------- reconcile

  /** One evaluation: what the evidence wants, and what the bus answers. `refresh` is
      what the evidence makes of a record's own release and end. */
  datatype ReconcileInput = ReconcileInput(
    refresh: Hold -> (bool, Option<int>), evWanted: bool, windowEnd: Option<int>, now: int,
    refused: bool, polled: Option<Power>, readable: bool,
    f1: WriteFault, f2: WriteFault, f3: WriteFault, luck: Luck, release: ReleaseInput)

  function Refreshed(records: seq<Hold>, refresh: Hold -> (bool, Option<int>)): seq<Hold> {
    Each(records, (h: Hold) => h.(pendingRelease := refresh(h).0, trustedEnd := refresh(h).1))
  }

  predicate Active(h: Hold, now: int) {
    && h.owned && !h.pendingRelease
    && (h.confirmed || (h.cause == Dispatch && h.trustedEnd.Some? && now < h.trustedEnd.value))
  }

  function HasCause(records: seq<Hold>, c: Cause): bool {
    exists h :: h in records && h.cause == c
  }

  function Extended(h: Hold, end: Option<int>): Hold {
    if h.cause == Dispatch then h.(trustedEnd := end, pendingRelease := false) else h
  }

  /** New requests for what is wanted now; a dispatch keeps its record and moves its end. */
  function Requests(records: seq<Hold>, x: ReconcileInput): seq<Hold> {
    var ev := if x.evWanted && !HasCause(records, Ev) then [Hold(Ev, false, true, false, None)] else [];
    if x.windowEnd.None? then records + ev
    else if !HasCause(records, Dispatch) then records + ev + [Hold(Dispatch, false, true, false, x.windowEnd)]
    else
      Each(records, (h: Hold) => Extended(h, x.windowEnd)) + ev
  }

  function Reconciled(w: World, x: ReconcileInput): World {
    if w.memory.None? then w
    else
      var refreshed := Refreshed(w.memory.value, x.refresh);
      var (kept, saved) := Replaced(w, refreshed, x.f1);
      if !saved then kept
      else if !x.evWanted && x.windowEnd.None? && !(exists h :: h in refreshed && Active(h, x.now))
        then Released(kept, x.release)
      else if x.refused then kept
      else Held(kept, refreshed, x)
  }

  /** The wanted half: create or keep requests, durably, before any Off. */
  function Held(w: World, records: seq<Hold>, x: ReconcileInput): World
    requires w.memory == Some(records)
  {
    var before := if x.polled == Some(Off) then Some(Off) else Reading(w, x.readable);
    var wanted := if before != Some(Off) || OursConfirmed(records) then Requests(records, x) else records;
    var asked := if before != Some(Off) then Confirming(wanted, false) else wanted;
    if asked == [] then w
    else
      var (stored, saved) := if before == Some(On) then SightingSaved(w, asked, x.f2) else Replaced(w, asked, x.f2);
      if !saved then stored
      else if before == Some(Off) then
        if OursConfirmed(asked) then Replaced(stored, Confirming(asked, true), x.f3).0 else stored
      else
        var (written, outcome) := PowerWritten(stored, Off, x.luck);
        if outcome == AppliedPower then Replaced(Log(written, OffApplied), Confirming(asked, true), x.f3).0
        else written
  }

  // ---------------------------------------------------------------- runs

  /** `Confirm` is the repair offered once nothing is published: a new store, without any
      record, and then its marker. */
  datatype Step =
    | Reconcile(x: ReconcileInput)
    | Release(r: ReleaseInput)
    | OwnerSwitches(power: Option<Power>)
    | Restart
    | Confirm(f1: WriteFault, f2: WriteFault)

  function Next(w: World, s: Step): World {
    match s
    case Reconcile(x) => Reconciled(w, x)
    case Release(r) => Released(w, r)
    case OwnerSwitches(p) => w.(power := p)
    case Restart => w.(memory := Some(w.disk))
    case Confirm(f1, f2) =>
      if w.memory.Some? || f1 == FailsBefore then w
      else w.(disk := [], memory := if f1 == Clean && f2 == Clean then Some([]) else None)
  }

  function Run(w: World, steps: seq<Step>): World
    decreases |steps|
  {
    if steps == [] then w else Run(Next(w, steps[0]), steps[1..])
  }

  /** Our own Off is the last thing known about the switch. */
  predicate OwnOffStands(trace: seq<Event>) {
    exists j :: 0 <= j < |trace| && trace[j] == OffApplied && NoRecordedOn(trace, j)
  }

  predicate NoRecordedOn(trace: seq<Event>, j: int)
    requires 0 <= j < |trace|
  {
    forall m :: j < m < |trace| ==> trace[m] != SawOn(true)
  }

  /** Every On write follows an Off of our own that nothing recorded has ended. */
  predicate OnlyOursUndone(trace: seq<Event>) {
    forall k :: 0 <= k < |trace| && trace[k] == WroteOn ==> OwnOffStands(trace[..k])
  }

  predicate Inv(w: World) {
    && OnlyOursUndone(w.trace)
    && (OursConfirmed(w.disk) ==> OwnOffStands(w.trace))
    && (w.memory.Some? ==> w.memory.value == w.disk)
  }

  lemma LogKeeps(trace: seq<Event>, e: Event)
    requires OnlyOursUndone(trace) && (e == WroteOn ==> OwnOffStands(trace))
    ensures OnlyOursUndone(trace + [e])
    ensures e == OffApplied || (OwnOffStands(trace) && e != SawOn(true)) ==> OwnOffStands(trace + [e])
  {
    var t := trace + [e];
    forall k | 0 <= k < |t| && t[k] == WroteOn ensures OwnOffStands(t[..k]) {
      assert t[..k] == trace[..k];
      if k == |trace| {
        assert trace[..k] == trace;
      }
    }
    if e == OffApplied {
      assert t[|trace|] == OffApplied && NoRecordedOn(t, |trace|);
    } else if OwnOffStands(trace) && e != SawOn(true) {
      var j :| 0 <= j < |trace| && trace[j] == OffApplied && NoRecordedOn(trace, j);
      assert t[j] == OffApplied && NoRecordedOn(t, j);
    }
  }

  lemma ReplacedKeeps(w: World, records: seq<Hold>, f: WriteFault)
    requires Inv(w) && w.memory.Some? && (OursConfirmed(records) ==> OwnOffStands(w.trace))
    ensures
      var (v, ok) := Replaced(w, records, f);
      Inv(v) && v.trace == w.trace && v.power == w.power && (ok ==> v.memory == Some(records) == Some(v.disk))
  {
  }

  lemma SightingKeeps(w: World, records: seq<Hold>, f: WriteFault)
    requires Inv(w) && w.memory.Some? && !OursConfirmed(records)
    ensures
      var (v, ok) := SightingSaved(w, records, f);
      Inv(v) && v.power == w.power && (ok ==> v.memory == Some(records) == Some(v.disk))
  {
    ReplacedKeeps(w, records, f);
    var saved := Replaced(w, records, f).0;
    LogKeeps(saved.trace, SawOn(!OursConfirmed(saved.disk)));
  }

  lemma PowerKeeps(w: World, target: Power, luck: Luck)
    requires Inv(w) && (target == On ==> OursConfirmed(w.disk))
    ensures
      var v := PowerWritten(w, target, luck).0;
      Inv(v) && v.disk == w.disk && v.memory == w.memory
  {
    if target == On {
      LogKeeps(w.trace, WroteOn);
    }
  }

  lemma ConfirmationIsPerRecord(records: seq<Hold>, x: ReconcileInput)
    ensures OursConfirmed(Releasing(records)) <==> OursConfirmed(records)
    ensures OursConfirmed(Refreshed(records, x.refresh)) <==> OursConfirmed(records)
    ensures OursConfirmed(Requests(records, x)) ==> OursConfirmed(records)
    ensures !OursConfirmed(Confirming(records, false))
  {
    SameClaims(records, Releasing(records));
    SameClaims(records, Refreshed(records, x.refresh));
    var moved := Each(records, (h: Hold) => Extended(h, x.windowEnd));
    SameClaims(records, moved);
    if OursConfirmed(Requests(records, x)) {
      var h :| h in Requests(records, x) && h.confirmed && h.owned;
      assert h in records || h in moved;
    }
  }

  lemma SameClaims(a: seq<Hold>, b: seq<Hold>)
    requires |a| == |b| && forall k :: 0 <= k < |a| ==> a[k].confirmed == b[k].confirmed && a[k].owned == b[k].owned
    ensures OursConfirmed(a) <==> OursConfirmed(b)
  {
    if OursConfirmed(a) {
      var h :| h in a && h.confirmed && h.owned;
      var k :| 0 <= k < |a| && a[k] == h;
      assert b[k] in b;
    }
    if OursConfirmed(b) {
      var h :| h in b && h.confirmed && h.owned;
      var k :| 0 <= k < |b| && b[k] == h;
      assert a[k] in a;
    }
  }

  lemma ReleaseKeeps(w: World, x: ReleaseInput)
    requires Inv(w)
    ensures Inv(Released(w, x))
  {
    if w.memory.Some? && w.memory.value != [] && !x.refused {
      var records := w.memory.value;
      var before := Reading(w, x.readable);
      assert !OursConfirmed([]);
      if before == Some(On) {
        SightingKeeps(w, [], x.f1);
      } else if before == Some(Off) && !OursConfirmed(records) {
        ReplacedKeeps(w, [], x.f1);
      } else if before.Some? && x.restored {
        SameClaims(records, Releasing(records));
        ReplacedKeeps(w, Releasing(records), x.f1);
        var (marked, saved) := Replaced(w, Releasing(records), x.f1);
        if saved {
          assert before.value == Off;
          assert marked.disk == Releasing(records);
          PowerKeeps(marked, On, x.luck);
          SightingKeeps(PowerWritten(marked, On, x.luck).0, [], x.f2);
        }
      }
    }
  }

  lemma HeldKeeps(w: World, records: seq<Hold>, x: ReconcileInput)
    requires Inv(w) && w.memory == Some(records)
    ensures Inv(Held(w, records, x))
  {
    var before := if x.polled == Some(Off) then Some(Off) else Reading(w, x.readable);
    var wanted := if before != Some(Off) || OursConfirmed(records) then Requests(records, x) else records;
    var asked := if before != Some(Off) then Confirming(wanted, false) else wanted;
    ConfirmationIsPerRecord(records, x);
    ConfirmationIsPerRecord(wanted, x);
    if asked != [] {
      if before == Some(On) {
        SightingKeeps(w, asked, x.f2);
      } else {
        ReplacedKeeps(w, asked, x.f2);
      }
      var (stored, saved) :=
        if before == Some(On) then SightingSaved(w, asked, x.f2) else Replaced(w, asked, x.f2);
      if saved && before == Some(Off) && OursConfirmed(asked) {
        ReplacedKeeps(stored, Confirming(asked, true), x.f3);
      } else if saved && before != Some(Off) {
        PowerKeeps(stored, Off, x.luck);
        var written := PowerWritten(stored, Off, x.luck).0;
        LogKeeps(written.trace, OffApplied);
        ReplacedKeeps(Log(written, OffApplied), Confirming(asked, true), x.f3);
      }
    }
  }

  lemma StepKeepsInv(w: World, s: Step)
    requires Inv(w)
    ensures Inv(Next(w, s))
  {
    match s
    case Reconcile(x) =>
      if w.memory.Some? {
        ConfirmationIsPerRecord(w.memory.value, x);
        var refreshed := Refreshed(w.memory.value, x.refresh);
        ReplacedKeeps(w, refreshed, x.f1);
        var (kept, saved) := Replaced(w, refreshed, x.f1);
        if saved {
          ReleaseKeeps(kept, x.release);
          HeldKeeps(kept, refreshed, x);
        }
      }
    case Release(r) => ReleaseKeeps(w, r);
    case Confirm(_, _) => assert !OursConfirmed([]);
    case _ =>
  }

  lemma {:induction false} RunKeepsInv(w: World, steps: seq<Step>)
    requires Inv(w)
    ensures Inv(Run(w, steps))
    decreases |steps|
  {
    if steps != [] {
      StepKeepsInv(w, steps[0]);
      RunKeepsInv(Next(w, steps[0]), steps[1..]);
    }
  }

  function Fresh(power: Option<Power>): World {
    World(power, [], Some([]), [])
  }

  /** Over every run of evaluations, releases, restarts, failed saves, repairs and owner actions,
      each On write undoes an Off that this system wrote and read back itself, with no
      recorded sighting of On in between. */
  lemma OnlyOwnOffsAreUndone(power: Option<Power>, steps: seq<Step>)
    ensures OnlyOursUndone(Run(Fresh(power), steps).trace)
  {
    RunKeepsInv(Fresh(power), steps);
  }

  predicate NothingLost(trace: seq<Event>) {
    forall k :: 0 <= k < |trace| ==> trace[k] != SawOn(false)
  }

  /** An On write at k follows an Off of our own with no sighting of On since. */
  predicate UndoesOurs(trace: seq<Event>, k: int)
    requires 0 <= k < |trace|
  {
    exists j :: 0 <= j < k && trace[j] == OffApplied && NoOnBetween(trace, j, k)
  }

  predicate NoOnBetween(trace: seq<Event>, j: int, k: int)
    requires 0 <= j < k <= |trace|
  {
    forall m :: j < m < k ==> !trace[m].SawOn?
  }

  /** The last Off of our own before k, or -1. */
  function LastOwnOff(trace: seq<Event>, k: nat): (j: int)
    requires k <= |trace|
    ensures -1 <= j < k && (j >= 0 ==> trace[j] == OffApplied)
    ensures forall m :: j < m < k ==> trace[m] != OffApplied
  {
    if k == 0 then -1 else if trace[k - 1] == OffApplied then k - 1 else LastOwnOff(trace, k - 1)
  }

  /** No sighting of On was lost between that Off and k. */
  predicate NothingLostSince(trace: seq<Event>, k: nat)
    requires k <= |trace|
  {
    forall m :: LastOwnOff(trace, k) < m < k ==> trace[m] != SawOn(false)
  }

  /** Over every run each On write undoes an Off of our own, with no sighting of On in
      between, exactly when no sighting was lost since the last Off of our own. */
  lemma UndoesOursExactlyWhen(power: Option<Power>, steps: seq<Step>, k: nat)
    requires var trace := Run(Fresh(power), steps).trace; k < |trace| && trace[k] == WroteOn
    ensures
      var trace := Run(Fresh(power), steps).trace;
      LastOwnOff(trace, k) >= 0 && (UndoesOurs(trace, k) <==> NothingLostSince(trace, k))
  {
    OnlyOwnOffsAreUndone(power, steps);
    var trace := Run(Fresh(power), steps).trace;
    var j :| 0 <= j < k && trace[..k][j] == OffApplied && NoRecordedOn(trace[..k], j);
    var l := LastOwnOff(trace, k);
    assert j <= l;
    if NothingLostSince(trace, k) {
      forall m | l < m < k ensures !trace[m].SawOn? {
        assert trace[..k][m] == trace[m];
      }
      assert NoOnBetween(trace, l, k);
    }
  }

  /** With every sighting saved, no On write has any sighting of On behind it since our
      Off: what the release path promises. */
  lemma SavedSightingsAreBinding(power: Option<Power>, steps: seq<Step>)
    ensures
      var trace := Run(Fresh(power), steps).trace;
      NothingLost(trace) ==>
        forall k :: 0 <= k < |trace| && trace[k] == WroteOn ==> UndoesOurs(trace, k)
  {
    var trace := Run(Fresh(power), steps).trace;
    forall k | 0 <= k < |trace| && trace[k] == WroteOn && NothingLost(trace) ensures UndoesOurs(trace, k) {
      UndoesOursExactlyWhen(power, steps, k);
    }
  }

  const GOOD := Luck(true, true, true, true, _ => true)

  const PASSIVE := ReleaseInput(false, true, true, true, Clean, Clean, GOOD)

  function Evaluation(evWanted: bool, readable: bool, f2: WriteFault): ReconcileInput {
    ReconcileInput((h: Hold) => (h.pendingRelease, h.trustedEnd), evWanted, None, 0,
                   false, None, readable, Clean, f2, Clean, GOOD, PASSIVE)
  }

  const HANDOVER := ReleaseInput(true, false, true, true, Clean, Clean, GOOD)

  /** The condition is needed: an On whose record could not be saved is forgotten by a
      restart, and the Off the owner made after it is then taken for ours. */
  lemma ALostSightingUndoesTheOwner()
    ensures
      var claimed := Next(Fresh(Some(On)), Reconcile(Evaluation(true, true, Clean)));
      var lost := Next(Next(claimed, OwnerSwitches(Some(On))), Reconcile(Evaluation(true, true, FailsBefore)));
      var end := Next(Next(Next(lost, Restart), OwnerSwitches(Some(Off))), Release(HANDOVER));
      end.trace == [SawOn(true), OffApplied, SawOn(false), WroteOn, SawOn(true)] && end.power == Some(On)
  {
    var held := [Hold(Ev, true, true, false, None)];
    var first, second := Evaluation(true, true, Clean), Evaluation(true, true, FailsBefore);
    FirstEvaluation(first);
    var claimed := Next(Fresh(Some(On)), Reconcile(first));
    var w := World(Some(On), held, Some(held), [SawOn(true), OffApplied]);
    assert Next(claimed, OwnerSwitches(Some(On))) == w;
    LostEvaluation(second);
    var lost := Next(w, Reconcile(second));
    AfterTheLoss(lost);
  }

  lemma AfterTheLoss(lost: World)
    requires lost == World(Some(On), [Hold(Ev, true, true, false, None)], None, [SawOn(true), OffApplied, SawOn(false)])
    ensures
      var end := Next(Next(Next(lost, Restart), OwnerSwitches(Some(Off))), Release(HANDOVER));
      end.trace == [SawOn(true), OffApplied, SawOn(false), WroteOn, SawOn(true)] && end.power == Some(On)
  {
    HandoverRelease(lost.trace);
  }

  /** The next evaluation sees On, and cannot save that it did. */
  lemma LostEvaluation(y: ReconcileInput)
    requires y == Evaluation(true, true, FailsBefore)
    ensures
      var held := [Hold(Ev, true, true, false, None)];
      var w := World(Some(On), held, Some(held), [SawOn(true), OffApplied]);
      Next(w, Reconcile(y)) == World(Some(On), held, None, [SawOn(true), OffApplied, SawOn(false)])
  {
    var held := [Hold(Ev, true, true, false, None)];
    assert Refreshed(held, y.refresh) == held;
    assert held[0] in held;
    assert Requests(held, y) == held;
    assert Confirming(held, false) == [Hold(Ev, false, true, false, None)];
  }

  /** A release that finds Off, under a record that claims it. */
  lemma HandoverRelease(trace: seq<Event>)
    ensures
      var held := [Hold(Ev, true, true, false, None)];
      Released(World(Some(Off), held, Some(held), trace), HANDOVER)
        == World(Some(On), [], Some([]), trace + [WroteOn] + [SawOn(true)])
  {
    var held := [Hold(Ev, true, true, false, None)];
    assert held[0] in held;
    assert Releasing(held) == [Hold(Ev, true, true, true, None)];
    assert Heard(GOOD, 3);
  }

  lemma FirstEvaluation(x: ReconcileInput)
    requires x == Evaluation(true, true, Clean)
    ensures
      var held := [Hold(Ev, true, true, false, None)];
      Next(Fresh(Some(On)), Reconcile(x)) == World(Some(Off), held, Some(held), [SawOn(true), OffApplied])
  {
    assert Refreshed([], x.refresh) == [];
    assert Requests([], x) == [Hold(Ev, false, true, false, None)];
    assert Confirming(Requests([], x), false) == Requests([], x);
    assert Confirming(Requests([], x), true) == [Hold(Ev, true, true, false, None)];
    assert Heard(GOOD, 3);
  }

  // ---------------------------------------------------------------- an Off found

  /** Some read of the evaluation shows an existing Off, and nobody switches it on. */
  predicate OffShows(s: Step) {
    match s
    case Reconcile(x) => x.polled == Some(Off) || x.readable || x.luck.readable
    case OwnerSwitches(p) => p == Some(Off)
    case _ => true
  }

  predicate FoundOff(w: World) {
    w.power == Some(Off) && !OursConfirmed(w.disk) && (w.memory.Some? ==> w.memory.value == w.disk)
  }

  lemma ReleaseLeavesFoundOff(w: World, x: ReleaseInput)
    requires FoundOff(w)
    ensures var v := Released(w, x); FoundOff(v) && v.trace == w.trace
  {
    assert !OursConfirmed([]);
  }

  lemma HeldLeavesFoundOff(w: World, records: seq<Hold>, x: ReconcileInput)
    requires FoundOff(w) && w.memory == Some(records) && OffShows(Reconcile(x))
    ensures var v := Held(w, records, x); FoundOff(v) && v.trace == w.trace
  {
    ConfirmationIsPerRecord(records, x);
    ConfirmationIsPerRecord(Requests(records, x), x);
    if x.polled != Some(Off) && !x.readable {
      var asked := Confirming(Requests(records, x), false);
      var stored := Replaced(w, asked, x.f2).0;
      assert PowerWritten(stored, Off, x.luck) == (stored, NoChange);
    }
  }

  lemma FoundOffStands(w: World, s: Step)
    requires FoundOff(w) && OffShows(s)
    ensures var v := Next(w, s); FoundOff(v) && v.trace == w.trace
  {
    match s
    case Reconcile(x) =>
      if w.memory.Some? {
        var refreshed := Refreshed(w.memory.value, x.refresh);
        ConfirmationIsPerRecord(w.memory.value, x);
        var (kept, saved) := Replaced(w, refreshed, x.f1);
        if saved {
          ReleaseLeavesFoundOff(kept, x.release);
          HeldLeavesFoundOff(kept, refreshed, x);
        }
      }
    case Release(r) => ReleaseLeavesFoundOff(w, r);
    case Confirm(_, _) => assert !OursConfirmed([]);
    case _ =>
  }

  /** An Off that was there before, or an unconfirmed request found Off after a restart,
      is never turned On however evaluations, releases, failed saves and restarts follow,
      as long as each evaluation manages to read it once. */
  lemma {:induction false} FoundOffIsNeverTurnedOn(w: World, steps: seq<Step>)
    requires FoundOff(w) && forall k :: 0 <= k < |steps| ==> OffShows(steps[k])
    ensures var v := Run(w, steps); FoundOff(v) && v.trace == w.trace
    decreases |steps|
  {
    if steps != [] {
      FoundOffStands(w, steps[0]);
      FoundOffIsNeverTurnedOn(Next(w, steps[0]), steps[1..]);
    }
  }

  /** Whatever else goes well, an Off found on the switch is later turned On exactly when
      both reads of one evaluation failed: the Off written into an unreadable switch is
      then read back and counted as ours. */
  lemma FoundOffIsTurnedOnIff(x: ReconcileInput)
    requires x.evWanted && x.windowEnd.None? && !x.refused && x.f1 == x.f2 == x.f3 == Clean
    requires x.luck.allowed && x.luck.accepted && Heard(x.luck, 3)
    ensures
      var end := Released(Reconciled(Fresh(Some(Off)), x), HANDOVER);
      (end.power == Some(On) <==> !OffShows(Reconcile(x))) && (WroteOn in end.trace <==> !OffShows(Reconcile(x)))
  {
    var w := Fresh(Some(Off));
    assert Refreshed([], x.refresh) == [];
    if OffShows(Reconcile(x)) {
      FoundOffStands(w, Reconcile(x));
      FoundOffStands(Reconciled(w, x), Release(HANDOVER));
    } else {
      UnreadEvaluation(x);
      HandoverRelease([OffApplied]);
      assert ([OffApplied] + [WroteOn] + [SawOn(true)])[1] == WroteOn;
    }
  }

  /** Neither read of the evaluation shows the Off that is there. */
  lemma UnreadEvaluation(x: ReconcileInput)
    requires x.evWanted && x.windowEnd.None? && !x.refused && x.f1 == x.f2 == x.f3 == Clean
    requires x.luck.allowed && x.luck.accepted && Heard(x.luck, 3) && !OffShows(Reconcile(x))
    ensures
      var held := [Hold(Ev, true, true, false, None)];
      Reconciled(Fresh(Some(Off)), x) == World(Some(Off), held, Some(held), [OffApplied])
  {
    assert Refreshed([], x.refresh) == [];
    UnreadHold(x);
  }

  lemma UnreadHold(x: ReconcileInput)
    requires x.evWanted && x.windowEnd.None? && x.f2 == x.f3 == Clean
    requires x.luck.allowed && x.luck.accepted && Heard(x.luck, 3) && !OffShows(Reconcile(x))
    ensures
      var held := [Hold(Ev, true, true, false, None)];
      Held(Fresh(Some(Off)), [], x) == World(Some(Off), held, Some(held), [OffApplied])
  {
    var asked := [Hold(Ev, false, true, false, None)];
    assert Requests([], x) == asked == Confirming(asked, false);
    assert Confirming(asked, true) == [Hold(Ev, true, true, false, None)];
    UnreadWrite(World(Some(Off), asked, Some(asked), []), x.luck);
  }

  lemma UnreadWrite(stored: World, luck: Luck)
    requires stored.power == Some(Off) && luck.allowed && luck.accepted && Heard(luck, 3) && !luck.readable
    ensures PowerWritten(stored, Off, luck) == (stored, AppliedPower)
  {
  }

  // ---------------------------------------------------------------- the object

  class NativeHolds {
    var power: Option<Power>
    var disk: seq<Hold>
    var memory: Option<seq<Hold>>
    ghost var trace: seq<Event>

    ghost function View(): World
      reads this
    {
      World(power, disk, memory, trace)
    }

    constructor (power: Option<Power>)
      ensures View() == Fresh(power)
    {
      this.power, disk, memory, trace := power, [], Some([]), [];
    }

    method Replace(records: seq<Hold>, f: WriteFault) returns (saved: bool)
      requires memory.Some?
      modifies this
      ensures (View(), saved) == Replaced(old(View()), records, f)
    {
      if records == memory.value {
        return true;
      }
      if f != FailsBefore {
        disk := records;
      }
      if f != Clean {
        memory := None;
        return false;
      }
      memory := Some(records);
      saved := true;
    }

    method SaveSighting(records: seq<Hold>, f: WriteFault) returns (saved: bool)
      requires memory.Some?
      modifies this
      ensures (View(), saved) == SightingSaved(old(View()), records, f)
    {
      saved := Replace(records, f);
      trace := trace + [SawOn(!OursConfirmed(disk))];
    }

    /** One pre-read, one write, then up to three verifying reads. */
    method WritePower(target: Power, luck: Luck) returns (outcome: PowerOutcome)
      modifies this
      ensures (View(), outcome) == PowerWritten(old(View()), target, luck)
    {
      var before := if luck.readable then power else None;
      if target == On && before.None? {
        return UnreadablePower;
      }
      if before == Some(target) {
        return NoChange;
      }
      if !luck.allowed {
        return RefusedPower;
      }
      if target == On {
        trace := trace + [WroteOn];
      }
      if luck.landed {
        power := Some(target);
      }
      if !luck.accepted {
        return FailedPower;
      }
      var attempt := 0;
      while attempt < 3
        invariant attempt <= 3
        invariant !(power == Some(target) && Heard(luck, attempt))
      {
        var after := if luck.answers(attempt) then power else None;
        if after == Some(target) {
          HeardStays(luck, attempt + 1, 3);
          return AppliedPower;
        }
        attempt := attempt + 1;
      }
      outcome := UnverifiedPower;
    }

    method Release(x: ReleaseInput)
      modifies this
      ensures View() == Released(old(View()), x)
    {
      if memory.None? || memory.value == [] || x.refused {
        return;
      }
      var records := memory.value;
      var before := if x.readable then power else None;
      if before == Some(On) {
        var _ := SaveSighting([], x.f1);
        return;
      }
      if before == Some(Off) && !OursConfirmed(records) {
        if x.handover || forall h :: h in records ==> h.pendingRelease {
          var _ := Replace([], x.f1);
        }
        return;
      }
      if before.None? || !x.restored {
        return;
      }
      var saved := Replace(Releasing(records), x.f1);
      if !saved {
        return;
      }
      var outcome := WritePower(On, x.luck);
      if outcome == AppliedPower || outcome == NoChange {
        var _ := SaveSighting([], x.f2);
      }
    }

    /** Bring each record up to date with the evidence, one at a time. */
    method Refresh(records: seq<Hold>, refresh: Hold -> (bool, Option<int>)) returns (updated: seq<Hold>)
      ensures updated == Refreshed(records, refresh)
    {
      updated := [];
      for k := 0 to |records|
        invariant updated == Refreshed(records, refresh)[..k]
      {
        var h := records[k];
        updated := updated + [h.(pendingRelease := refresh(h).0, trustedEnd := refresh(h).1)];
      }
    }

    method Reconcile(x: ReconcileInput)
      modifies this
      ensures View() == Reconciled(old(View()), x)
    {
      if memory.None? {
        return;
      }
      var records := Refresh(memory.value, x.refresh);
      var saved := Replace(records, x.f1);
      if !saved {
        return;
      }
      if !x.evWanted && x.windowEnd.None? && !(exists h :: h in records && Active(h, x.now)) {
        Release(x.release);
      } else if !x.refused {
        Keep(records, x);
      }
    }

    method Keep(records: seq<Hold>, x: ReconcileInput)
      requires memory == Some(records)
      modifies this
      ensures View() == Held(old(View()), records, x)
    {
      var before := x.polled;
      if before != Some(Off) {
        before := if x.readable then power else None;
      }
      var asked := records;
      if before != Some(Off) || OursConfirmed(records) {
        asked := Requests(records, x);
      }
      if before != Some(Off) {
        asked := Confirming(asked, false);
      }
      if asked == [] {
        return;
      }
      var saved: bool;
      if before == Some(On) {
        saved := SaveSighting(asked, x.f2);
      } else {
        saved := Replace(asked, x.f2);
      }
      if !saved {
        return;
      }
      if before == Some(Off) {
        if OursConfirmed(asked) {
          var _ := Replace(Confirming(asked, true), x.f3);
        }
        return;
      }
      var outcome := WritePower(Off, x.luck);
      if outcome == AppliedPower {
        trace := trace + [OffApplied];
        var _ := Replace(Confirming(asked, true), x.f3);
      }
    }

    method Confirm(f1: WriteFault, f2: WriteFault)
      modifies this
      ensures View() == Next(old(View()), Step.Confirm(f1, f2))
    {
      if memory.None? && f1 != FailsBefore {
        disk := [];
        memory := if f1 == Clean && f2 == Clean then Some([]) else None;
      }
    }

    method Restart()
      modifies this
      ensures View() == Next(old(View()), Step.Restart)
    {
      memory := Some(disk);
    }
  }

  lemma {:induction false} HeardStays(luck: Luck, m: nat, n: nat)
    requires Heard(luck, m) && m <= n
    ensures Heard(luck, n)
    decreases n
  {
    if m < n {
      HeardStays(luck, m, n - 1);
    }
  }
}
