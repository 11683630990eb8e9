/** When an evaluation ends a hold and when it keeps one, where the bus answers and every
    save succeeds. */
module HoldRelease {
  import opened Basics
  import opened PowerHold

  /** Every save succeeds, every read is answered and every write lands and reads back. */
  predicate Calm(x: ReconcileInput) {
    && x.f1 == Clean && x.f2 == Clean && x.f3 == Clean && !x.refused && x.readable && x.polled.None?
    && Serves(x.luck) && CalmRelease(x.release)
  }

  predicate CalmRelease(r: ReleaseInput) {
    r.f1 == Clean && r.f2 == Clean && !r.refused && r.readable && r.restored && Serves(r.luck)
  }

  predicate Serves(luck: Luck) {
    luck.readable && luck.allowed && luck.accepted && luck.landed && luck.answers(0)
  }

  predicate NothingNew(x: ReconcileInput) {
    !x.evWanted && x.windowEnd.None?
  }

  /** What is on disk is remembered. */
  predicate Published(w: World) {
    w.memory == Some(w.disk)
  }

  /** The evidence has ended what this record was for. */
  predicate IsOver(h: Hold, x: ReconcileInput) {
    x.refresh(h).0
  }

  /** By the evidence its dispatch runs past now. */
  predicate RunsOn(h: Hold, x: ReconcileInput) {
    h.cause == Dispatch && x.refresh(h).1.Some? && x.now < x.refresh(h).1.value
  }

  /** These are the same records, brought up to date with the evidence. */
  predicate Updates(records: seq<Hold>, now: seq<Hold>, x: ReconcileInput) {
    && |now| == |records|
    && forall k :: 0 <= k < |now| ==>
         && now[k].pendingRelease == IsOver(records[k], x) && now[k].trustedEnd == x.refresh(records[k]).1
         && now[k].cause == records[k].cause && now[k].owned == records[k].owned
  }

  predicate AllConfirmed(records: seq<Hold>, c: bool) {
    forall k :: 0 <= k < |records| ==> records[k].confirmed == c
  }

  lemma OneAnswerIsEnough(luck: Luck)
    requires Serves(luck)
    ensures Heard(luck, 3)
  {
    assert Heard(luck, 1) && Heard(luck, 2);
  }

  lemma RefreshedUpdates(records: seq<Hold>, x: ReconcileInput)
    ensures Updates(records, Refreshed(records, x.refresh), x)
    ensures forall c :: AllConfirmed(records, c) ==> AllConfirmed(Refreshed(records, x.refresh), c)
    ensures OursConfirmed(Refreshed(records, x.refresh)) <==> OursConfirmed(records)
  {
    ConfirmationIsPerRecord(records, x);
  }

  lemma NothingNewRequests(records: seq<Hold>, x: ReconcileInput)
    requires NothingNew(x)
    ensures Requests(records, x) == records
  {
  }

  // ---------------------------------------------------------------- one write, one save

  /** One of the three verifying reads is answered. */
  predicate Answers(luck: Luck) {
    luck.answers(0) || luck.answers(1) || luck.answers(2)
  }

  lemma HeardIsAnswered(luck: Luck)
    ensures Heard(luck, 3) <==> Answers(luck)
  {
    assert Heard(luck, 1) == luck.answers(0);
    assert Heard(luck, 2) == (luck.answers(1) || Heard(luck, 1));
  }

  /** The write is sent: it is allowed, and no pre-read makes it needless or, for an On, is
      missing. */
  predicate IsSent(w: World, target: Power, luck: Luck) {
    && luck.allowed && !(luck.readable && w.power == Some(target))
    && (target == On ==> luck.readable && w.power.Some?)
  }

  /** What a write does and what it answers: the switch moves exactly where it is sent and
      lands, and it counts as applied exactly where it was accepted and one read shows the
      target. */
  lemma WriteAnswersExactlyWhen(w: World, target: Power, luck: Luck)
    ensures
      var (v, outcome) := PowerWritten(w, target, luck);
      var sent := IsSent(w, target, luck);
      && v == w.(power := if sent && luck.landed then Some(target) else w.power,
                 trace := if sent && target == On then w.trace + [WroteOn] else w.trace)
      && (outcome == NoChange <==> luck.readable && w.power == Some(target))
      && (outcome == UnreadablePower <==> target == On && (!luck.readable || w.power.None?))
      && (outcome in {FailedPower, AppliedPower, UnverifiedPower} <==> sent)
      && (outcome == FailedPower <==> sent && !luck.accepted)
      && (outcome == AppliedPower <==> sent && luck.accepted && v.power == Some(target) && Answers(luck))
  {
    HeardIsAnswered(luck);
  }

  /** Records that do not change need no save; any others are published exactly when their
      save is clean, and a save that is not takes the memory away. */
  lemma SavedExactlyWhen(w: World, records: seq<Hold>, f: WriteFault)
    requires w.memory.Some?
    ensures
      var (v, saved) := Replaced(w, records, f);
      && (saved <==> w.memory == Some(records) || f == Clean) && (w.memory == Some(records) ==> v == w)
      && v.memory == (if saved then Some(records) else None)
      && (v.power, v.trace) == (w.power, w.trace)
      && (w.memory != Some(records) ==> v.disk == if f == FailsBefore then w.disk else records)
  {
  }

  /** The release of our own Off: once its records are marked, the On that is sent ends
      them exactly when it was applied. Any other outcome keeps every one, marked. */
  lemma ReleaseEndsExactlyWhen(w: World, r: ReleaseInput)
    requires Published(w) && OursConfirmed(w.disk) && w.power == Some(Off)
    requires !r.refused && r.readable && r.restored && r.f1 == Clean && r.f2 == Clean
    ensures
      var v := Released(w, r);
      var sent := r.luck.readable && r.luck.allowed;
      && v.power == Some(if sent && r.luck.landed then On else Off) && Published(v)
      && if sent && r.luck.accepted && r.luck.landed && Answers(r.luck)
         then v.disk == [] && v.trace == w.trace + [WroteOn, SawOn(true)]
         else v.disk == Releasing(w.disk) && v.trace == if sent then w.trace + [WroteOn] else w.trace
  {
    var marked := w.(disk := Releasing(w.disk), memory := Some(Releasing(w.disk)));
    assert Replaced(w, Releasing(w.disk), Clean) == (marked, true);
    WriteAnswersExactlyWhen(marked, On, r.luck);
    assert !OursConfirmed([]);
    assert (w.trace + [WroteOn]) + [SawOn(true)] == w.trace + [WroteOn, SawOn(true)];
  }

  /** An evaluation that is refused on both halves moves nothing, and the switch is never
      written. */
  lemma RefusedMovesNothing(w: World, x: ReconcileInput)
    requires x.refused && x.release.refused
    ensures var v := Reconciled(w, x); v.power == w.power && v.trace == w.trace
  {
  }

  /** The repair forgets the records of a memory that is gone, once the new store is
      written; it publishes them as none exactly when its marker is too. */
  lemma ConfirmForgetsExactlyWhen(w: World, f1: WriteFault, f2: WriteFault)
    ensures
      var v := Next(w, Step.Confirm(f1, f2));
      && (w.memory.Some? || f1 == FailsBefore ==> v == w)
      && (w.memory.None? && f1 != FailsBefore ==>
          && v.disk == [] && (v.power, v.trace) == (w.power, w.trace)
          && v.memory == if f1 == Clean && f2 == Clean then Some([]) else None)
  {
  }

  // ---------------------------------------------------------------- our own Off

  /** A clean release of our own Off. */
  lemma ReleaseUndoesOurs(w: World, r: ReleaseInput)
    requires Published(w) && OursConfirmed(w.disk) && w.power == Some(Off) && CalmRelease(r)
    ensures Released(w, r) == World(Some(On), [], Some([]), w.trace + [WroteOn, SawOn(true)])
  {
    SameClaims(w.disk, Releasing(w.disk));
    OneAnswerIsEnough(r.luck);
    var marked := w.(disk := Releasing(w.disk), memory := Some(Releasing(w.disk)));
    assert Replaced(w, Releasing(w.disk), Clean) == (marked, true);
    assert !OursConfirmed([]);
    assert (w.trace + [WroteOn]) + [SawOn(true)] == w.trace + [WroteOn, SawOn(true)];
  }

  lemma KeepStands(w: World, x: ReconcileInput)
    requires Published(w) && OursConfirmed(w.disk) && w.power == Some(Off) && Calm(x) && NothingNew(x)
    ensures
      var held := Confirming(w.disk, true);
      Held(w, w.disk, x) == World(Some(Off), held, Some(held), w.trace)
  {
    NothingNewRequests(w.disk, x);
  }

  /** Some owned record still needs the Off: its evidence has not ended it, and it was
      confirmed or its dispatch runs on. */
  predicate StillNeeds(records: seq<Hold>, x: ReconcileInput) {
    exists k :: 0 <= k < |records| && records[k].owned && !IsOver(records[k], x)
                && (records[k].confirmed || RunsOn(records[k], x))
  }

  lemma ActiveExactlyWhenNeeded(records: seq<Hold>, x: ReconcileInput)
    ensures (exists h :: h in Refreshed(records, x.refresh) && Active(h, x.now)) <==> StillNeeds(records, x)
  {
    var refreshed := Refreshed(records, x.refresh);
    if h :| h in refreshed && Active(h, x.now) {
      var k :| 0 <= k < |refreshed| && refreshed[k] == h;
      assert records[k].owned && !IsOver(records[k], x);
    }
    if StillNeeds(records, x) {
      var k :| 0 <= k < |records| && records[k].owned && !IsOver(records[k], x)
               && (records[k].confirmed || RunsOn(records[k], x));
      assert refreshed[k] in refreshed && Active(refreshed[k], x.now);
    }
  }

  /** Over an Off of our own and with nothing newly wanted, an evaluation turns the switch
      On and drops the records exactly when none still needs it. Otherwise it keeps them,
      confirmed and up to date, and writes nothing. */
  lemma ReleasedExactlyWhenOver(w: World, x: ReconcileInput)
    requires Published(w) && OursConfirmed(w.disk) && w.power == Some(Off) && Calm(x) && NothingNew(x)
    ensures
      var v := Reconciled(w, x);
      if StillNeeds(w.disk, x)
      then
        && v.power == Some(Off) && Published(v) && v.trace == w.trace
        && Updates(w.disk, v.disk, x) && AllConfirmed(v.disk, true)
      else v == World(Some(On), [], Some([]), w.trace + [WroteOn, SawOn(true)])
  {
    RefreshedUpdates(w.disk, x);
    ActiveExactlyWhenNeeded(w.disk, x);
    var refreshed := Refreshed(w.disk, x.refresh);
    var kept := w.(disk := refreshed, memory := Some(refreshed));
    assert Replaced(w, refreshed, Clean) == (kept, true);
    if StillNeeds(w.disk, x) {
      KeepStands(kept, x);
    } else {
      ReleaseUndoesOurs(kept, x.release);
    }
  }

  /** With every record confirmed, as every clean evaluation leaves them, only their own
      evidence counts: the Off is undone exactly when each owned one is over. */
  lemma ConfirmedReleasedExactlyWhenOver(w: World, x: ReconcileInput)
    requires Published(w) && OursConfirmed(w.disk) && AllConfirmed(w.disk, true) && w.power == Some(Off)
    requires Calm(x) && NothingNew(x)
    ensures
      var v := Reconciled(w, x);
      if forall k :: 0 <= k < |w.disk| && w.disk[k].owned ==> IsOver(w.disk[k], x)
      then v == World(Some(On), [], Some([]), w.trace + [WroteOn, SawOn(true)])
      else
        && v.power == Some(Off) && Published(v) && v.trace == w.trace
        && Updates(w.disk, v.disk, x) && AllConfirmed(v.disk, true)
  {
    ReleasedExactlyWhenOver(w, x);
  }

  // ---------------------------------------------------------------- not yet confirmed

  /** Requests never confirmed, over a switch that is On: the Off is written and confirmed
      exactly when an owned dispatch is not over and runs past now. Otherwise they are
      dropped, and the switch is left On. */
  lemma UnconfirmedHeldExactlyWhile(w: World, x: ReconcileInput)
    requires Published(w) && w.disk != [] && AllConfirmed(w.disk, false) && w.power == Some(On)
    requires Calm(x) && NothingNew(x)
    ensures
      var v := Reconciled(w, x);
      if exists k :: 0 <= k < |w.disk| && w.disk[k].owned && !IsOver(w.disk[k], x) && RunsOn(w.disk[k], x)
      then
        && v.power == Some(Off) && Published(v) && v.trace == w.trace + [SawOn(true), OffApplied]
        && Updates(w.disk, v.disk, x) && AllConfirmed(v.disk, true)
      else v == World(Some(On), [], Some([]), w.trace + [SawOn(true)])
  {
    RefreshedUpdates(w.disk, x);
    ActiveExactlyWhenNeeded(w.disk, x);
    var refreshed := Refreshed(w.disk, x.refresh);
    var kept := w.(disk := refreshed, memory := Some(refreshed));
    assert Replaced(w, refreshed, Clean) == (kept, true);
    assert !OursConfirmed(refreshed) && !OursConfirmed([]);
    if StillNeeds(w.disk, x) {
      NothingNewRequests(refreshed, x);
      WrittenOverOn(kept, refreshed, x);
    } else {
      assert kept.memory.value != [];
    }
  }

  /** A clean Off over a switch that is On. */
  lemma WrittenOverOn(w: World, asked: seq<Hold>, x: ReconcileInput)
    requires Published(w) && w.power == Some(On) && Calm(x)
    requires asked != [] && Confirming(Requests(w.disk, x), false) == Confirming(asked, false)
    ensures
      var held := Confirming(asked, true);
      Held(w, w.disk, x) == World(Some(Off), held, Some(held), w.trace + [SawOn(true), OffApplied])
  {
    var unconfirmed := Confirming(asked, false);
    assert !OursConfirmed(unconfirmed);
    OneAnswerIsEnough(x.luck);
    assert Confirming(unconfirmed, true) == Confirming(asked, true);
    assert (w.trace + [SawOn(true)]) + [OffApplied] == w.trace + [SawOn(true), OffApplied];
  }

  /** Requests never confirmed, over a switch that is Off: that Off is not ours, and it
      stands. They are dropped exactly when each is over and none runs on. */
  lemma UnconfirmedOverOffStands(w: World, x: ReconcileInput)
    requires Published(w) && AllConfirmed(w.disk, false) && w.power == Some(Off)
    requires Calm(x) && NothingNew(x) && !x.release.handover
    ensures
      var v := Reconciled(w, x);
      && v.power == Some(Off) && Published(v) && v.trace == w.trace
      && if forall k :: 0 <= k < |w.disk| ==> IsOver(w.disk[k], x) then v.disk == []
         else Updates(w.disk, v.disk, x) && AllConfirmed(v.disk, false)
  {
    RefreshedUpdates(w.disk, x);
    var refreshed := Refreshed(w.disk, x.refresh);
    var kept := w.(disk := refreshed, memory := Some(refreshed));
    assert Replaced(w, refreshed, Clean) == (kept, true);
    assert !OursConfirmed(refreshed);
    assert forall k :: 0 <= k < |w.disk| && IsOver(w.disk[k], x) ==> !Active(refreshed[k], x.now);
    assert (forall h :: h in refreshed ==> h.pendingRelease) <==>
      forall k :: 0 <= k < |w.disk| ==> IsOver(w.disk[k], x);
  }

  // ---------------------------------------------------------------- wanted

  predicate IsRequested(records: seq<Hold>, cause: Cause) {
    exists k :: 0 <= k < |records| && records[k].cause == cause
  }

  /** Each dispatch record is for this end and not over. */
  predicate DispatchesEnd(records: seq<Hold>, end: int) {
    forall k :: 0 <= k < |records| && records[k].cause == Dispatch ==>
      records[k].trustedEnd == Some(end) && !records[k].pendingRelease
  }

  /** The records as they were, and those that are wanted: none is lost, a cause is added
      only where it is wanted, and a dispatch runs to the end that is wanted now. */
  predicate Serve(records: seq<Hold>, now: seq<Hold>, x: ReconcileInput) {
    && |records| <= |now|
    && (forall k :: 0 <= k < |records| ==> now[k].cause == records[k].cause && now[k].owned == records[k].owned)
    && (forall k :: |records| <= k < |now| ==> now[k].owned && !now[k].pendingRelease)
    && (forall k :: |records| <= k < |now| ==> !IsRequested(records, now[k].cause))
    && (IsRequested(now, Ev) <==> x.evWanted || IsRequested(records, Ev))
    && (IsRequested(now, Dispatch) <==> x.windowEnd.Some? || IsRequested(records, Dispatch))
    && (x.windowEnd.Some? ==> DispatchesEnd(now, x.windowEnd.value))
  }

  /** What the wanted window does not move follows the evidence. */
  predicate FollowsEvidence(records: seq<Hold>, now: seq<Hold>, x: ReconcileInput) {
    && |records| <= |now|
    && forall k :: 0 <= k < |records| && (records[k].cause == Ev || x.windowEnd.None?) ==>
         now[k].pendingRelease == IsOver(records[k], x) && now[k].trustedEnd == x.refresh(records[k]).1
  }

  lemma IsRequestedAt(records: seq<Hold>, k: nat)
    requires k < |records|
    ensures IsRequested(records, records[k].cause)
  {
  }

  lemma SameCauses(a: seq<Hold>, b: seq<Hold>, cause: Cause)
    requires |a| <= |b| && forall k :: 0 <= k < |a| ==> a[k].cause == b[k].cause
    requires forall k :: |a| <= k < |b| ==> b[k].cause != cause
    ensures IsRequested(b, cause) <==> IsRequested(a, cause)
  {
    if k :| 0 <= k < |a| && a[k].cause == cause {
      IsRequestedAt(b, k);
    }
  }

  lemma RequestsServe(records: seq<Hold>, x: ReconcileInput)
    ensures Serve(records, Requests(records, x), x)
    ensures forall k :: 0 <= k < |records| && (records[k].cause == Ev || x.windowEnd.None?) ==>
      Requests(records, x)[k] == records[k]
  {
    var r := Requests(records, x);
    assert forall cause :: HasCause(records, cause) <==> IsRequested(records, cause);
    RequestsEv(records, x, r);
    RequestsDispatch(records, x, r);
  }

  lemma RequestsEv(records: seq<Hold>, x: ReconcileInput, r: seq<Hold>)
    requires r == Requests(records, x)
    ensures IsRequested(r, Ev) <==> x.evWanted || IsRequested(records, Ev)
  {
    assert HasCause(records, Ev) <==> IsRequested(records, Ev);
    if x.evWanted && !HasCause(records, Ev) {
      assert r[|records|].cause == Ev;
      IsRequestedAt(r, |records|);
    } else {
      SameCauses(records, r, Ev);
    }
  }

  lemma RequestsDispatch(records: seq<Hold>, x: ReconcileInput, r: seq<Hold>)
    requires r == Requests(records, x)
    ensures IsRequested(r, Dispatch) <==> x.windowEnd.Some? || IsRequested(records, Dispatch)
  {
    assert HasCause(records, Dispatch) <==> IsRequested(records, Dispatch);
    if x.windowEnd.Some? && !HasCause(records, Dispatch) {
      assert r[|r| - 1].cause == Dispatch;
      IsRequestedAt(r, |r| - 1);
    } else {
      SameCauses(records, r, Dispatch);
    }
  }

  /** Over a switch that is On, what is wanted is recorded, written and confirmed. */
  lemma WantedIsHeld(w: World, x: ReconcileInput)
    requires Published(w) && w.power == Some(On) && Calm(x) && !NothingNew(x)
    ensures
      var v := Reconciled(w, x);
      && v.power == Some(Off) && Published(v) && v.trace == w.trace + [SawOn(true), OffApplied]
      && Serve(w.disk, v.disk, x) && FollowsEvidence(w.disk, v.disk, x) && AllConfirmed(v.disk, true)
  {
    var refreshed := Refreshed(w.disk, x.refresh);
    var kept := w.(disk := refreshed, memory := Some(refreshed));
    assert Replaced(w, refreshed, Clean) == (kept, true);
    RefreshedServes(w.disk, x);
    WrittenOverOn(kept, Requests(refreshed, x), x);
    ConfirmedServes(w.disk, Requests(refreshed, x), x);
  }

  lemma RefreshedServes(records: seq<Hold>, x: ReconcileInput)
    requires !NothingNew(x)
    ensures Serve(records, Requests(Refreshed(records, x.refresh), x), x)
    ensures FollowsEvidence(records, Requests(Refreshed(records, x.refresh), x), x)
    ensures Requests(Refreshed(records, x.refresh), x) != []
  {
    var refreshed := Refreshed(records, x.refresh);
    RequestsServe(refreshed, x);
    SameCauses(records, refreshed, Ev);
    SameCauses(records, refreshed, Dispatch);
  }

  lemma ConfirmedServes(records: seq<Hold>, asked: seq<Hold>, x: ReconcileInput)
    requires Serve(records, asked, x) && FollowsEvidence(records, asked, x)
    ensures Serve(records, Confirming(asked, true), x) && FollowsEvidence(records, Confirming(asked, true), x)
  {
    SameCauses(asked, Confirming(asked, true), Ev);
    SameCauses(asked, Confirming(asked, true), Dispatch);
  }

  /** Over an Off of our own it is recorded and confirmed, and nothing is written. */
  lemma WantedOverOurOff(w: World, x: ReconcileInput)
    requires Published(w) && w.power == Some(Off) && OursConfirmed(w.disk) && Calm(x) && !NothingNew(x)
    ensures
      var v := Reconciled(w, x);
      && v.power == Some(Off) && Published(v) && v.trace == w.trace
      && Serve(w.disk, v.disk, x) && FollowsEvidence(w.disk, v.disk, x) && AllConfirmed(v.disk, true)
  {
    var refreshed := Refreshed(w.disk, x.refresh);
    RefreshedUpdates(w.disk, x);
    RefreshedServes(w.disk, x);
    OursIsKept(refreshed, x);
    ConfirmedServes(w.disk, Requests(refreshed, x), x);
    OursIsConfirmed(w, x, refreshed, Requests(refreshed, x));
  }

  lemma OursIsConfirmed(w: World, x: ReconcileInput, refreshed: seq<Hold>, asked: seq<Hold>)
    requires Published(w) && w.power == Some(Off) && Calm(x) && !NothingNew(x) && asked != []
    requires refreshed == Refreshed(w.disk, x.refresh) && OursConfirmed(refreshed)
    requires asked == Requests(refreshed, x) && OursConfirmed(asked)
    ensures
      var held := Confirming(asked, true);
      Reconciled(w, x) == World(Some(Off), held, Some(held), w.trace)
  {
    var kept := w.(disk := refreshed, memory := Some(refreshed));
    assert Replaced(w, refreshed, Clean) == (kept, true);
    var stored := w.(disk := asked, memory := Some(asked));
    assert Replaced(kept, asked, Clean) == (stored, true);
  }

  /** Over any other Off nothing is asked for at all. */
  lemma WantedOverAnothersOff(w: World, x: ReconcileInput)
    requires Published(w) && w.power == Some(Off) && !OursConfirmed(w.disk) && Calm(x) && !NothingNew(x)
    ensures
      var v := Reconciled(w, x);
      v.power == Some(Off) && Published(v) && v.trace == w.trace && Updates(w.disk, v.disk, x) && !OursConfirmed(v.disk)
  {
    RefreshedUpdates(w.disk, x);
  }

  lemma OursIsKept(records: seq<Hold>, x: ReconcileInput)
    requires OursConfirmed(records)
    ensures OursConfirmed(Requests(records, x))
  {
    var h :| h in records && h.confirmed && h.owned;
    var k :| 0 <= k < |records| && records[k] == h;
    assert Requests(records, x)[k] in Requests(records, x);
  }
}
