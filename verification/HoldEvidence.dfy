/** Protection holds from the evidence alone: whatever was reported so far decides whether
    the switch is Off. */
module HoldEvidence {
  import opened Basics
  import opened EvClearance
  import opened PowerHold
  import opened HoldRelease

  /** What one evaluation sees. Windows are only ever read from a trusted report, and
      `end` is the last end of those that are open now. */
  datatype Seen = Seen(
    charging: Option<bool>, report: Option<int>, overnight: bool,
    trusted: bool, end: Option<int>, now: int)

  predicate IsSeen(o: Seen) {
    o.end.Some? ==> o.trusted && o.now < o.end.value
  }

  predicate AllSeen(history: seq<Seen>) {
    forall k :: 0 <= k < |history| ==> IsSeen(history[k])
  }

  predicate IsCharging(o: Seen) {
    o.charging == Some(true) && !o.overnight
  }

  function Last(history: seq<Seen>): Seen
    requires history != []
  {
    history[|history| - 1]
  }

  function Earlier(history: seq<Seen>): (h: seq<Seen>)
    requires history != []
    ensures |h| == |history| - 1
  {
    history[..|history| - 1]
  }

  function Reports(history: seq<Seen>): (r: seq<Report>)
    ensures |r| == |history| && forall k :: 0 <= k < |r| ==> r[k] == Report(history[k].charging, history[k].report)
  {
    seq(|history|, k requires 0 <= k < |history| => Report(history[k].charging, history[k].report))
  }

  /** What the evidence makes of one record. A new EV record starts with no clearance,
      which is also what the report that asks for it leaves. */
  function Judged(h: Hold, clearance: Clearance, o: Seen): (bool, Option<int>) {
    if h.cause == Ev then (clearance.pendingRelease, h.trustedEnd)
    else if o.trusted then (o.end.None?, if o.end.Some? then o.end else h.trustedEnd)
    else (h.trustedEnd.Some? && o.now >= h.trustedEnd.value, h.trustedEnd)
  }

  const OWN_RELEASE := ReleaseInput(false, false, true, true, Clean, Clean, GOOD)

  function EvaluationOf(history: seq<Seen>): ReconcileInput
    requires history != []
  {
    var o, clearance := Last(history), Cleared(Reports(history));
    ReconcileInput((h: Hold) => Judged(h, clearance, o), IsCharging(o), o.end, o.now,
                   false, None, true, Clean, Clean, Clean, GOOD, OWN_RELEASE)
  }

  /** Evaluation after evaluation, from a switch that is On. */
  function Watched(history: seq<Seen>): World
    decreases |history|
  {
    if history == [] then Fresh(Some(On))
    else Reconciled(Watched(Earlier(history)), EvaluationOf(history))
  }

  // ---------------------------------------------------------------- what the evidence asks

  /** Charging was reported since the switch last went Off. */
  predicate EvAsked(history: seq<Seen>)
    decreases |history|, 0
  {
    history != [] && (IsCharging(Last(history)) || (Stands(Earlier(history)) && EvAsked(Earlier(history))))
  }

  predicate DispatchAsked(history: seq<Seen>)
    decreases |history|, 0
  {
    history != [] && (Last(history).end.Some? || (Stands(Earlier(history)) && DispatchAsked(Earlier(history))))
  }

  /** The end of the last window that was open. */
  function LastEnd(history: seq<Seen>): Option<int>
    decreases |history|
  {
    if history == [] then None
    else if Last(history).end.Some? then Last(history).end
    else LastEnd(Earlier(history))
  }

  /** Fewer than five different reports of no charging in a row. */
  predicate EvUncleared(history: seq<Seen>) {
    |Times(Reports(history), |history|)| < NEEDED
  }

  /** A trusted report shows a window that is open; without one the last end still binds. */
  predicate DispatchRuns(history: seq<Seen>)
    requires history != []
  {
    var o := Last(history);
    if o.trusted then o.end.Some? else LastEnd(history).Some? && o.now < LastEnd(history).value
  }

  /** Something is asked for now, or was asked for since the Off and still needs it. */
  predicate Stands(history: seq<Seen>)
    decreases |history|, 1
  {
    && history != []
    && (|| IsCharging(Last(history)) || Last(history).end.Some?
        || (Stands(Earlier(history)) && EvAsked(history) && EvUncleared(history))
        || (Stands(Earlier(history)) && DispatchAsked(history) && DispatchRuns(history)))
  }

  // ---------------------------------------------------------------- the records follow

  /** The records of a hold that stands. */
  predicate Records(history: seq<Seen>, disk: seq<Hold>) {
    && disk != []
    && (forall k :: 0 <= k < |disk| ==> disk[k].owned && disk[k].confirmed)
    && (forall k :: 0 <= k < |disk| && disk[k].cause == Dispatch ==> disk[k].trustedEnd == LastEnd(history))
    && (IsRequested(disk, Ev) <==> EvAsked(history)) && (IsRequested(disk, Dispatch) <==> DispatchAsked(history))
  }

  predicate Follows(history: seq<Seen>, w: World) {
    && Published(w)
    && if Stands(history) then w.power == Some(Off) && Records(history, w.disk)
       else w.power == Some(On) && w.disk == []
  }

  lemma EvaluationIsCalm(history: seq<Seen>)
    requires history != []
    ensures Calm(EvaluationOf(history))
  {
  }

  lemma ClearedAtFive(history: seq<Seen>)
    requires history != []
    ensures Cleared(Reports(history)).pendingRelease <==> !EvUncleared(history)
  {
    CountsDistinctReports(Reports(history), |history|);
    assert Reports(history)[..|history|] == Reports(history);
  }

  lemma LastEndIsKnown(history: seq<Seen>)
    ensures DispatchAsked(history) ==> LastEnd(history).Some?
    decreases |history|
  {
    if history != [] {
      LastEndIsKnown(Earlier(history));
    }
  }

  /** With nothing newly asked for, an EV record is over when it is cleared, and a
      dispatch record when its window does not run. */
  lemma OverExactlyWhen(history: seq<Seen>, disk: seq<Hold>, k: nat)
    requires history != [] && NothingNew(EvaluationOf(history)) && Records(Earlier(history), disk) && k < |disk|
    ensures IsOver(disk[k], EvaluationOf(history))
      <==> if disk[k].cause == Ev then !EvUncleared(history) else !DispatchRuns(history)
  {
    ClearedAtFive(history);
    IsRequestedAt(disk, k);
    LastEndIsKnown(Earlier(history));
  }

  /** Some record is not over exactly when the evidence still needs the Off. */
  lemma NeededExactlyWhen(history: seq<Seen>, disk: seq<Hold>)
    requires history != [] && NothingNew(EvaluationOf(history)) && Records(Earlier(history), disk)
    requires Stands(Earlier(history))
    ensures (forall k :: 0 <= k < |disk| && disk[k].owned ==> IsOver(disk[k], EvaluationOf(history)))
      <==> !Stands(history)
  {
    forall k | 0 <= k < |disk|
      ensures IsOver(disk[k], EvaluationOf(history))
        <==> if disk[k].cause == Ev then !EvUncleared(history) else !DispatchRuns(history)
      ensures IsRequested(disk, disk[k].cause)
    {
      OverExactlyWhen(history, disk, k);
      IsRequestedAt(disk, k);
    }
  }

  /** Nothing newly asked for, over a hold that stands. */
  lemma StandingStep(history: seq<Seen>, w: World)
    requires history != [] && Stands(Earlier(history)) && Follows(Earlier(history), w)
    requires NothingNew(EvaluationOf(history))
    ensures Follows(history, Reconciled(w, EvaluationOf(history)))
  {
    var x, disk := EvaluationOf(history), w.disk;
    assert disk[0] in disk;
    ConfirmedReleasedExactlyWhenOver(w, x);
    NeededExactlyWhen(history, disk);
    if Stands(history) {
      RecordsFollow(history, disk, Reconciled(w, x).disk);
    }
  }

  /** Records brought up to date are those of the hold that still stands. */
  lemma RecordsFollow(history: seq<Seen>, disk: seq<Hold>, now: seq<Hold>)
    requires history != [] && Stands(Earlier(history)) && Records(Earlier(history), disk)
    requires NothingNew(EvaluationOf(history)) && Updates(disk, now, EvaluationOf(history)) && AllConfirmed(now, true)
    ensures Records(history, now)
  {
    SameCauses(disk, now, Ev);
    SameCauses(disk, now, Dispatch);
  }

  /** Something newly asked for. */
  lemma WantedStep(history: seq<Seen>, w: World)
    requires history != [] && Follows(Earlier(history), w) && !NothingNew(EvaluationOf(history))
    ensures Follows(history, Reconciled(w, EvaluationOf(history)))
  {
    var x := EvaluationOf(history);
    if Stands(Earlier(history)) {
      assert w.disk[0] in w.disk;
      WantedOverOurOff(w, x);
    } else {
      WantedIsHeld(w, x);
    }
    WantedRecords(history, w.disk, Reconciled(w, x).disk);
  }

  lemma WantedRecords(history: seq<Seen>, disk: seq<Hold>, now: seq<Hold>)
    requires history != [] && !NothingNew(EvaluationOf(history))
    requires if Stands(Earlier(history)) then Records(Earlier(history), disk) else disk == []
    requires Serve(disk, now, EvaluationOf(history)) && FollowsEvidence(disk, now, EvaluationOf(history))
    requires AllConfirmed(now, true)
    ensures Records(history, now)
  {
    assert now != [];
  }

  lemma IdleStep(history: seq<Seen>, w: World)
    requires history != [] && !Stands(Earlier(history)) && Follows(Earlier(history), w)
    requires NothingNew(EvaluationOf(history))
    ensures Follows(history, Reconciled(w, EvaluationOf(history)))
  {
    assert Refreshed([], EvaluationOf(history).refresh) == [];
  }

  /** After every history of evaluations the switch is Off exactly when the evidence says
      so, and there are records exactly then. */
  lemma {:induction false} EvidenceDecides(history: seq<Seen>)
    ensures Follows(history, Watched(history))
    ensures Watched(history).power == Some(if Stands(history) then Off else On)
    decreases |history|
  {
    if history != [] {
      EvidenceDecides(Earlier(history));
      var w := Watched(Earlier(history));
      if !NothingNew(EvaluationOf(history)) {
        WantedStep(history, w);
      } else if Stands(Earlier(history)) {
        StandingStep(history, w);
      } else {
        IdleStep(history, w);
      }
    }
  }

  // ---------------------------------------------------------------- one cause alone

  predicate NoWindows(history: seq<Seen>) {
    forall k :: 0 <= k < |history| ==> history[k].end.None?
  }

  predicate NoCharging(history: seq<Seen>) {
    forall k :: 0 <= k < |history| ==> !IsCharging(history[k])
  }

  /** From charging at j on there were never five clear reports in a row. */
  predicate UnclearedSince(history: seq<Seen>, j: nat)
  {
    forall n: nat :: j < n <= |history| ==> EvUncleared(history[..n])
  }

  lemma {:induction false} WithoutWindows(history: seq<Seen>)
    requires NoWindows(history)
    ensures !DispatchAsked(history) && (Stands(history) ==> EvAsked(history))
    decreases |history|
  {
    if history != [] {
      WithoutWindows(Earlier(history));
    }
  }

  lemma UnclearedOfPrefix(history: seq<Seen>, j: nat)
    requires history != [] && j < |history| - 1
    ensures UnclearedSince(history, j) <==> UnclearedSince(Earlier(history), j) && EvUncleared(history)
  {
    var before := Earlier(history);
    assert history[..|history|] == history;
    assert forall n: nat :: n <= |before| ==> before[..n] == history[..n];
    if UnclearedSince(history, j) {
      forall n: nat | j < n <= |before| ensures EvUncleared(before[..n]) {
        assert before[..n] == history[..n];
      }
    }
  }

  lemma ChargingIsUncleared(history: seq<Seen>)
    requires history != [] && IsCharging(Last(history))
    ensures EvUncleared(history)
  {
    assert StartsOver(Reports(history), |history| - 1);
  }

  predicate HeldSince(history: seq<Seen>, j: nat) {
    j < |history| && IsCharging(history[j]) && UnclearedSince(history, j)
  }

  lemma HeldOneMore(history: seq<Seen>)
    requires history != []
    ensures (exists j: nat :: HeldSince(history, j))
      <==> IsCharging(Last(history)) || ((exists j: nat :: HeldSince(Earlier(history), j)) && EvUncleared(history))
  {
    var before, last := Earlier(history), |history| - 1;
    if IsCharging(Last(history)) {
      ChargingIsUncleared(history);
      assert history[..|history|] == history;
      assert HeldSince(history, last);
    } else if j: nat :| HeldSince(history, j) {
      UnclearedOfPrefix(history, j);
      assert HeldSince(before, j);
    } else if j: nat :| HeldSince(before, j) && EvUncleared(history) {
      UnclearedOfPrefix(history, j);
      assert HeldSince(history, j);
    }
  }

  /** Charging alone holds the switch Off until five different clear reports in a row. */
  lemma {:induction false} EvHeldExactlyUntilCleared(history: seq<Seen>)
    requires NoWindows(history)
    ensures Stands(history) <==> exists j: nat :: HeldSince(history, j)
    decreases |history|
  {
    if history != [] {
      EvHeldExactlyUntilCleared(Earlier(history));
      HeldOneMore(history);
      WithoutWindows(history);
      WithoutWindows(Earlier(history));
    }
  }

  lemma {:induction false} WithoutCharging(history: seq<Seen>)
    requires NoCharging(history)
    ensures !EvAsked(history) && (Stands(history) ==> DispatchAsked(history))
    decreases |history|
  {
    if history != [] {
      WithoutCharging(Earlier(history));
    }
  }

  /** Since the window seen at j no trusted report came, and its end has not. */
  predicate UntrustedSince(history: seq<Seen>, j: nat)
    requires j < |history| && history[j].end.Some?
  {
    forall k :: j < k < |history| ==> !history[k].trusted && history[k].now < history[j].end.value
  }

  lemma {:induction false} LastEndIs(history: seq<Seen>, j: nat)
    requires AllSeen(history) && j < |history| && history[j].end.Some? && UntrustedSince(history, j)
    ensures LastEnd(history) == history[j].end
    decreases |history|
  {
    if j < |history| - 1 {
      LastEndIs(Earlier(history), j);
    }
  }

  /** A dispatch alone holds the switch Off for its window, and through an outage of its
      reports until the last end they showed. */
  lemma {:induction false} DispatchHeldExactlyUntilItsEnd(history: seq<Seen>)
    requires AllSeen(history) && NoCharging(history)
    ensures Stands(history) <==>
      exists j: nat :: j < |history| && history[j].end.Some? && UntrustedSince(history, j)
    decreases |history|
  {
    if history != [] {
      var before, last := Earlier(history), |history| - 1;
      DispatchHeldExactlyUntilItsEnd(before);
      WithoutCharging(history);
      WithoutCharging(before);
      if j: nat :| j < |history| && history[j].end.Some? && UntrustedSince(history, j) {
        if j < last {
          assert before[j].end.Some? && UntrustedSince(before, j);
          LastEndIs(history, j);
        }
      }
      if Stands(history) {
        StandsFrom(history);
      }
    }
  }

  lemma StandsFrom(history: seq<Seen>)
    requires history != [] && AllSeen(history) && Stands(history) && NoCharging(history)
    requires Stands(Earlier(history)) ==> exists j: nat ::
      j < |history| - 1 && Earlier(history)[j].end.Some? && UntrustedSince(Earlier(history), j)
    ensures exists j: nat :: j < |history| && history[j].end.Some? && UntrustedSince(history, j)
  {
    var before, last := Earlier(history), |history| - 1;
    WithoutCharging(history);
    if Last(history).end.Some? {
      assert UntrustedSince(history, last);
    } else {
      var j: nat :| j < last && before[j].end.Some? && UntrustedSince(before, j);
      LastEndIs(before, j);
      assert history[j].end.Some? && UntrustedSince(history, j);
    }
  }
}
