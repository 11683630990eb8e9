/** What the add-on's own operations, crashes and redelivered owner messages can
    and cannot do to a fenced store. */
module AddonRecovery {
  import opened Basics
  import opened AddonAuthority

  /** Everything the add-on may do without a snapshot. `Restart` is a crash at any
      earlier write followed by a new process on the same disk. */
  datatype LocalOp =
    | Restart(id: nat, f1: WriteFault, f2: WriteFault)
    | SaveState(candidate: AuthorityState, f1: WriteFault)
    | Fallback(active: bool, f1: WriteFault)
    | Retry(f1: WriteFault, f2: WriteFault)
    | Confirm(id: nat, f1: WriteFault, f2: WriteFault)

  function LocalStep(a: Addon, op: LocalOp): Addon {
    match op
    case Restart(id, f1, f2) => Started(Opened(a.disk), id, f1, f2)
    case SaveState(c, f1) => Saved(a, c, f1)
    case Fallback(active, f1) => FallbackSaved(a, active, f1)
    case Retry(f1, f2) => Retried(a, f1, f2)
    case Confirm(id, f1, f2) => ObserveConfirmed(a, id, f1, f2)
  }

  function LocalRun(a: Addon, ops: seq<LocalOp>): Addon
    decreases |ops|
  {
    if ops == [] then a else LocalRun(LocalStep(a, ops[0]), ops[1..])
  }

  /** These operations, alone, end with the add-on permitted to act. */
  predicate Regains(a: Addon, ops: seq<LocalOp>) {
    IsKnown(LocalRun(a, ops))
  }

  /** A new process over a known store moves its epoch on by one and changes nothing else.
      Where that is not saved cleanly the bump stays pending, and one clean retry makes it. */
  lemma RestartMovesTheEpoch(d: Disk, id: nat, f1: WriteFault, f2: WriteFault)
    requires LoadDisk(d).Known?
    ensures
      var s, a := LoadDisk(d).state, Started(Opened(d), id, f1, f2);
      var next := s.(epoch := s.epoch + 1);
      && a.disk.marker == d.marker && LoadDisk(a.disk) == Known(if f1 == FailsBefore then s else next)
      && (f1 == Clean ==> a.state == Some(next) && IsKnown(a) && a.pending.None? && !a.saveFailed)
      && (f1 != Clean ==>
          && a.pending == Some(next) && a.saveFailed
          && var b := Retried(a, Clean, f2);
             b.state == Some(next) && IsKnown(b) && b.disk.marker == d.marker && !b.saveFailed)
  {
  }

  lemma FenceHoldsLocally(a: Addon, op: LocalOp)
    requires Fenced(a.disk) && !a.initialising
    ensures var b := LocalStep(a, op); b.disk == a.disk && !b.initialising
  {
  }

  lemma {:induction false} FenceHoldsOverLocalRuns(a: Addon, ops: seq<LocalOp>)
    requires Fenced(a.disk) && !a.initialising
    ensures LocalRun(a, ops).disk == a.disk && !IsKnown(LocalRun(a, ops))
    decreases |ops|
  {
    if ops != [] {
      FenceHoldsLocally(a, ops[0]);
      FenceHoldsOverLocalRuns(LocalStep(a, ops[0]), ops[1..]);
    }
  }

  /** The add-on's own code can lift its retirement exactly when a stale
      `initialising` flag survived into it: a refused save then becomes the
      pending record and its retry rewrites the marker. */
  lemma {:induction false} UnfencesItselfIff(a: Addon)
    requires Fenced(a.disk)
    ensures (exists ops :: Regains(a, ops)) <==> a.initialising
  {
    if a.initialising {
      var c := FreshObserve(0);
      var refused := Saved(a, c, Clean);
      assert refused.pending == Some(c) && refused.initialising;
      var ops := [SaveState(c, Clean), Retry(Clean, Clean)];
      assert ops[1..] == [Retry(Clean, Clean)];
      assert LocalRun(a, ops) == LocalRun(refused, ops[1..]) == Retried(refused, Clean, Clean);
      assert Regains(a, ops);
    } else {
      forall ops ensures !Regains(a, ops) {
        FenceHoldsOverLocalRuns(a, ops);
      }
    }
  }

  // ---------------------------------------------------------------- retirement

  /** After one attempt to retire, redelivery without a restart succeeds exactly when
      the first marker write reached the disk; after a clean restart it always does. */
  lemma RetirementConverges(a: Addon, id: nat, f1: WriteFault, bootId: nat)
    requires IsKnown(a) && Settled(a.state.value) && !a.saveFailed
    ensures
      var once := HandedOver(a, PendingIntegration, id, f1, Clean).0;
      var (again, ack) := HandedOver(once, PendingIntegration, id, Clean, Clean);
      var rebooted := Started(Opened(once.disk), bootId, Clean, Clean);
      var (last, lastAck) := HandedOver(rebooted, PendingIntegration, id, Clean, Clean);
      && (ack == Some(AckRetired) <==> f1 != FailsBefore)
      && (ack.Some? ==> again.disk == Disk(a.disk.store, Content(Retired(a.state.value.storeId))))
      && lastAck == Some(AckRetired)
      && last.disk.marker == Content(Retired(a.state.value.storeId))
      && !IsKnown(last) && RetirementStatus(last.disk) == Some(AckRetired)
  {
    var once := HandedOver(a, PendingIntegration, id, f1, Clean).0;
    var rebooted := Started(Opened(once.disk), bootId, Clean, Clean);
    if f1 == FailsBefore {
      assert IsKnown(rebooted) && !rebooted.saveFailed;
    } else {
      assert Fenced(once.disk) && rebooted.disk == once.disk;
    }
  }

  datatype Attempt =
    | Redeliver(id: nat, f1: WriteFault, f2: WriteFault)
    | Crash(id: nat, f1: WriteFault, f2: WriteFault)

  /** A settled store the owner may ask to retire, or has. */
  predicate Retirable(d: Disk, storeId: nat) {
    && d.store.Content? && ValidState(d.store.value) && Settled(d.store.value) && d.store.value.storeId == storeId
    && d.marker in {Content(Plain(storeId)), Content(Retired(storeId))}
  }

  /** The owner's request to retire, delivered any number of times between crashes. */
  function RetirementAttempted(a: Addon, attempts: seq<Attempt>): Addon
    decreases |attempts|
  {
    if attempts == [] then a else RetirementAttempted(RetirementAttempt(a, attempts[0]), attempts[1..])
  }

  function RetirementAttempt(a: Addon, attempt: Attempt): Addon {
    match attempt
    case Redeliver(id, f1, f2) => HandedOver(a, PendingIntegration, id, f1, f2).0
    case Crash(id, f1, f2) => Started(Opened(a.disk), id, f1, f2)
  }

  /** Each attempt is made, one after the other. */
  lemma {:induction false} EachRetirementIsAttempted(a: Addon, attempts: seq<Attempt>, last: Attempt)
    ensures RetirementAttempted(a, attempts + [last]) == RetirementAttempt(RetirementAttempted(a, attempts), last)
    decreases |attempts|
  {
    if attempts == [] {
      assert [last][1..] == [];
    } else {
      assert (attempts + [last])[1..] == attempts[1..] + [last];
      EachRetirementIsAttempted(RetirementAttempt(a, attempts[0]), attempts[1..], last);
    }
  }

  lemma {:induction false} AttemptsStayRetirable(a: Addon, attempts: seq<Attempt>, storeId: nat)
    requires Retirable(a.disk, storeId)
    ensures
      var b := RetirementAttempted(a, attempts);
      Retirable(b.disk, storeId) && (Fenced(a.disk) ==> b.disk == a.disk)
    decreases |attempts|
  {
    if attempts != [] {
      AttemptsStayRetirable(RetirementAttempt(a, attempts[0]), attempts[1..], storeId);
    }
  }

  /** However often the request was redelivered and the add-on crashed, a clean restart
      and one clean delivery retire it for good; without the restart, one does exactly
      when the marker is already on disk or the process still stands by its state. */
  lemma RetirementConvergesAfterAny(a: Addon, attempts: seq<Attempt>, storeId: nat, bootId: nat, id: nat)
    requires Retirable(a.disk, storeId)
    ensures
      var b := RetirementAttempted(a, attempts);
      var rebooted := Started(Opened(b.disk), bootId, Clean, Clean);
      var (last, ack) := HandedOver(rebooted, PendingIntegration, id, Clean, Clean);
      && ack == Some(AckRetired) && !IsKnown(last)
      && last.disk.marker == Content(Retired(storeId)) && RetirementStatus(last.disk) == Some(AckRetired)
      && HandedOver(last, PendingIntegration, bootId, Clean, Clean) == (last, ack)
      && (HandedOver(b, PendingIntegration, id, Clean, Clean).1 == Some(AckRetired)
          <==> Fenced(b.disk) || (IsKnown(b) && !b.saveFailed))
  {
    AttemptsStayRetirable(a, attempts, storeId);
  }

  // ---------------------------------------------------------------- rollback

  /** A store the handshake can move on from: fenced, and resident content that the
      marker itself accounts for. */
  predicate Recoverable(d: Disk) {
    && Fenced(d) && d.store.Content? && ValidState(d.store.value)
    && (|| (d.store.value.storeId == d.marker.value.id && Settled(d.store.value))
        || (d.marker.value.RollingBack? && d.store.value == d.marker.value.candidate))
  }

  function Attempted(a: Addon, attempts: seq<Attempt>): Addon
    decreases |attempts|
  {
    if attempts == [] then a else Attempted(RollbackAttempt(a, attempts[0]), attempts[1..])
  }

  function RollbackAttempt(a: Addon, attempt: Attempt): Addon {
    match attempt
    case Redeliver(id, f1, f2) => HandedOver(a, PendingAddon, id, f1, f2).0
    case Crash(id, f1, f2) => Started(Opened(a.disk), id, f1, f2)
  }

  lemma {:induction false} EachRollbackIsAttempted(a: Addon, attempts: seq<Attempt>, last: Attempt)
    ensures Attempted(a, attempts + [last]) == RollbackAttempt(Attempted(a, attempts), last)
    decreases |attempts|
  {
    if attempts == [] {
      assert [last][1..] == [];
    } else {
      assert (attempts + [last])[1..] == attempts[1..] + [last];
      EachRollbackIsAttempted(RollbackAttempt(a, attempts[0]), attempts[1..], last);
    }
  }

  /** Which marker a rollback may move to: its own, or its first candidate. */
  predicate Continues(before: Marker, after: Marker) {
    && !before.Plain? && !after.Plain? && before.id == after.id
    && (before.RollingBack? ==> after == before)
  }

  lemma {:induction false} AttemptsKeepTheCandidate(a: Addon, attempts: seq<Attempt>)
    requires Recoverable(a.disk)
    ensures
      var b := Attempted(a, attempts);
      Recoverable(b.disk) && Continues(a.disk.marker.value, b.disk.marker.value)
    decreases |attempts|
  {
    if attempts != [] {
      var next := match attempts[0]
        case Redeliver(id, f1, f2) => HandedOver(a, PendingAddon, id, f1, f2).0
        case Crash(id, f1, f2) => Started(Opened(a.disk), id, f1, f2);
      assert Recoverable(next.disk) && Continues(a.disk.marker.value, next.disk.marker.value);
      AttemptsKeepTheCandidate(next, attempts[1..]);
    }
  }

  /** From any crash point of a rollback, one clean redelivery and the owner's own
      confirmation restore exactly the candidate the marker persisted. */
  lemma RollbackConverges(a: Addon, attempts: seq<Attempt>, lastId: nat, anyId: nat)
    requires Recoverable(a.disk) && lastId != a.disk.marker.value.id
    ensures
      var b := Attempted(a, attempts);
      var (rolled, ack) := HandedOver(b, PendingAddon, lastId, Clean, Clean);
      var again := HandedOver(rolled, PendingAddon, anyId, Clean, Clean);
      var (back, backAck) := HandedOver(rolled, OwnerAddon, anyId, Clean, Clean);
      && ack == Some(AckActive) && !IsKnown(rolled) && again == (rolled, ack)
      && rolled.disk.marker.Content? && rolled.disk.marker.value.RollingBack?
      && var c := rolled.disk.marker.value.candidate;
         && (b.disk.marker.Content? && b.disk.marker.value.RollingBack? ==> c == b.disk.marker.value.candidate)
         && (a.disk.marker.value.RollingBack? ==> c == a.disk.marker.value.candidate)
         && Settled(c) && c.epoch == 1 && !c.fallback && c.storeId != a.disk.marker.value.id
         && backAck == Some(AckActive) && IsKnown(back) && back.state == Some(c)
         && HandedOver(back, OwnerAddon, anyId, Clean, Clean).0 == back
  {
    AttemptsKeepTheCandidate(a, attempts);
  }

  /** A crash during the last step either leaves the fence or exposes the candidate. */
  lemma RestoredAfterCrash(a: Addon, id: nat, f: WriteFault)
    requires Recoverable(a.disk) && a.disk.marker.value.RollingBack?
    requires a.disk.store == Content(a.disk.marker.value.candidate)
    ensures
      var crashed := HandedOver(a, OwnerAddon, id, f, Clean).0;
      Opened(crashed.disk).state ==
        if f == FailsBefore then None else Some(a.disk.marker.value.candidate)
  {
  }
}
