/** What every operation of the add-on's authority leaves behind, on disk and in memory,
    and what it answers. */
module AddonAnswers {
  import opened Basics
  import opened AddonAuthority

  // ---------------------------------------------------------------- what a disk says

  /** A store loads under the marker that names it; no files at all are a first start. */
  lemma LoadsExactlyWhen(d: Disk, s: AuthorityState)
    ensures LoadDisk(d) == Known(s)
      <==> d.store == Content(s) && s.epoch >= 1 && d.marker == Content(Plain(s.storeId))
    ensures LoadDisk(d) == Uninitialised <==> d.store.Absent? && d.marker.Absent?
  {
  }

  /** A candidate a rollback may bring back: a store made just now, under another identity. */
  predicate IsNewStore(c: AuthorityState, id: nat) {
    c == AuthorityState(c.storeId, Observe, None, 1, [], false) && c.storeId != id
  }

  /** A retirement is reported over the store it retired, and a rollback once its candidate
      is the store. */
  lemma RetirementIsReportedExactlyWhen(d: Disk)
    ensures RetirementStatus(d) == Some(AckRetired) <==>
      d.store.Content? && d.store.value.epoch >= 1 && d.marker == Content(Retired(d.store.value.storeId))
    ensures RetirementStatus(d) == Some(AckActive) <==>
      && d.store.Content? && d.marker.Content? && d.marker.value.RollingBack?
      && d.store.value == d.marker.value.candidate && IsNewStore(d.store.value, d.marker.value.id)
    ensures RetirementStatus(d).Some? ==> Fenced(d) && LoadDisk(d) == AuthorityUnknown
  {
  }

  /** The fence is a retirement, or a rollback to a new store. */
  lemma FencedExactlyWhen(d: Disk)
    ensures Fenced(d) <==>
      && d.marker.Content?
      && (d.marker.value.Retired?
          || (d.marker.value.RollingBack? && IsNewStore(d.marker.value.candidate, d.marker.value.id)))
  {
  }

  // ---------------------------------------------------------------- saves

  /** A candidate the store that loads now may become. */
  predicate MaySave(a: Addon, c: AuthorityState) {
    c.epoch >= 1 && LoadDisk(a.disk).Known? && LoadDisk(a.disk).state.storeId == c.storeId
  }

  /** A save ends with the candidate known and nothing owed, or with the candidate owed, a
      failure published and the permission unmoved. */
  lemma SaveEnds(a: Addon, c: AuthorityState, f: WriteFault)
    ensures
      var v := Saved(a, c, f);
      && v.initialising == a.initialising && v.disk.marker == a.disk.marker
      && (MaySave(a, c) && f == Clean ==>
          IsKnown(v) && v.state == Some(c) && v.pending.None? && !v.saveFailed && LoadDisk(v.disk) == Known(c))
      && (!(MaySave(a, c) && f == Clean) ==> v.state == a.state && v.pending == Some(c) && v.saveFailed)
      && v.disk.store == if MaySave(a, c) && f != FailsBefore then Content(c) else a.disk.store
  {
  }

  /** A first save ends with store and marker written and nothing owed; wherever it stops,
      the whole of it is owed. */
  lemma InitialSaveEnds(a: Addon, s: AuthorityState, f1: WriteFault, f2: WriteFault)
    requires s.epoch >= 1
    ensures
      var v := PersistedInitial(a, s, f1, f2);
      && (f1 == f2 == Clean ==>
          IsKnown(v) && v.state == Some(s) && v.pending.None? && !v.saveFailed && !v.initialising)
      && (!(f1 == f2 == Clean) ==>
          v.state == a.state && v.pending == Some(s) && v.saveFailed && v.initialising)
      && v.disk.store == (if f1 == FailsBefore then a.disk.store else Content(s))
      && v.disk.marker == (if f1 == Clean && f2 != FailsBefore then Content(Plain(s.storeId)) else a.disk.marker)
  {
  }

  /** One clean retry of a save that failed is the same as a clean save in the first place. */
  lemma RetryFinishesTheSave(a: Addon, c: AuthorityState, f: WriteFault, f2: WriteFault)
    requires MaySave(a, c) && !a.initialising && f != Clean
    ensures Retried(Saved(a, c, f), Clean, f2) == Saved(a, c, Clean)
  {
  }

  lemma RetryFinishesTheInitialSave(a: Addon, s: AuthorityState, f1: WriteFault, f2: WriteFault)
    requires f1 != Clean || f2 != Clean
    ensures Retried(PersistedInitial(a, s, f1, f2), Clean, Clean) == PersistedInitial(a, s, Clean, Clean)
  {
  }

  /** With nothing owed a retry does nothing. */
  lemma NothingOwedNothingRetried(a: Addon, f1: WriteFault, f2: WriteFault)
    requires a.pending.None?
    ensures Retried(a, f1, f2) == a
  {
  }

  /** A fallback that really changes is a new epoch; one that does not is not saved. */
  lemma FallbackMovesTheEpoch(a: Addon, active: bool)
    requires IsKnown(a)
    ensures
      var s, v := a.state.value, FallbackSaved(a, active, Clean);
      && IsKnown(v) && v.state.value.fallback == active
      && (s.fallback == active ==> v == a)
      && (s.fallback != active ==> v.state.value == s.(fallback := active, epoch := s.epoch + 1) && v.pending.None?)
  {
  }

  /** A process opens with what the disk shows, and owes nothing. */
  lemma OpenedOwesNothing(d: Disk)
    ensures
      var a := Opened(d);
      && a.disk == d && a.pending.None? && !a.initialising && !a.saveFailed
      && (IsKnown(a) <==> LoadDisk(d).Known?) && (a.state.Some? <==> LoadDisk(d).Known?)
  {
  }

  /** Without a known state a start takes up what loads, makes a first store where there
      was nothing, and otherwise stays without a state. */
  lemma StartWithoutStateAnswers(a: Addon, id: nat, f1: WriteFault, f2: WriteFault)
    requires !IsKnown(a)
    ensures
      var v := Started(a, id, f1, f2);
      match LoadDisk(a.disk) {
        case Known(s) => IsKnown(v) && v == a.(state := Some(s))
        case AuthorityUnknown => v == a.(state := None)
        case Uninitialised =>
          f1 == f2 == Clean ==>
            IsKnown(v) && v.state == Some(AuthorityState(id, Observe, None, 1, [], false)) && !v.saveFailed
      }
  {
  }

  /** The repair never touches a fence, or a state that is known; done cleanly over
      anything else it ends in a new store in observe. */
  lemma ConfirmReplacesExactlyWhen(a: Addon, id: nat, f1: WriteFault, f2: WriteFault)
    ensures
      var v := ObserveConfirmed(a, id, f1, f2);
      if Fenced(a.disk) || IsKnown(a) then v == a
      else f1 == f2 == Clean ==>
        && IsKnown(v) && v.state == Some(AuthorityState(id, Observe, None, 1, [], false))
        && v.pending.None? && !v.saveFailed && !v.initialising
  {
  }

  // ---------------------------------------------------------------- the handover

  predicate HasNothingToLose(s: AuthorityState) {
    s.mode == Observe && s.holds == [] && s.transition.None?
  }

  /** A fresh retirement happens exactly for a pending integration, over a settled known
      store with no failed save. Acknowledged, it leaves the fence and no permission; a
      failed one publishes the failure and acknowledges nothing. */
  lemma RetiresExactlyWhen(a: Addon, owner: Owner, id: nat, f1: WriteFault, f2: WriteFault)
    requires !Fenced(a.disk) && !a.disk.marker.Absent?
    ensures
      var (v, ack) := HandedOver(a, owner, id, f1, f2);
      var asked := owner == PendingIntegration && IsKnown(a) && !a.saveFailed && HasNothingToLose(a.state.value);
      && ack == (if asked && f1 == Clean then Some(AckRetired) else None)
      && (!asked ==> v == a)
      && (asked ==> v.disk.store == a.disk.store && v.initialising == a.initialising)
      && (ack.Some? ==>
          RetirementStatus(v.disk) == Some(AckRetired) && v.state.None? && v.pending.None? && !v.saveFailed)
      && (asked && ack.None? ==>
          && v.saveFailed && v.state == a.state && v.pending == a.pending
          && v.disk.marker == if f1 == FailsBefore then a.disk.marker else Content(Retired(a.state.value.storeId)))
  {
  }

  /** Without a marker nothing is ever handed over. */
  lemma UnmarkedIsNotHandedOver(a: Addon, owner: Owner, id: nat, f1: WriteFault, f2: WriteFault)
    requires a.disk.marker.Absent?
    ensures HandedOver(a, owner, id, f1, f2) == (a.(saveFailed := true), None)
  {
  }

  /** Behind a fence a store that cannot be read is a failure, whoever asks. */
  lemma UnreadableIsAFailure(a: Addon, owner: Owner, id: nat, f1: WriteFault, f2: WriteFault)
    requires Fenced(a.disk) && (!a.disk.store.Content? || a.disk.store.value.epoch < 1)
    ensures HandedOver(a, owner, id, f1, f2) == (a.(saveFailed := true), None)
  {
  }

  /** The store that was retired, still as it was. */
  predicate ShowsRetired(d: Disk) {
    && d.store.Content? && d.store.value.epoch >= 1 && d.marker.Content?
    && d.store.value.storeId == d.marker.value.id && HasNothingToLose(d.store.value)
  }

  /** The candidate of the rollback under way. */
  predicate ShowsCandidate(d: Disk) {
    && d.store.Content? && d.marker.Content? && d.marker.value.RollingBack?
    && d.store.value == d.marker.value.candidate && d.store.value.epoch >= 1
  }

  /** A redelivered claim is acknowledged exactly over the retired store, after a failed
      save only once the marker is written again. */
  lemma ClaimIsAcknowledgedExactlyWhen(a: Addon, owner: Owner, id: nat, f1: WriteFault, f2: WriteFault)
    requires Fenced(a.disk) && owner in {PendingIntegration, OwnerIntegration}
    ensures
      var (v, ack) := HandedOver(a, owner, id, f1, f2);
      && (ack == Some(AckRetired) <==>
            a.disk.marker.value.Retired? && ShowsRetired(a.disk) && (!a.saveFailed || f1 == Clean))
      && (ack.Some? ==> ack == Some(AckRetired) && v == a.(saveFailed := false))
      && (ack.None? ==> v.disk == a.disk && v.state == a.state && v.pending == a.pending)
      && (ack.None? && v != a ==> v.saveFailed && (!a.disk.store.Content? || a.disk.store.value.epoch < 1))
  {
  }

  /** A return is acknowledged exactly when the persisted candidate is the store, cleanly:
      the first candidate of a retired store once it is in the marker, and after that
      always the same one. The fence stays. */
  lemma ReturnIsAcknowledgedExactlyWhen(a: Addon, id: nat, f1: WriteFault, f2: WriteFault)
    requires Fenced(a.disk)
    ensures
      var (v, ack) := HandedOver(a, PendingAddon, id, f1, f2);
      var m := a.disk.marker.value;
      && (ack == Some(AckActive) <==>
            && (ShowsRetired(a.disk) || ShowsCandidate(a.disk))
            && if m.RollingBack? then f1 == Clean else id != m.id && f1 == Clean && f2 == Clean)
      && (ack.Some? ==> ack == Some(AckActive) && RetirementStatus(v.disk) == Some(AckActive) && !v.saveFailed)
      && (ack.Some? && m.RollingBack? ==> v.disk.marker == a.disk.marker)
      && (ack.Some? && m.Retired? ==> v.disk.marker.value == RollingBack(m.id, FreshObserve(id)))
      && Fenced(v.disk) && !IsKnown(v) && v.state == a.state && v.pending == a.pending
      && (ack.None? ==> v.saveFailed || v == a)
      && (ack.None? && v == a && !a.saveFailed ==> !ShowsRetired(a.disk) && !ShowsCandidate(a.disk))
  {
  }

  /** The confirmed return lifts the fence exactly over the candidate, cleanly, and it is
      the candidate that is known then. */
  lemma ReturnEndsExactlyWhen(a: Addon, id: nat, f1: WriteFault, f2: WriteFault)
    requires Fenced(a.disk)
    ensures
      var (v, ack) := HandedOver(a, OwnerAddon, id, f1, f2);
      && (ack == Some(AckActive) <==> ShowsCandidate(a.disk) && f1 == Clean)
      && (ack.Some? ==>
            && ack == Some(AckActive) && IsKnown(v) && v.state == Some(a.disk.marker.value.candidate)
            && v.disk.store == a.disk.store && !v.saveFailed)
      && (ack.None? ==> v.disk.store == a.disk.store && v.state == a.state && v.pending == a.pending)
      && (ack.None? && ShowsCandidate(a.disk) ==> v.saveFailed)
      && (ack.None? && ShowsRetired(a.disk) && !ShowsCandidate(a.disk) ==> v == a)
  {
  }
}
