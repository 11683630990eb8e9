/** The add-on half of the ownership handshake: one store file, one marker file
    and the single writer that swaps its memory only after a verified write.

    A retirement marker fences the store, because the ordinary loader rejects it.
    Every durable write carries a fault, so a crash between two writes is the
    faulted call followed by `Restart`. */
module AddonAuthority {
  import opened Basics

  datatype Mode = Observe | Protect | Optimise

  datatype AuthorityState = AuthorityState(
    storeId: nat,
    mode: Mode,
    transition: Option<Mode>,
    epoch: nat,
    holds: seq<nat>,
    fallback: bool)

  datatype Marker =
    | Plain(id: nat)
    | Retired(id: nat)
    | RollingBack(id: nat, candidate: AuthorityState)

  datatype Disk = Disk(store: File<AuthorityState>, marker: File<Marker>)

  datatype Load = Known(state: AuthorityState) | Uninitialised | AuthorityUnknown

  /** The owner field of a snapshot, and the answer to it. */
  datatype Owner = OwnerAddon | PendingIntegration | OwnerIntegration | PendingAddon
  datatype Ack = AckActive | AckRetired

  /** Everything the writer holds, disk included. */
  datatype Addon = Addon(
    disk: Disk,
    state: Option<AuthorityState>,
    pending: Option<AuthorityState>,
    initialising: bool,
    saveFailed: bool)

  function FreshObserve(id: nat): AuthorityState {
    AuthorityState(id, Observe, None, 1, [], false)
  }

  /** What the strict record schema demands of a candidate before it reaches disk. */
  predicate ValidState(s: AuthorityState) {
    s.epoch >= 1
  }

  /** Observe, nothing held and nothing in progress. */
  predicate Settled(s: AuthorityState) {
    s.mode == Observe && s.holds == [] && s.transition.None?
  }

  /** The marker schema rejects a rollback candidate that is not a new Observe store. */
  predicate ValidRetirement(m: Marker) {
    match m
    case Plain(_) => false
    case Retired(_) => true
    case RollingBack(id, c) => Settled(c) && c.epoch == 1 && !c.fallback && c.storeId != id
  }

  predicate Fenced(d: Disk) {
    d.marker.Content? && ValidRetirement(d.marker.value)
  }

  function LoadDisk(d: Disk): Load {
    if d.store.Absent? && d.marker.Absent? then Uninitialised
    else if && d.store.Content? && d.marker.Content? && d.marker.value.Plain?
            && ValidState(d.store.value) && d.store.value.storeId == d.marker.value.id
      then Known(d.store.value)
    else AuthorityUnknown
  }

  function RetirementStatus(d: Disk): Option<Ack> {
    if !Fenced(d) || !d.store.Content? || !ValidState(d.store.value) then None
    else if d.marker.value.Retired? && d.marker.value.id == d.store.value.storeId then Some(AckRetired)
    else if d.marker.value.RollingBack? && d.marker.value.candidate == d.store.value then Some(AckActive)
    else None
  }

  /** Permission to act: disk holds exactly this writer's state. */
  predicate IsKnown(a: Addon) {
    a.state.Some? && LoadDisk(a.disk) == Known(a.state.value)
  }

  function PutStore(a: Addon, s: AuthorityState, fault: WriteFault): Addon {
    a.(disk := a.disk.(store := Put(a.disk.store, s, fault)))
  }

  function PutMarker(a: Addon, m: Marker, fault: WriteFault): Addon {
    a.(disk := a.disk.(marker := Put(a.disk.marker, m, fault)))
  }

  // ---------------------------------------------------------------- local operations

  function Saved(a: Addon, candidate: AuthorityState, fault: WriteFault): Addon {
    var asked := a.(pending := Some(candidate));
    var current := LoadDisk(a.disk);
    if !ValidState(candidate) || !current.Known? || current.state.storeId != candidate.storeId
      then asked.(saveFailed := true)
    else
      var written := PutStore(asked, candidate, fault);
      if fault == Clean then written.(state := Some(candidate), saveFailed := false, pending := None)
      else written.(saveFailed := true)
  }

  function PersistedInitial(a: Addon, s: AuthorityState, f1: WriteFault, f2: WriteFault): Addon {
    var stored := PutStore(a.(pending := Some(s), initialising := true), s, f1);
    if f1 != Clean then stored.(saveFailed := true)
    else
      var marked := PutMarker(stored, Plain(s.storeId), f2);
      if f2 != Clean then marked.(saveFailed := true)
      else marked.(state := Some(s), saveFailed := false, pending := None, initialising := false)
  }

  function Initialised(a: Addon, freshId: nat, f1: WriteFault, f2: WriteFault): Addon {
    match LoadDisk(a.disk)
    case Uninitialised => PersistedInitial(a, FreshObserve(freshId), f1, f2)
    case Known(s) => a.(state := Some(s))
    case AuthorityUnknown => a.(state := None)
  }

  function Opened(disk: Disk): Addon {
    var loaded := LoadDisk(disk);
    Addon(disk, if loaded.Known? then Some(loaded.state) else None, None, false, false)
  }

  /** The epoch bump that fences work left by an earlier daemon process. */
  function Started(a: Addon, freshId: nat, f1: WriteFault, f2: WriteFault): Addon {
    if IsKnown(a) then Saved(a, a.state.value.(epoch := a.state.value.epoch + 1), f1)
    else Initialised(a, freshId, f1, f2)
  }

  function Retried(a: Addon, f1: WriteFault, f2: WriteFault): Addon {
    if a.pending.None? then a
    else if a.initialising then PersistedInitial(a, a.pending.value, f1, f2)
    else Saved(a, a.pending.value, f1)
  }

  function FallbackSaved(a: Addon, active: bool, fault: WriteFault): Addon {
    if a.state.None? || a.state.value.fallback == active then a
    else Saved(a, a.state.value.(fallback := active, epoch := a.state.value.epoch + 1), fault)
  }

  function ObserveConfirmed(a: Addon, freshId: nat, f1: WriteFault, f2: WriteFault): Addon {
    if Fenced(a.disk) || IsKnown(a) then a
    else PersistedInitial(a, FreshObserve(freshId), f1, f2)
  }

  // ---------------------------------------------------------------- the handshake

  predicate CanHandover(a: Addon, owner: Owner) {
    && a.disk.store.Content? && ValidState(a.disk.store.value) && Settled(a.disk.store.value)
    && !a.disk.marker.Absent?
    && if !Fenced(a.disk) then owner == PendingIntegration && IsKnown(a) && !a.saveFailed
       else
         var m := a.disk.marker.value;
         var original := a.disk.store.value.storeId == m.id;
         && (original || (m.RollingBack? && a.disk.store.value == m.candidate))
         && (owner == PendingAddon || (owner == PendingIntegration && m.Retired? && original))
  }

  function RetiredNow(a: Addon, owner: Owner, fault: WriteFault): (Addon, Option<Ack>) {
    if owner != PendingIntegration || !IsKnown(a) || a.saveFailed || !Settled(a.state.value) then (a, None)
    else
      var written := PutMarker(a, Retired(a.state.value.storeId), fault);
      if fault == Clean then (written.(pending := None, state := None), Some(AckRetired))
      else (written.(saveFailed := true), None)
  }

  /** Replay the persisted candidate over the store; the marker still fences it. */
  function CandidateStored(a: Addon, c: AuthorityState, fault: WriteFault): (Addon, Option<Ack>) {
    var written := PutStore(a, c, fault);
    if fault == Clean then (written.(saveFailed := false), Some(AckActive))
    else (written.(saveFailed := true), None)
  }

  function HandedOverFenced(
      a: Addon, owner: Owner, freshId: nat, f1: WriteFault, f2: WriteFault): (Addon, Option<Ack>)
    requires Fenced(a.disk)
  {
    var m := a.disk.marker.value;
    if !a.disk.store.Content? || !ValidState(a.disk.store.value) then (a.(saveFailed := true), None)
    else
      var resident := a.disk.store.value;
      var original := resident.storeId == m.id && Settled(resident);
      var restored := m.RollingBack? && resident == m.candidate;
      if !original && !restored then (a, None)
      else match owner
        case PendingIntegration | OwnerIntegration =>
          if !m.Retired? || !original then (a, None)
          else if !a.saveFailed then (a, Some(AckRetired))
          else
            var written := PutMarker(a, m, f1);
            if f1 == Clean then (written.(saveFailed := false), Some(AckRetired))
            else (written, None)
        case PendingAddon =>
          if m.RollingBack? then CandidateStored(a, m.candidate, f1)
          else if freshId == m.id then (a.(saveFailed := true), None)
          else
            var c := FreshObserve(freshId);
            var written := PutMarker(a, RollingBack(m.id, c), f1);
            if f1 == Clean then CandidateStored(written, c, f2)
            else (written.(saveFailed := true), None)
        case OwnerAddon =>
          if !restored then (a, None)
          else
            var written := PutMarker(a, Plain(m.candidate.storeId), f1);
            if f1 == Clean then (written.(state := Some(m.candidate), saveFailed := false), Some(AckActive))
            else (written.(saveFailed := true), None)
  }

  function HandedOver(
      a: Addon, owner: Owner, freshId: nat, f1: WriteFault, f2: WriteFault): (Addon, Option<Ack>)
  {
    if a.disk.marker.Absent? then (a.(saveFailed := true), None)
    else if Fenced(a.disk) then HandedOverFenced(a, owner, freshId, f1, f2)
    else RetiredNow(a, owner, f1)
  }

  // ---------------------------------------------------------------- the writer itself

  /** The daemon's single writer, as it runs: branch by branch over its own fields. */
  class AuthorityStore {
    var store: File<AuthorityState>
    var marker: File<Marker>
    var state: Option<AuthorityState>
    var pending: Option<AuthorityState>
    var initialising: bool
    var saveFailed: bool

    ghost function View(): Addon
      reads this
    {
      Addon(Disk(store, marker), state, pending, initialising, saveFailed)
    }

    constructor (disk: Disk)
      ensures View() == Opened(disk)
    {
      store, marker := disk.store, disk.marker;
      var loaded := LoadDisk(disk);
      state := if loaded.Known? then Some(loaded.state) else None;
      pending, initialising, saveFailed := None, false, false;
    }

    method Known() returns (known: bool)
      ensures known == IsKnown(View())
    {
      if state.None? {
        return false;
      }
      var loaded := LoadDisk(Disk(store, marker));
      known := loaded.Known? && loaded.state == state.value;
    }

    method DurableStore(s: AuthorityState, fault: WriteFault) returns (raised: bool)
      modifies this`store
      ensures View() == PutStore(old(View()), s, fault) && raised == (fault != Clean)
    {
      if fault != FailsBefore {
        store := Content(s);
      }
      raised := fault != Clean;
    }

    method DurableMarker(m: Marker, fault: WriteFault) returns (raised: bool)
      modifies this`marker
      ensures View() == PutMarker(old(View()), m, fault) && raised == (fault != Clean)
    {
      if fault != FailsBefore {
        marker := Content(m);
      }
      raised := fault != Clean;
    }

    method Save(candidate: AuthorityState, fault: WriteFault) returns (raised: bool)
      modifies this
      ensures View() == Saved(old(View()), candidate, fault) && raised == saveFailed
    {
      pending := Some(candidate);
      var current := LoadDisk(Disk(store, marker));
      if !ValidState(candidate) || !current.Known? || current.state.storeId != candidate.storeId {
        saveFailed := true;
        return true;
      }
      raised := DurableStore(candidate, fault);
      if raised {
        saveFailed := true;
        return true;
      }
      state, saveFailed, pending := Some(candidate), false, None;
    }

    method PersistInitial(s: AuthorityState, f1: WriteFault, f2: WriteFault) returns (raised: bool)
      modifies this
      ensures View() == PersistedInitial(old(View()), s, f1, f2) && raised == saveFailed
    {
      pending, initialising := Some(s), true;
      raised := DurableStore(s, f1);
      if !raised {
        raised := DurableMarker(Plain(s.storeId), f2);
      }
      if raised {
        saveFailed := true;
        return;
      }
      state, saveFailed, pending, initialising := Some(s), false, None, false;
    }

    method Initialise(freshId: nat, f1: WriteFault, f2: WriteFault)
      modifies this
      ensures View() == Initialised(old(View()), freshId, f1, f2)
    {
      var loaded := LoadDisk(Disk(store, marker));
      if loaded.Uninitialised? {
        var _ := PersistInitial(FreshObserve(freshId), f1, f2);
      } else {
        state := if loaded.Known? then Some(loaded.state) else None;
      }
    }

    method StartProcess(freshId: nat, f1: WriteFault, f2: WriteFault)
      modifies this
      ensures View() == Started(old(View()), freshId, f1, f2)
    {
      var known := Known();
      if known {
        var next := state.value.(epoch := state.value.epoch + 1);
        pending := Some(next);
        var _ := Save(next, f1);
      } else {
        Initialise(freshId, f1, f2);
      }
    }

    method RetryPending(f1: WriteFault, f2: WriteFault)
      modifies this
      ensures View() == Retried(old(View()), f1, f2)
    {
      if pending.Some? {
        if initialising {
          var _ := PersistInitial(pending.value, f1, f2);
        } else {
          var _ := Save(pending.value, f1);
        }
      }
    }

    method SaveFallback(active: bool, fault: WriteFault) returns (changed: bool)
      modifies this
      ensures View() == FallbackSaved(old(View()), active, fault)
      ensures changed ==> state.Some? && state.value.fallback == active && !saveFailed
    {
      if state.None? || state.value.fallback == active {
        return false;
      }
      var raised := Save(state.value.(fallback := active, epoch := state.value.epoch + 1), fault);
      changed := !raised;
    }

    method ConfirmObserve(freshId: nat, f1: WriteFault, f2: WriteFault) returns (raised: bool)
      modifies this
      ensures View() == ObserveConfirmed(old(View()), freshId, f1, f2)
      ensures Fenced(old(View()).disk) || IsKnown(old(View())) ==> raised
    {
      if marker.Content? && ValidRetirement(marker.value) {
        return true;
      }
      var known := Known();
      if known {
        return true;
      }
      raised := PersistInitial(FreshObserve(freshId), f1, f2);
    }

    method Handover(owner: Owner, freshId: nat, f1: WriteFault, f2: WriteFault) returns (ack: Option<Ack>)
      modifies this
      ensures (View(), ack) == HandedOver(old(View()), owner, freshId, f1, f2)
    {
      ack := None;
      if marker.Absent? {
        saveFailed := true;
        return;
      }
      if !(marker.Content? && ValidRetirement(marker.value)) {
        ack := RetireFresh(owner, f1);
        return;
      }
      var m := marker.value;
      if !store.Content? || !ValidState(store.value) {
        saveFailed := true;
        return;
      }
      var original := store.value.storeId == m.id && Settled(store.value);
      if !original && !(m.RollingBack? && store.value == m.candidate) {
        return;
      }
      if owner == PendingIntegration || owner == OwnerIntegration {
        if !m.Retired? || !original {
          return;
        }
        if saveFailed {
          var raised := DurableMarker(m, f1);
          if raised {
            return;
          }
        }
        saveFailed := false;
        return Some(AckRetired);
      }
      if owner == PendingAddon {
        ack := RollBack(m, freshId, f1, f2);
      } else if m.RollingBack? && store.value == m.candidate {
        var raised := DurableMarker(Plain(m.candidate.storeId), f1);
        if raised {
          saveFailed := true;
          return;
        }
        state, saveFailed := Some(m.candidate), false;
        ack := Some(AckActive);
      }
    }

    method RetireFresh(owner: Owner, fault: WriteFault) returns (ack: Option<Ack>)
      modifies this
      ensures (View(), ack) == RetiredNow(old(View()), owner, fault)
    {
      ack := None;
      var known := Known();
      if owner != PendingIntegration || !known || saveFailed || !Settled(state.value) {
        return;
      }
      var raised := DurableMarker(Retired(state.value.storeId), fault);
      if raised {
        saveFailed := true;
        return;
      }
      pending, state := None, None;
      ack := Some(AckRetired);
    }

    method RollBack(m: Marker, freshId: nat, f1: WriteFault, f2: WriteFault) returns (ack: Option<Ack>)
      requires marker == Content(m) && ValidRetirement(m)
      requires store.Content? && ValidState(store.value)
      requires (store.value.storeId == m.id && Settled(store.value))
               || (m.RollingBack? && store.value == m.candidate)
      modifies this
      ensures (View(), ack) == HandedOverFenced(old(View()), PendingAddon, freshId, f1, f2)
    {
      ack := None;
      var candidate := FreshObserve(freshId);
      var second := f1;
      if m.Retired? {
        if freshId == m.id {
          saveFailed := true;
          return;
        }
        var raised := DurableMarker(RollingBack(m.id, candidate), f1);
        if raised {
          saveFailed := true;
          return;
        }
        second := f2;
      } else {
        candidate := m.candidate;
      }
      var raised := DurableStore(candidate, second);
      saveFailed := raised;
      ack := if raised then None else Some(AckActive);
    }
  }
}
