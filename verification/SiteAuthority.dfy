/** The integration's own authority: a store and a marker that must name the same
    identity, exposed to readers only after an independent reload. */
module SiteAuthority {
  import opened Basics

  datatype SiteMode = SiteObserve | SiteProtect | SiteOptimise

  datatype SiteState = SiteState(
    storeId: nat,
    mode: SiteMode,
    transition: Option<SiteMode>,
    epoch: nat,
    holds: seq<nat>,
    manual: bool)

  datatype SiteMarker = Bound(id: nat) | Revoked(id: nat)

  datatype SiteDisk = SiteDisk(store: File<SiteState>, marker: File<SiteMarker>)

  datatype Status = NeverInitialised | StatusOk | StatusUnknown | SaveFailed | StatusRetired

  datatype Site = Site(disk: SiteDisk, status: Status, held: Option<SiteState>)

  /** A handshake starts the integration from nothing but this. */
  predicate FreshSite(s: SiteState) {
    s.mode == SiteObserve && s.epoch == 1 && s.holds == [] && s.transition.None? && !s.manual
  }

  predicate SettledSite(s: SiteState) {
    s.mode == SiteObserve && s.holds == [] && s.transition.None? && !s.manual
  }

  function NewSite(id: nat): SiteState {
    SiteState(id, SiteObserve, None, 1, [], false)
  }

  function ReadDisk(d: SiteDisk): (Status, Option<SiteState>) {
    if d.store.Absent? && d.marker.Absent? then (NeverInitialised, None)
    else if !d.store.Content? || d.store.value.epoch < 1 || !d.marker.Content? then (StatusUnknown, None)
    else if d.marker.value == Revoked(d.store.value.storeId) then (StatusRetired, None)
    else if d.marker.value == Bound(d.store.value.storeId) then (StatusOk, Some(d.store.value))
    else (StatusUnknown, None)
  }

  /** What every permission check may see: nothing after an unknown or failed save. */
  function Exposed(s: Site): Option<SiteState> {
    if s.status == StatusOk then s.held else None
  }

  function SaveFailurePublished(s: Site): Site {
    s.(status := SaveFailed)
  }

  function SiteOpened(d: SiteDisk): Site {
    var (status, state) := ReadDisk(d);
    Site(d, status, state)
  }

  function Persisted(s: Site, c: SiteState, initial: bool, f1: WriteFault, f2: WriteFault): Site {
    if c.epoch < 1 then SaveFailurePublished(s)
    else
      var stored := s.(disk := s.disk.(store := Put(s.disk.store, c, f1)));
      if f1 != Clean then SaveFailurePublished(stored)
      else
        var marked := if initial
          then stored.(disk := stored.disk.(marker := Put(stored.disk.marker, Bound(c.storeId), f2)))
          else stored;
        if (initial && f2 != Clean) || ReadDisk(marked.disk) != (StatusOk, Some(c))
          then SaveFailurePublished(marked)
        else marked.(status := StatusOk, held := Some(c))
  }

  function SiteSaved(s: Site, c: SiteState, f: WriteFault): Site {
    var (status, current) := ReadDisk(s.disk);
    if || status != StatusOk || s.held.None?
       || current.value.storeId != s.held.value.storeId || c.storeId != current.value.storeId
      then s.(status := StatusUnknown)
    else Persisted(s, c, false, f, Clean)
  }

  function SiteInitialised(s: Site, id: nat, f1: WriteFault, f2: WriteFault): Site {
    var status := ReadDisk(s.disk).0;
    if (status != NeverInitialised && status != StatusRetired) || s.status == SaveFailed then s
    else Persisted(s, NewSite(id), true, f1, f2)
  }

  /** The new site and whether the caller may count it as retired. */
  function SiteRetired(s: Site, f: WriteFault): (Site, bool) {
    var (status, state) := ReadDisk(s.disk);
    if status == StatusRetired then (s, true)
    else if status != StatusOk || s.status == SaveFailed || !SettledSite(state.value) then (s, false)
    else
      var marked := s.(disk := s.disk.(marker := Put(s.disk.marker, Revoked(state.value.storeId), f)));
      if f != Clean then (SaveFailurePublished(marked), false)
      else (marked.(status := StatusRetired), true)
  }

  function SiteConfirmed(s: Site, id: nat, f1: WriteFault, f2: WriteFault): Site {
    var status := ReadDisk(s.disk).0;
    if || status == StatusRetired
       || ((status == StatusOk || status == NeverInitialised) && s.status != SaveFailed)
      then s
    else Persisted(s, NewSite(id), true, f1, f2)
  }

  /** A site is sound when whatever it exposes is what its disk would load. */
  predicate Sound(s: Site) {
    s.status == StatusOk ==> s.held.Some? && ReadDisk(s.disk) == (StatusOk, s.held)
  }

  /** No partially saved candidate is ever exposed, before or after a crash: memory
      shows it only if every write was clean, and a reload shows either what the disk
      loaded before or, once the marker binds it, the whole candidate. */
  lemma InitialSaveIsAllOrNothing(s: Site, c: SiteState, f1: WriteFault, f2: WriteFault)
    requires Sound(s) && c.epoch >= 1
    requires s.disk.marker.Content? ==> s.disk.marker.value.id != c.storeId
    ensures
      var p := Persisted(s, c, true, f1, f2);
      var reloaded := ReadDisk(p.disk);
      && Sound(p)
      && (Exposed(p) == Some(c) <==> f1 == Clean && f2 == Clean)
      && (Exposed(p).Some? ==> Exposed(p) == Some(c))
      && (f1 == FailsBefore ==> reloaded == ReadDisk(s.disk))
      && (reloaded.1 == Some(c) || reloaded.1.None? || reloaded == ReadDisk(s.disk))
      && (f1 == Clean && f2 != FailsBefore ==> reloaded == (StatusOk, Some(c)))
      && (f1 == FailsAfter || (f1 == Clean && f2 == FailsBefore) ==> reloaded == (StatusUnknown, None))
  {
  }

  /** A save over an exposed state is shown exactly when it is valid, of the same identity
      and clean; nothing else is shown in its place, and the marker is left alone. */
  lemma SaveIsShownExactlyWhen(s: Site, c: SiteState, f: WriteFault)
    requires Sound(s) && Exposed(s).Some? && Exposed(s) != Some(c)
    ensures
      var v := SiteSaved(s, c, f);
      && (Exposed(v) == Some(c) <==> c.epoch >= 1 && c.storeId == Exposed(s).value.storeId && f == Clean)
      && (Exposed(v).Some? ==> Exposed(v) == Some(c))
      && v.disk.marker == s.disk.marker
      && (v.disk.store == if c.epoch >= 1 && c.storeId == Exposed(s).value.storeId && f != FailsBefore
                          then Content(c) else s.disk.store)
  {
  }

  /** What a disk loads as: a valid store under the marker that binds it, nothing at all, a
      valid store under the marker that revokes it, and anything else unknown. */
  lemma LoadsExactlyWhen(d: SiteDisk, c: SiteState)
    ensures ReadDisk(d) == (StatusOk, Some(c))
      <==> d.store == Content(c) && c.epoch >= 1 && d.marker == Content(Bound(c.storeId))
    ensures ReadDisk(d).0 == NeverInitialised <==> d.store.Absent? && d.marker.Absent?
    ensures ReadDisk(d).0 == StatusRetired <==>
      d.store.Content? && d.store.value.epoch >= 1 && d.marker == Content(Revoked(d.store.value.storeId))
    ensures ReadDisk(d).0 != SaveFailed && (ReadDisk(d).1.Some? <==> ReadDisk(d).0 == StatusOk)
  {
  }

  /** A fresh site is one just made, under whatever identity. */
  lemma FreshIsNew(s: SiteState)
    ensures FreshSite(s) <==> s == NewSite(s.storeId)
  {
  }

  /** A save against a store that does not load, or that is no longer the one in memory,
      touches nothing and publishes nothing. */
  lemma StrangeStoreIsNotSaved(s: Site, c: SiteState, f: WriteFault)
    requires ReadDisk(s.disk).0 != StatusOk || s.held.None? || s.disk.store.value.storeId != s.held.value.storeId
    ensures SiteSaved(s, c, f).disk == s.disk && Exposed(SiteSaved(s, c, f)).None?
  {
  }

  /** A retirement is counted exactly when the store is revoked already, or was settled,
      saved and is now revoked cleanly; then nothing loads and nothing is shown. */
  lemma RetiredExactlyWhen(s: Site, f: WriteFault)
    requires Sound(s)
    ensures
      var (v, retired) := SiteRetired(s, f);
      var (status, state) := ReadDisk(s.disk);
      && (retired <==>
            || status == StatusRetired
            || (status == StatusOk && s.status != SaveFailed && f == Clean
                && state.value.mode == SiteObserve && state.value.holds == [] && state.value.transition.None?
                && !state.value.manual))
      && (retired ==> ReadDisk(v.disk).0 == StatusRetired && Exposed(v).None?)
      && v.disk.store == s.disk.store && (v.disk.marker != s.disk.marker ==> status == StatusOk && Exposed(v).None?)
  {
  }

  /** The repair replaces exactly what does not load, or could not be saved, and never a
      revoked store; done cleanly it shows a new site in observe. */
  lemma ConfirmReplacesExactlyWhen(s: Site, id: nat, f1: WriteFault, f2: WriteFault)
    ensures
      var (status, v) := (ReadDisk(s.disk).0, SiteConfirmed(s, id, f1, f2));
      if status == StatusUnknown || (s.status == SaveFailed && status != StatusRetired)
      then f1 == f2 == Clean ==> Exposed(v) == Some(SiteState(id, SiteObserve, None, 1, [], false)) && Sound(v)
      else v == s
  {
  }

  /** A handshake starts from nothing, or from a revoked store. */
  lemma InitialisesExactlyWhen(s: Site, id: nat, f1: WriteFault, f2: WriteFault)
    ensures
      var (status, v) := (ReadDisk(s.disk).0, SiteInitialised(s, id, f1, f2));
      if (status == NeverInitialised || status == StatusRetired) && s.status != SaveFailed
      then f1 == f2 == Clean ==> Exposed(v) == Some(SiteState(id, SiteObserve, None, 1, [], false)) && Sound(v)
      else v == s
  {
  }

  /** Retirement and its redelivery: the store never loads again as authority until a
      handshake initialises a new identity. */
  lemma RevokedStaysRevoked(s: Site, c: SiteState, id: nat, f1: WriteFault, f2: WriteFault)
    requires ReadDisk(s.disk).0 == StatusRetired
    ensures SiteRetired(s, f1) == (s, true)
    ensures SiteSaved(s, c, f1).disk == s.disk && Exposed(SiteSaved(s, c, f1)).None?
    ensures SiteConfirmed(s, id, f1, f2) == s
  {
  }

  class SiteAuthorityStore {
    var store: File<SiteState>
    var marker: File<SiteMarker>
    var status: Status
    var held: Option<SiteState>

    function View(): Site
      reads this
    {
      Site(SiteDisk(store, marker), status, held)
    }

    constructor (disk: SiteDisk)
      ensures View() == SiteOpened(disk)
    {
      var loaded := ReadDisk(disk);
      store, marker := disk.store, disk.marker;
      status, held := loaded.0, loaded.1;
    }

    method PublishSaveFailed()
      modifies this`status
      ensures View() == SaveFailurePublished(old(View()))
    {
      status := SaveFailed;
    }

    method Persist(c: SiteState, initial: bool, f1: WriteFault, f2: WriteFault) returns (saved: bool)
      modifies this
      ensures View() == Persisted(old(View()), c, initial, f1, f2)
      ensures if saved then Exposed(View()) == Some(c) else status == SaveFailed
    {
      saved := false;
      if c.epoch < 1 {
        PublishSaveFailed();
        return;
      }
      if f1 != FailsBefore {
        store := Content(c);
      }
      if f1 == Clean && initial && f2 != FailsBefore {
        marker := Content(Bound(c.storeId));
      }
      if f1 != Clean || (initial && f2 != Clean) {
        PublishSaveFailed();
        return;
      }
      var reloaded := ReadDisk(SiteDisk(store, marker));
      if reloaded != (StatusOk, Some(c)) {
        PublishSaveFailed();
        return;
      }
      status, held := StatusOk, Some(c);
      saved := true;
    }

    method Save(c: SiteState, f: WriteFault) returns (saved: bool)
      modifies this
      ensures View() == SiteSaved(old(View()), c, f)
      ensures saved ==> Exposed(View()) == Some(c)
    {
      var loaded := ReadDisk(SiteDisk(store, marker));
      if loaded.0 != StatusOk || held.None? || loaded.1.value.storeId != held.value.storeId
         || c.storeId != loaded.1.value.storeId {
        status := StatusUnknown;
        return false;
      }
      saved := Persist(c, false, f, Clean);
    }

    method Initialise(id: nat, f1: WriteFault, f2: WriteFault) returns (saved: bool)
      modifies this
      ensures View() == SiteInitialised(old(View()), id, f1, f2)
      ensures saved ==> Exposed(View()) == Some(NewSite(id))
      ensures !saved ==> View() == old(View()) || Exposed(View()).None?
    {
      var loaded := ReadDisk(SiteDisk(store, marker));
      if (loaded.0 != NeverInitialised && loaded.0 != StatusRetired) || status == SaveFailed {
        return false;
      }
      saved := Persist(NewSite(id), true, f1, f2);
    }

    method Retire(f: WriteFault) returns (retired: bool)
      modifies this
      ensures (View(), retired) == SiteRetired(old(View()), f)
    {
      var loaded := ReadDisk(SiteDisk(store, marker));
      if loaded.0 == StatusRetired {
        return true;
      }
      if loaded.0 != StatusOk || status == SaveFailed || !SettledSite(loaded.1.value) {
        return false;
      }
      if f != FailsBefore {
        marker := Content(Revoked(loaded.1.value.storeId));
      }
      status := if f == Clean then StatusRetired else SaveFailed;
      retired := f == Clean;
    }

    method ConfirmObserve(id: nat, f1: WriteFault, f2: WriteFault) returns (saved: bool)
      modifies this
      ensures View() == SiteConfirmed(old(View()), id, f1, f2)
      ensures saved ==> Exposed(View()) == Some(NewSite(id))
    {
      var loaded := ReadDisk(SiteDisk(store, marker));
      if loaded.0 == StatusRetired
         || ((loaded.0 == StatusOk || loaded.0 == NeverInitialised) && status != SaveFailed) {
        return false;
      }
      saved := Persist(NewSite(id), true, f1, f2);
    }
  }
}
