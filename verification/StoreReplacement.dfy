/** The saves that replace an entry's whole authority: the repair's confirmation, and a
    handover out and back. They are the same for any record kept in the store. */
module StoreReplacement {
  import opened Basics
  import opened SiteAuthority

  /** A store that was initialised: its record and the record's identity, the marker
      beside it, what the process shows, and whether its last save failed. */
  datatype Kept<T> = Kept(record: T, id: nat, marker: SiteMarker, memory: Option<T>, saveFailed: bool)

  /** What a load makes of it. */
  function Standing(id: nat, marker: SiteMarker): Status {
    if marker == Bound(id) then StatusOk else if marker == Revoked(id) then StatusRetired else StatusUnknown
  }

  predicate MayConfirm(id: nat, marker: SiteMarker, saveFailed: bool) {
    Standing(id, marker).StatusUnknown? || (Standing(id, marker).StatusOk? && saveFailed)
  }

  predicate MayInitialise(id: nat, marker: SiteMarker, saveFailed: bool) {
    Standing(id, marker).StatusRetired? && !saveFailed
  }

  predicate MayRetire(id: nat, marker: SiteMarker, saveFailed: bool, settled: bool) {
    Standing(id, marker).StatusOk? && !saveFailed && settled
  }

  /** A new record over the old one, then the marker that names it. */
  function Overwritten<T>(k: Kept<T>, record: T, id: nat, f1: WriteFault, f2: WriteFault): Kept<T> {
    if f1 == FailsBefore then k.(memory := None, saveFailed := true)
    else if f1 == FailsAfter then Kept(record, id, k.marker, None, true)
    else if f2 == Clean then Kept(record, id, Bound(id), Some(record), false)
    else Kept(record, id, if f2 == FailsBefore then k.marker else Bound(id), None, true)
  }

  function Confirmed<T>(k: Kept<T>, record: T, id: nat, f1: WriteFault, f2: WriteFault): Kept<T> {
    if MayConfirm(k.id, k.marker, k.saveFailed) then Overwritten(k, record, id, f1, f2) else k
  }

  function Initialised<T>(k: Kept<T>, record: T, id: nat, f1: WriteFault, f2: WriteFault): Kept<T> {
    if MayInitialise(k.id, k.marker, k.saveFailed) then Overwritten(k, record, id, f1, f2) else k
  }

  function Retired<T>(k: Kept<T>, settled: bool, f: WriteFault): Kept<T> {
    if !MayRetire(k.id, k.marker, k.saveFailed, settled) then k
    else k.(marker := if f == FailsBefore then k.marker else Revoked(k.id), memory := None, saveFailed := f != Clean)
  }

  function Restarted<T>(k: Kept<T>): Kept<T> {
    k.(memory := if Standing(k.id, k.marker).StatusOk? then Some(k.record) else None, saveFailed := false)
  }

  /** A site's store, seen as such. */
  predicate Depicts(s: Site, k: Kept<SiteState>) {
    && s.disk == SiteDisk(Content(k.record), Content(k.marker)) && k.record.epoch >= 1 && k.id == k.record.storeId
    && Exposed(s) == k.memory && (s.status.SaveFailed? <==> k.saveFailed)
  }

  /** These are the site store's own operations, branch for branch. */
  lemma ReplacementsAreTheSites(s: Site, k: Kept<SiteState>, id: nat, f1: WriteFault, f2: WriteFault)
    requires Depicts(s, k)
    ensures Depicts(SiteConfirmed(s, id, f1, f2), Confirmed(k, NewSite(id), id, f1, f2))
    ensures Depicts(SiteInitialised(s, id, f1, f2), Initialised(k, NewSite(id), id, f1, f2))
    ensures Depicts(SiteRetired(s, f1).0, Retired(k, SettledSite(k.record), f1))
    ensures Depicts(SiteOpened(s.disk), Restarted(k))
  {
  }
}
