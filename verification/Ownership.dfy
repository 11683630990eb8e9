/** The integration half of the handshake: a durable owner record, a memory of it
    that is withdrawn before every save, and the heartbeat reply that alone may
    advance it. Work that awaits is cut into steps, one durable write each. */
module Ownership {
  import opened Basics
  import opened AddonAuthority
  import opened SiteAuthority

  /** Which side the accepted topology asks for; never a permission. */
  datatype Side = AddonSide | IntegrationSide

  datatype StoreState = StoreOk | StoreUnknown | StoreSaveFailed

  /** The add-on facts of a version 4 reply. A mode of None is "authority unknown". */
  datatype PeerFacts = PeerFacts(active: Ack, mode: Option<Mode>, holdsPresent: bool, storeState: StoreState)

  datatype Summary = Summary(
    apiVersion: nat,
    addon: Option<PeerFacts>,
    mode: Option<Mode>,
    transition: Option<Mode>)

  datatype Reason =
    | StoreUnknownReason | SwitchPending | PeerVersion | ObserveRequired
    | HoldsPresent | TransitionPresent | ManualPresent | SwitchSaveFailed

  /** What remains of the one serialised operation in progress. */
  datatype Work =
    | Resting
    | Admitting
    | Withdrawing
    | Recording(owner: Owner, reconciling: bool)
    | Verifying(owner: Owner, reconciling: bool)

  datatype Integration = Integration(
    record: File<Owner>,
    owner: Owner,
    verified: bool,
    reconcile: bool,
    site: Site,
    wants: Side,
    work: Work)

  predicate IsPending(o: Owner) {
    o == PendingIntegration || o == PendingAddon
  }

  function SideOwner(s: Side): Owner {
    if s == AddonSide then OwnerAddon else OwnerIntegration
  }

  function PendingFor(s: Side): Owner {
    if s == IntegrationSide then PendingIntegration else PendingAddon
  }

  function Withdrawal(o: Owner): Owner {
    if o == PendingIntegration then OwnerAddon else OwnerIntegration
  }

  /** Confirmed durable ownership, as every write permission reads it. */
  function AuthorityOwner(i: Integration): Owner {
    if !i.verified || i.reconcile then PendingIntegration
    else if i.owner == OwnerIntegration && Exposed(i.site).None? then PendingIntegration
    else i.owner
  }

  /** What the next snapshot claims. */
  function SnapshotOwner(i: Integration): Owner {
    if i.verified then i.owner else PendingIntegration
  }

  function Refusal(i: Integration, target: Side, summary: Option<Summary>): Option<Reason> {
    if !i.verified then Some(StoreUnknownReason)
    else if IsPending(i.owner) then Some(SwitchPending)
    else if SideOwner(target) == i.owner then None
    else if summary.None? || summary.value.apiVersion != 4 || summary.value.addon.None? then Some(PeerVersion)
    else
      var facts := summary.value.addon.value;
      if facts.storeState != StoreOk || (i.owner == OwnerAddon && facts.active != AckActive)
        then Some(StoreUnknownReason)
      else if facts.mode != Some(Observe) then Some(ObserveRequired)
      else if facts.holdsPresent then Some(HoldsPresent)
      else if summary.value.mode != Some(Observe) || summary.value.transition.Some? then Some(TransitionPresent)
      else if i.owner != OwnerIntegration then None
      else
        var state := Exposed(i.site);
        if state.None? then Some(StoreUnknownReason)
        else if state.value.mode != SiteObserve then Some(ObserveRequired)
        else if state.value.holds != [] then Some(HoldsPresent)
        else if state.value.transition.Some? then Some(TransitionPresent)
        else if state.value.manual then Some(ManualPresent)
        else None
  }

  /** The peer speaks this protocol and has nothing to lose: Observe, no holds, no
      transition; a peer that still owns the site also says so. */
  predicate PeerSettled(summary: Option<Summary>, owner: Owner) {
    && summary.Some? && summary.value.apiVersion == 4 && summary.value.addon.Some?
    && summary.value.mode == Some(Observe) && summary.value.transition.None?
    && var facts := summary.value.addon.value;
       && facts.storeState == StoreOk && facts.mode == Some(Observe) && !facts.holdsPresent
       && (owner == OwnerAddon ==> facts.active == AckActive)
  }

  /** A switch begins exactly between two settled sides: a verified owner that is not
      already moving, its peer's settled report, and a settled authority of its own. */
  lemma SwitchBeginsExactlyWhen(i: Integration, target: Side, summary: Option<Summary>)
    ensures
      Requested(i, target, summary) != i && i.work.Resting? <==>
        && i.work.Resting? && i.verified && !IsPending(i.owner) && SideOwner(target) != i.owner
        && PeerSettled(summary, i.owner)
        && (i.owner == OwnerIntegration ==> Exposed(i.site).Some? && SettledSite(Exposed(i.site).value))
  {
    assert Refusal(i, target, summary).None? && SideOwner(target) != i.owner ==>
      Requested(i, target, summary).work.Recording?;
  }

  // ---------------------------------------------------------------- steps

  /** Publish the fence before the first await of a save. */
  function Fencing(i: Integration, o: Owner, reconciling: bool): Integration {
    i.(verified := false, owner := if IsPending(o) then o else i.owner, work := Recording(o, reconciling))
  }

  function Recorded(i: Integration, fault: WriteFault): Integration
    requires i.work.Recording?
  {
    var written := i.(record := Put(i.record, i.work.owner, fault));
    if fault == Clean then written.(work := Verifying(i.work.owner, i.work.reconciling))
    else written.(work := Resting, site := SaveFailurePublished(i.site))
  }

  function Verified(i: Integration): Integration
    requires i.work.Verifying?
  {
    if i.record != Content(i.work.owner) then i.(work := Resting, site := SaveFailurePublished(i.site))
    else i.(owner := i.work.owner, verified := true, work := Resting,
            reconcile := i.reconcile && !i.work.reconciling)
  }

  /** The retired reply is in hand: initialise local authority, then claim ownership. */
  function Admitted(i: Integration, id: nat, f1: WriteFault, f2: WriteFault): Integration {
    var started := i.(site := SiteInitialised(i.site, id, f1, f2), work := Resting);
    if Exposed(started.site).Some? && FreshSite(Exposed(started.site).value)
      then Fencing(started, OwnerIntegration, false)
    else started
  }

  function Withdrawn(i: Integration, f: WriteFault): Integration {
    var (site, retired) := SiteRetired(i.site, f);
    var stopped := i.(site := site, work := Resting);
    if retired then Fencing(stopped, OwnerAddon, false) else stopped
  }

  // ---------------------------------------------------------------- operations begin

  function Requested(i: Integration, target: Side, summary: Option<Summary>): Integration {
    if Refusal(i, target, summary).Some? || SideOwner(target) == i.owner then i
    else Fencing(i, PendingFor(target), false)
  }

  function Aborted(i: Integration): Integration {
    if IsPending(i.owner) then Fencing(i, Withdrawal(i.owner), false) else i
  }

  predicate Admissible(summary: Summary) {
    && summary.apiVersion == 4 && summary.addon.Some?
    && summary.addon.value.storeState == StoreOk && summary.addon.value.mode == Some(Observe)
    && !summary.addon.value.holdsPresent && summary.transition.None?
  }

  /** Why a pending switch is withdrawn, if it is. */
  function Inadmissible(summary: Summary): (reason: Option<Reason>)
    ensures reason.None? <==> Admissible(summary)
  {
    if summary.apiVersion != 4 || summary.addon.None? then Some(PeerVersion)
    else if summary.addon.value.storeState != StoreOk then Some(StoreUnknownReason)
    else if summary.addon.value.mode != Some(Observe) then Some(ObserveRequired)
    else if summary.addon.value.holdsPresent then Some(HoldsPresent)
    else if summary.transition.Some? then Some(TransitionPresent)
    else None
  }

  function Advanced(i: Integration, summary: Summary): Integration {
    if i.reconcile then
      var target := if i.owner == OwnerAddon then IntegrationSide else AddonSide;
      if Refusal(i, target, Some(summary)).Some? then i else Fencing(i, PendingFor(target), true)
    else if !i.verified then i
    else if IsPending(i.owner) && !Admissible(summary) then Aborted(i)
    else if summary.addon.None? then i
    else if i.owner == PendingIntegration && summary.addon.value.active == AckRetired then
      if Exposed(i.site).None? then i.(work := Admitting)
      else if FreshSite(Exposed(i.site).value) then Fencing(i, OwnerIntegration, false)
      else i
    else if i.owner == PendingAddon && summary.addon.value.active == AckActive then i.(work := Withdrawing)
    else i
  }

  /** Setup after a restart: the record decides, the topology can only withdraw. */
  function Loaded(record: File<Owner>, disk: SiteDisk, wants: Side): Integration {
    var blank := Integration(record, OwnerAddon, false, false, SiteOpened(disk), wants, Resting);
    if record.Absent? && wants == AddonSide then blank.(verified := true)
    else if !record.Content? then blank.(owner := PendingIntegration)
    else
      var o := record.value;
      var read := blank.(owner := o, verified := true);
      if wants == AddonSide && o == PendingIntegration then Fencing(read, OwnerAddon, false)
      else if wants == IntegrationSide && o == PendingAddon then Fencing(read, OwnerIntegration, false)
      else if (wants == AddonSide && o == OwnerIntegration) || (wants == IntegrationSide && o == OwnerAddon)
        then read.(reconcile := true)
      else read
  }

  // ---------------------------------------------------------------- to completion

  datatype Faults = Faults(id: nat, first: WriteFault, second: WriteFault, owner: WriteFault)

  /** Drive the operation in progress to its end, with no interference. */
  function Completed(i: Integration, f: Faults): Integration {
    var begun := match i.work
      case Admitting => Admitted(i, f.id, f.first, f.second)
      case Withdrawing => Withdrawn(i, f.first)
      case _ => i;
    var recorded := if begun.work.Recording? then Recorded(begun, f.owner) else begun;
    if recorded.work.Verifying? then Verified(recorded) else recorded
  }

  // ---------------------------------------------------------------- one save

  /** While a save is in progress nothing is permitted or claimed. A clean one ends as the
      verified new owner; any other leaves everything fenced, the site's authority too,
      and a pending owner in memory if it was one that was to be saved. */
  lemma SaveEnds(i: Integration, o: Owner, reconciling: bool, f: Faults)
    requires i.work.Resting?
    ensures
      var begun := Fencing(i, o, reconciling);
      var written := Recorded(begun, f.owner);
      var v := Completed(begun, f);
      && IsFenced(begun) && IsFenced(written)
      && (f.owner == Clean ==>
          v == i.(record := Content(o), owner := o, verified := true, reconcile := i.reconcile && !reconciling))
      && (f.owner != Clean ==>
          && IsFenced(v) && Exposed(v.site).None? && v.site.disk == i.site.disk && v.work.Resting?
          && v.owner == (if o in {PendingIntegration, PendingAddon} then o else i.owner)
          && v.record == (if f.owner == FailsBefore then i.record else Content(o))
          && v.reconcile == i.reconcile && v.wants == i.wants)
  {
  }

  /** No permission to write, and no claim to be an owner. */
  predicate IsFenced(i: Integration) {
    !i.verified && AuthorityOwner(i) == PendingIntegration && SnapshotOwner(i) == PendingIntegration
  }

  /** Either side may write only under a verified record that the topology does not
      contradict, the integration only with an authority of its own as well. */
  lemma PermittedExactlyWhen(i: Integration)
    ensures AuthorityOwner(i) == OwnerIntegration
      <==> i.verified && !i.reconcile && i.owner == OwnerIntegration && Exposed(i.site).Some?
    ensures AuthorityOwner(i) == OwnerAddon <==> i.verified && !i.reconcile && i.owner == OwnerAddon
    ensures SnapshotOwner(i) != PendingIntegration <==> i.verified && i.owner != PendingIntegration
    ensures i.verified ==> SnapshotOwner(i) == i.owner
  {
  }

  /** A save is verified exactly when the record read back is the one written. */
  lemma VerifiedExactlyWhenRead(i: Integration)
    requires i.work.Verifying? && !i.verified
    ensures Verified(i).verified <==> i.record == Content(i.work.owner)
    ensures !Verified(i).verified ==> IsFenced(Verified(i)) && Exposed(Verified(i).site).None?
    ensures Verified(i).work.Resting? && Verified(i).record == i.record
  {
  }

  /** What the topology still asks for is forgotten only by the save that answers it. */
  lemma OthersKeepAsking(i: Integration, target: Side, summary: Option<Summary>, f: Faults)
    requires i.work.Resting?
    ensures Completed(Requested(i, target, summary), f).reconcile == i.reconcile
    ensures Completed(Aborted(i), f).reconcile == i.reconcile
  {
  }

  /** Whatever was saved while the retired reply waited: only an authority fresh from its
      start is claimed. */
  lemma OnlyAFreshSiteIsClaimed(i: Integration, id: nat, f1: WriteFault, f2: WriteFault)
    requires i.work.Admitting?
    ensures
      var v := Admitted(i, id, f1, f2);
      if Exposed(v.site).Some? && Exposed(v.site).value == NewSite(Exposed(v.site).value.storeId)
      then v.work == Recording(OwnerIntegration, false) && !v.verified
      else v.work.Resting? && (v.owner, v.verified, v.record) == (i.owner, i.verified, i.record)
  {
  }

  // ---------------------------------------------------------------- why a switch is refused

  /** A request is let through exactly by a verified, settled owner that it names already,
      or between two settled sides. */
  lemma RefusedExactlyWhen(i: Integration, target: Side, summary: Option<Summary>)
    ensures Refusal(i, target, summary).None? <==>
      && i.verified && !IsPending(i.owner)
      && (SideOwner(target) == i.owner ||
          (PeerSettled(summary, i.owner)
           && (i.owner == OwnerIntegration ==> Exposed(i.site).Some? && SettledSite(Exposed(i.site).value))))
  {
  }

  /** A refusal names something that is really in the way. */
  lemma RefusalNamesACause(i: Integration, target: Side, summary: Option<Summary>)
    requires Refusal(i, target, summary).Some?
    ensures
      match Refusal(i, target, summary).value {
        case StoreUnknownReason =>
          || !i.verified || Exposed(i.site).None?
          || (ReportsPeer(summary) && (summary.value.addon.value.storeState != StoreOk
                                       || (i.owner == OwnerAddon && summary.value.addon.value.active != AckActive)))
        case SwitchPending => i.verified && IsPending(i.owner)
        case PeerVersion => !ReportsPeer(summary)
        case ObserveRequired =>
          || (ReportsPeer(summary) && summary.value.addon.value.mode != Some(Observe))
          || (Exposed(i.site).Some? && Exposed(i.site).value.mode != SiteObserve)
        case HoldsPresent =>
          || (ReportsPeer(summary) && summary.value.addon.value.holdsPresent)
          || (Exposed(i.site).Some? && Exposed(i.site).value.holds != [])
        case TransitionPresent =>
          || (ReportsPeer(summary) && (summary.value.mode != Some(Observe) || summary.value.transition.Some?))
          || (Exposed(i.site).Some? && Exposed(i.site).value.transition.Some?)
        case ManualPresent => Exposed(i.site).Some? && Exposed(i.site).value.manual
        case SwitchSaveFailed => false
      }
  {
  }

  predicate ReportsPeer(summary: Option<Summary>) {
    summary.Some? && summary.value.apiVersion == 4 && summary.value.addon.Some?
  }

  /** So does the reason a pending switch is withdrawn for. */
  lemma InadmissibleNamesACause(summary: Summary)
    requires !Admissible(summary)
    ensures
      match Inadmissible(summary).value {
        case PeerVersion => !ReportsPeer(Some(summary))
        case StoreUnknownReason => ReportsPeer(Some(summary)) && summary.addon.value.storeState != StoreOk
        case ObserveRequired => ReportsPeer(Some(summary)) && summary.addon.value.mode != Some(Observe)
        case HoldsPresent => ReportsPeer(Some(summary)) && summary.addon.value.holdsPresent
        case TransitionPresent => summary.transition.Some?
        case _ => false
      }
  {
  }

  // ---------------------------------------------------------------- what a start and a reply decide

  /** Setup takes a settled record as it is, only marking it where the topology asks for
      the other side; a pending one stays where the topology agrees with it and goes back
      where it does not. Without a record only the add-on side needs none. */
  lemma RestartDecides(record: File<Owner>, disk: SiteDisk, wants: Side, f: Faults)
    requires f.owner == Clean
    ensures
      var v := Completed(Loaded(record, disk, wants), f);
      && v.work.Resting? && v.site == SiteOpened(disk) && v.wants == wants
      && (v.verified <==> record.Content? || (record.Absent? && wants == AddonSide))
      && (record.Content? && !IsPending(record.value) ==>
          v.owner == record.value && v.record == record && (v.reconcile <==> record.value != SideOwner(wants)))
      && (record == Content(PendingFor(wants)) ==> v.owner == record.value && v.record == record && !v.reconcile)
      && (record.Content? && IsPending(record.value) && record.value != PendingFor(wants) ==>
          v.owner == SideOwner(wants) && v.record == Content(v.owner) && !v.reconcile)
      && (!record.Content? ==> v.record == record && !v.reconcile)
      && (!record.Content? && v.verified ==> v.owner == OwnerAddon)
      && (!v.verified ==> IsFenced(v) && v.owner == PendingIntegration)
  {
  }

  /** A topology restored against a settled record begins the ordinary switch, on a reply
      that would allow one, and stops asking only once its pending record is saved. */
  lemma ReconcileBeginsASwitch(i: Integration, summary: Summary, f: Faults)
    requires i.work.Resting? && i.reconcile && !IsPending(i.owner)
    ensures
      var v := Completed(Advanced(i, summary), f);
      if && i.verified && PeerSettled(Some(summary), i.owner)
         && (i.owner == OwnerIntegration ==> Exposed(i.site).Some? && SettledSite(Exposed(i.site).value))
      then
        && (v.reconcile <==> f.owner != Clean)
        && (f.owner == Clean ==>
            var p := if i.owner == OwnerAddon then PendingIntegration else PendingAddon;
            v == i.(owner := p, record := Content(p), reconcile := false))
        && (f.owner != Clean ==> IsFenced(v))
      else v == i
  {
    var target := if i.owner == OwnerAddon then IntegrationSide else AddonSide;
    RefusedExactlyWhen(i, target, Some(summary));
  }

  /** A reply moves nothing while the record is not verified, or once the switch is over. */
  lemma OthersWait(i: Integration, summary: Summary)
    requires i.work.Resting? && !i.reconcile && (!i.verified || !IsPending(i.owner))
    ensures Advanced(i, summary) == i
  {
  }

  /** The add-on's retirement ends in the integration's ownership exactly when the site
      shows a fresh authority, or a new one can be made and is saved cleanly. */
  lemma ClaimsExactlyWhen(i: Integration, summary: Summary, f: Faults)
    requires i.work.Resting? && !i.reconcile && i.verified && i.owner == PendingIntegration && Sound(i.site)
    requires Admissible(summary) && f.owner == Clean
    ensures
      var v := Completed(Advanced(i, summary), f);
      && (v.owner == OwnerIntegration <==>
          && summary.addon.value.active == AckRetired
          && if Exposed(i.site).Some? then FreshSite(Exposed(i.site).value)
             else
               && ReadDisk(i.site.disk).0 in {NeverInitialised, StatusRetired} && i.site.status != SaveFailed
               && f.first == Clean && f.second == Clean)
      && (v.owner != OwnerIntegration ==> v.owner == i.owner && v.record == i.record && v.verified)
      && v.work.Resting? && !v.reconcile
  {
  }

  /** The active add-on gets the site back exactly when the integration's own authority
      is revoked: already, or cleanly now from a settled one. */
  lemma WithdrawsExactlyWhen(i: Integration, summary: Summary, f: Faults)
    requires i.work.Resting? && !i.reconcile && i.verified && i.owner == PendingAddon && Sound(i.site)
    requires Admissible(summary) && f.owner == Clean
    ensures
      var v := Completed(Advanced(i, summary), f);
      var (status, state) := ReadDisk(i.site.disk);
      && (v.owner == OwnerAddon <==>
          && summary.addon.value.active == AckActive
          && (|| status == StatusRetired
              || (status == StatusOk && i.site.status != SaveFailed && SettledSite(state.value) && f.first == Clean)))
      && (v.owner == OwnerAddon ==> ReadDisk(v.site.disk).0 == StatusRetired && v.record == Content(OwnerAddon))
      && (v.owner != OwnerAddon ==> v.owner == i.owner && v.record == i.record && v.verified)
      && v.work.Resting? && !v.reconcile
  {
  }

  // ---------------------------------------------------------------- there and back

  /** A switch that begins: verified, at rest, with nothing to reconcile. */
  predicate Begins(i: Integration, target: Side, summary: Option<Summary>) {
    i.work.Resting? && i.verified && !i.reconcile && Requested(i, target, summary) != i
  }

  /** A clean request is a verified, recorded pending owner of the other side, and no
      permission of its own. */
  lemma RequestIsPending(i: Integration, target: Side, summary: Option<Summary>, f: Faults)
    requires Begins(i, target, summary) && f.owner == Clean
    ensures
      var p := Completed(Requested(i, target, summary), f);
      && p == i.(owner := p.owner, record := Content(p.owner))
      && (if target == IntegrationSide then i.owner == OwnerAddon && p.owner == PendingIntegration
          else i.owner == OwnerIntegration && p.owner == PendingAddon)
      && AuthorityOwner(p) == p.owner
  {
    SwitchBeginsExactlyWhen(i, target, summary);
  }

  /** A pending switch that is aborted, or meets a reply that does not allow it, gives
      everything back as it was, with the old owner on record. */
  lemma WithdrawnSwitchReturns(
      i: Integration, target: Side, summary: Option<Summary>, reply: Summary, f: Faults, g: Faults)
    requires Begins(i, target, summary) && f.owner == Clean && g.owner == Clean
    ensures
      var p := Completed(Requested(i, target, summary), f);
      && Completed(Aborted(p), g) == i.(record := Content(i.owner))
      && (!Admissible(reply) ==> Completed(Advanced(p, reply), g) == i.(record := Content(i.owner)))
  {
    RequestIsPending(i, target, summary, f);
  }

  /** A restart over the pending record, with the topology still asking for the side it came
      from, gives that side back: its owner, verified, on record, with nothing to reconcile. */
  lemma RestartedSwitchReturns(
      i: Integration, target: Side, summary: Option<Summary>, disk: SiteDisk, wants: Side, f: Faults, g: Faults)
    requires Begins(i, target, summary) && f.owner == Clean && g.owner == Clean && SideOwner(wants) == i.owner
    ensures
      var p := Completed(Requested(i, target, summary), f);
      Completed(Loaded(p.record, disk, wants), g)
        == Integration(Content(i.owner), i.owner, true, false, SiteOpened(disk), wants, Resting)
  {
    RequestIsPending(i, target, summary, f);
  }

  /** With the topology asking for the other side the restart leaves the switch pending, for
      a reply to decide. */
  lemma RestartedSwitchWaits(
      i: Integration, target: Side, summary: Option<Summary>, disk: SiteDisk, f: Faults, g: Faults)
    requires Begins(i, target, summary) && f.owner == Clean
    ensures
      var p := Completed(Requested(i, target, summary), f);
      Completed(Loaded(p.record, disk, target), g)
        == Integration(p.record, p.owner, true, false, SiteOpened(disk), target, Resting)
  {
    RequestIsPending(i, target, summary, f);
  }

  /** The reply that the other side has done its part. */
  predicate IsAwaited(reply: Summary, target: Side) {
    Admissible(reply) && reply.addon.value.active == if target == IntegrationSide then AckRetired else AckActive
  }

  /** The awaited reply ends the switch on its target: to the integration over an authority
      fresh from its start, to the add-on once the integration's own is revoked. */
  lemma SwitchArrives(i: Integration, target: Side, summary: Option<Summary>, reply: Summary, f: Faults, g: Faults)
    requires Begins(i, target, summary) && Sound(i.site) && IsAwaited(reply, target)
    requires f.owner == g.first == g.second == g.owner == Clean
    requires target == IntegrationSide && Exposed(i.site).Some? ==> FreshSite(Exposed(i.site).value)
    requires target == IntegrationSide && Exposed(i.site).None? ==>
      ReadDisk(i.site.disk).0 in {NeverInitialised, StatusRetired} && i.site.status != SaveFailed
    ensures
      var v := Completed(Advanced(Completed(Requested(i, target, summary), f), reply), g);
      && v.owner == SideOwner(target) && v.verified && v.record == Content(v.owner) && !v.reconcile
      && v.work.Resting? && AuthorityOwner(v) == v.owner
      && (if target == IntegrationSide then Exposed(v.site).Some? && FreshSite(Exposed(v.site).value)
          else Exposed(v.site).None? && ReadDisk(v.site.disk).0 == StatusRetired)
  {
    SwitchBeginsExactlyWhen(i, target, summary);
    RequestIsPending(i, target, summary, f);
    if target == IntegrationSide {
      ClaimArrives(Completed(Requested(i, target, summary), f), reply, g);
    }
  }

  lemma ClaimArrives(p: Integration, reply: Summary, g: Faults)
    requires p.owner == PendingIntegration && p.verified && !p.reconcile && p.work.Resting? && Sound(p.site)
    requires IsAwaited(reply, IntegrationSide) && g.first == g.second == g.owner == Clean
    requires Exposed(p.site).Some? ==> FreshSite(Exposed(p.site).value)
    requires Exposed(p.site).None? ==>
      ReadDisk(p.site.disk).0 in {NeverInitialised, StatusRetired} && p.site.status != SaveFailed
    ensures
      var v := Completed(Advanced(p, reply), g);
      && v.owner == OwnerIntegration && v.verified && v.record == Content(v.owner) && !v.reconcile
      && v.work.Resting? && Exposed(v.site).Some? && FreshSite(Exposed(v.site).value)
  {
  }

  /** The store as it runs: each method holds the lock from start to finish. */
  class OwnershipStore {
    var record: File<Owner>
    var owner: Owner
    var verified: bool
    var reconcile: bool
    var wants: Side
    const authority: SiteAuthorityStore

    function View(): Integration
      reads this, authority
    {
      Integration(record, owner, verified, reconcile, authority.View(), wants, Resting)
    }

    constructor (record: File<Owner>, disk: SiteDisk, wants: Side, f: WriteFault)
      ensures View() == Completed(Loaded(record, disk, wants), Faults(0, Clean, Clean, f))
      ensures fresh(authority)
    {
      this.record, this.wants := record, wants;
      owner, verified, reconcile := OwnerAddon, false, false;
      authority := new SiteAuthorityStore(disk);
      new;
      if record.Absent? && wants == AddonSide {
        verified := true;
      } else if !record.Content? {
        owner := PendingIntegration;
      } else {
        owner, verified := record.value, true;
        if wants == AddonSide && owner == PendingIntegration {
          var _ := Save(OwnerAddon, f);
        } else if wants == IntegrationSide && owner == PendingAddon {
          var _ := Save(OwnerIntegration, f);
        } else if (wants == AddonSide && owner == OwnerIntegration)
                  || (wants == IntegrationSide && owner == OwnerAddon) {
          reconcile := true;
        }
      }
    }

    method Save(o: Owner, f: WriteFault) returns (saved: bool)
      modifies this`record, this`owner, this`verified, authority`status
      ensures View() == Completed(Fencing(old(View()), o, false), Faults(0, Clean, Clean, f))
      ensures saved == (f == Clean) && (saved ==> verified && owner == o && record == Content(o))
    {
      verified := false;
      owner := if IsPending(o) then o else owner;
      if f != FailsBefore {
        record := Content(o);
      }
      if f != Clean {
        authority.PublishSaveFailed();
        return false;
      }
      owner, verified := o, true;
      saved := true;
    }

    method AsyncRequest(target: Side, summary: Option<Summary>, f: WriteFault) returns (reason: Option<Reason>)
      modifies this`record, this`owner, this`verified, authority`status
      ensures View() == Completed(Requested(old(View()), target, summary), Faults(0, Clean, Clean, f))
      ensures
        var refused := Refusal(old(View()), target, summary);
        reason ==
          if refused.Some? || SideOwner(target) == old(owner) then refused
          else if f == Clean then None else Some(SwitchSaveFailed)
      ensures reason.None? ==> verified && owner in {SideOwner(target), PendingFor(target)}
    {
      reason := Refusal(View(), target, summary);
      if reason.Some? || SideOwner(target) == owner {
        return;
      }
      var saved := Save(PendingFor(target), f);
      reason := if saved then None else Some(SwitchSaveFailed);
    }

    /** Withdraw a pending switch; the answer says why, or that even this was not saved. */
    method AsyncAbort(why: Reason, f: WriteFault) returns (reason: Option<Reason>)
      modifies this`record, this`owner, this`verified, authority`status
      ensures View() == Completed(Aborted(old(View())), Faults(0, Clean, Clean, f))
      ensures reason ==
        if !IsPending(old(owner)) then None else if f == Clean then Some(why) else Some(SwitchSaveFailed)
    {
      if !IsPending(owner) {
        return None;
      }
      var saved := Save(Withdrawal(owner), f);
      reason := Some(if saved then why else SwitchSaveFailed);
    }

    method AsyncAdvance(summary: Summary, f: Faults) returns (reason: Option<Reason>)
      modifies this`record, this`owner, this`verified, this`reconcile, authority
      ensures View() == Completed(Advanced(old(View()), summary), f)
      ensures old(verified && !reconcile && IsPending(owner)) && !Admissible(summary) ==>
        reason == if f.owner == Clean then Inadmissible(summary) else Some(SwitchSaveFailed)
      ensures old(!reconcile) && (old(!verified || !IsPending(owner)) || Admissible(summary)) ==> reason.None?
    {
      reason := None;
      if reconcile {
        var target := if owner == OwnerAddon then IntegrationSide else AddonSide;
        reason := Refusal(View(), target, Some(summary));
        if reason.Some? {
          return;
        }
        var saved := Save(PendingFor(target), f.owner);
        if saved {
          reconcile := false;
        }
        return;
      }
      if !verified {
        return;
      }
      if IsPending(owner) && !Admissible(summary) {
        reason := AsyncAbort(Inadmissible(summary).value, f.owner);
        return;
      }
      if summary.addon.None? {
        return;
      }
      if owner == PendingIntegration && summary.addon.value.active == AckRetired {
        Claim(f);
      } else if owner == PendingAddon && summary.addon.value.active == AckActive {
        var retired := authority.Retire(f.first);
        if retired {
          var _ := Save(OwnerAddon, f.owner);
        }
      }
    }

    method Claim(f: Faults)
      requires verified && owner == PendingIntegration && !reconcile
      modifies this`record, this`owner, this`verified, authority
      ensures
        var before := old(View());
        View() == Completed(
          if Exposed(before.site).None? then before.(work := Admitting)
          else if FreshSite(Exposed(before.site).value) then Fencing(before, OwnerIntegration, false)
          else before, f)
    {
      if authority.status != StatusOk || authority.held.None? {
        var ready := authority.Initialise(f.id, f.first, f.second);
        if !ready {
          return;
        }
      }
      if authority.status == StatusOk && authority.held.Some? && FreshSite(authority.held.value) {
        var _ := Save(OwnerIntegration, f.owner);
      }
    }
  }
}
