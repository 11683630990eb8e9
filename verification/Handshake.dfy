/** Both halves, the heartbeat between them, and every interleaving of their
    durable writes with crashes, lost replies and local add-on work.

    The channel carries one heartbeat at a time: the next snapshot leaves only after
    the last one was answered, lost or given up, and a given-up snapshot is never
    delivered later. */
module Handshake {
  import opened Basics
  import opened AddonAuthority
  import opened AddonRecovery
  import opened SiteAuthority
  import opened Ownership

  datatype Channel = Quiet | Sent(owner: Owner) | Answered(summary: Summary)

  datatype System = System(addon: Addon, site: Integration, channel: Channel)

  /** The reply the add-on projects from its files and its writer. */
  function PeerSummary(a: Addon, handshakeFailed: bool): Summary {
    var known := IsKnown(a);
    var plain := PeerFacts(
      AckActive, if known then Some(a.state.value.mode) else None,
      known && a.state.value.holds != [],
      if a.saveFailed then StoreSaveFailed else if known then StoreOk else StoreUnknown);
    var retired := RetirementStatus(a.disk);
    var facts :=
      if handshakeFailed then PeerFacts(AckActive, None, false, StoreSaveFailed)
      else if retired.Some? && !a.saveFailed then PeerFacts(retired.value, Some(Observe), false, StoreOk)
      else plain;
    Summary(4, Some(facts), if known then Some(a.state.value.mode) else None,
            if known then a.state.value.transition else None)
  }

  /** The heartbeat route, for a snapshot whose pairing and schema were accepted.
      `native` says whether every inverter of its topology is native. */
  function Served(a: Addon, owner: Owner, native: bool, id: nat, f1: WriteFault, f2: WriteFault)
    : (Addon, Option<Summary>)
  {
    if owner == OwnerIntegration && RetirementStatus(a.disk) != Some(AckRetired) then (a, None)
    else if (owner == PendingIntegration && !native) || (owner == PendingAddon && native) then (a, None)
    else if IsPending(owner) && CanHandover(a, owner) then
      var (b, ack) := HandedOver(a, owner, id, f1, f2);
      (b, Some(PeerSummary(b, ack.None?)))
    else if owner == OwnerAddon then
      var b := HandedOver(a, owner, id, f1, f2).0;
      (b, Some(PeerSummary(b, false)))
    else (a, Some(PeerSummary(a, false)))
  }

  datatype Step =
    | AddonLocal(op: LocalOp)
    | Send
    | Deliver(accepted: bool, native: bool, id: nat, f1: WriteFault, f2: WriteFault)
    | Lose
    | Request(target: Side, summary: Option<Summary>)
    | Abort
    | Receive(counted: bool)
    | Admit(newId: nat, f1: WriteFault, f2: WriteFault)
    | Withdraw(f1: WriteFault)
    | Record(f1: WriteFault)
    | Verify
    | SaveSite(state: SiteState, f1: WriteFault)
    | ConfirmSite(newId: nat, f1: WriteFault, f2: WriteFault)
    | Retopologise(wants: Side)
    | Reboot(wants: Side)

  function Next(s: System, step: Step): System {
    match step
    case AddonLocal(op) => s.(addon := LocalStep(s.addon, op))
    case Send => if s.channel.Quiet? then s.(channel := Sent(SnapshotOwner(s.site))) else s
    case Deliver(accepted, native, id, f1, f2) =>
      if !s.channel.Sent? then s
      else if !accepted then s.(channel := Quiet)
      else
        var (addon, summary) := Served(s.addon, s.channel.owner, native, id, f1, f2);
        s.(addon := addon, channel := if summary.Some? then Answered(summary.value) else Quiet)
    case Lose => s.(channel := Quiet)
    case Request(target, summary) =>
      if s.site.work.Resting? then s.(site := Requested(s.site, target, summary)) else s
    case Abort => if s.site.work.Resting? then s.(site := Aborted(s.site)) else s
    case Receive(counted) =>
      if !s.channel.Answered? then s
      else if !counted then s.(channel := Quiet)
      else if !s.site.work.Resting? then s
      else s.(channel := Quiet, site := Advanced(s.site, s.channel.summary))
    case Admit(id, f1, f2) =>
      if s.site.work.Admitting? then s.(site := Admitted(s.site, id, f1, f2)) else s
    case Withdraw(f) => if s.site.work.Withdrawing? then s.(site := Withdrawn(s.site, f)) else s
    case Record(f) => if s.site.work.Recording? then s.(site := Recorded(s.site, f)) else s
    case Verify => if s.site.work.Verifying? then s.(site := Verified(s.site)) else s
    case SaveSite(c, f) => s.(site := s.site.(site := SiteSaved(s.site.site, c, f)))
    case ConfirmSite(id, f1, f2) => s.(site := s.site.(site := SiteConfirmed(s.site.site, id, f1, f2)))
    case Retopologise(wants) => s.(site := s.site.(wants := wants))
    case Reboot(wants) =>
      s.(site := Loaded(s.site.record, s.site.site.disk, wants), channel := Quiet)
  }

  function Run(s: System, steps: seq<Step>): System
    decreases |steps|
  {
    if steps == [] then s else Run(Next(s, steps[0]), steps[1..])
  }

  // ---------------------------------------------------------------- the invariant

  predicate OnIntegrationSide(o: Owner) {
    o == OwnerIntegration || o == PendingAddon
  }

  /** The owner record says, or the work in hand is about to record, that the
      integration holds or still holds the site. */
  predicate Claims(i: Integration) {
    || (i.record.Content? && OnIntegrationSide(i.record.value))
    || (i.verified && OnIntegrationSide(i.owner))
    || (!i.verified && i.owner == PendingAddon)
    || i.work.Admitting? || i.work.Withdrawing?
    || ((i.work.Recording? || i.work.Verifying?) && OnIntegrationSide(i.work.owner))
  }

  predicate MemoryMatchesRecord(i: Integration) {
    && (i.verified ==> i.record == Content(i.owner) || (i.record.Absent? && i.owner == OwnerAddon))
    && (i.verified ==> !i.work.Recording? && !i.work.Verifying?)
    && (i.work.Admitting? ==> i.owner == PendingIntegration)
    && (i.work.Withdrawing? ==> i.owner == PendingAddon)
    && (i.work.Verifying? ==> i.record == Content(i.work.owner))
  }

  predicate SaysRetired(summary: Summary) {
    summary.addon.Some? && summary.addon.value.active == AckRetired
  }

  predicate Inv(s: System) {
    && MemoryMatchesRecord(s.site)
    && (Claims(s.site) ==> Fenced(s.addon.disk))
    && (Claims(s.site) ==> s.channel != Sent(OwnerAddon))
    && (s.channel.Answered? && SaysRetired(s.channel.summary) ==> Fenced(s.addon.disk))
    && (Fenced(s.addon.disk) ==> !s.addon.initialising)
  }

  /** The guard that is missing from a fresh retirement: no initial save of this
      process may be outstanding when the handover arrives. */
  predicate Guarded(s: System, step: Step) {
    step.Deliver? && s.channel == Sent(PendingIntegration) ==> !s.addon.initialising
  }

  predicate GuardedRun(s: System, steps: seq<Step>)
    decreases |steps|
  {
    steps == [] || (Guarded(s, steps[0]) && GuardedRun(Next(s, steps[0]), steps[1..]))
  }

  predicate BothWrite(s: System) {
    IsKnown(s.addon) && AuthorityOwner(s.site) == OwnerIntegration
  }

  lemma ServedKeepsFence(a: Addon, owner: Owner, native: bool, id: nat, f1: WriteFault, f2: WriteFault)
    requires Fenced(a.disk) && !a.initialising
    ensures
      var (b, summary) := Served(a, owner, native, id, f1, f2);
      && !b.initialising
      && (owner != OwnerAddon ==> Fenced(b.disk))
      && (summary.Some? && SaysRetired(summary.value) ==> Fenced(b.disk))
  {
  }

  lemma ServedFences(a: Addon, owner: Owner, native: bool, id: nat, f1: WriteFault, f2: WriteFault)
    requires !Fenced(a.disk)
    ensures
      var (b, summary) := Served(a, owner, native, id, f1, f2);
      && b.initialising == a.initialising
      && (Fenced(b.disk) ==> owner == PendingIntegration)
      && (summary.Some? && SaysRetired(summary.value) ==> Fenced(b.disk))
  {
  }

  lemma StepKeepsInv(s: System, step: Step)
    requires Inv(s) && Guarded(s, step)
    ensures Inv(Next(s, step))
  {
    match step
    case AddonLocal(op) =>
      if Fenced(s.addon.disk) {
        FenceHoldsLocally(s.addon, op);
      } else {
        LocalWorkNeverFences(s.addon, op);
      }
    case Deliver(accepted, native, id, f1, f2) =>
      if s.channel.Sent? && accepted {
        if Fenced(s.addon.disk) {
          ServedKeepsFence(s.addon, s.channel.owner, native, id, f1, f2);
        } else {
          ServedFences(s.addon, s.channel.owner, native, id, f1, f2);
        }
      }
    case _ =>
  }

  lemma LocalWorkNeverFences(a: Addon, op: LocalOp)
    requires !Fenced(a.disk)
    ensures !Fenced(LocalStep(a, op).disk)
  {
  }

  lemma NoSecondWriter(s: System)
    requires Inv(s)
    ensures !BothWrite(s)
  {
  }

  /** Mutual exclusion over every run: aborts, lost replies, faulted writes and crashes
      of either side between any two durable writes. */
  lemma {:induction false} MutualExclusion(s: System, steps: seq<Step>)
    requires Inv(s) && GuardedRun(s, steps)
    ensures Inv(Run(s, steps)) && !BothWrite(Run(s, steps))
    decreases |steps|
  {
    if steps == [] {
      NoSecondWriter(s);
    } else {
      StepKeepsInv(s, steps[0]);
      MutualExclusion(Next(s, steps[0]), steps[1..]);
    }
  }

  // ---------------------------------------------------------------- from installation

  /** A new integration beside whatever the add-on has on disk. */
  function Installed(disk: Disk, wants: Side): System {
    System(Opened(disk), Loaded(Absent, SiteDisk(Absent, Absent), wants), Quiet)
  }

  lemma MutualExclusionFromInstallation(disk: Disk, wants: Side, steps: seq<Step>)
    requires GuardedRun(Installed(disk, wants), steps)
    ensures !BothWrite(Run(Installed(disk, wants), steps))
  {
    MutualExclusion(Installed(disk, wants), steps);
  }

  lemma {:induction false} RunSplits(s: System, a: seq<Step>, b: seq<Step>)
    ensures Run(s, a + b) == Run(Run(s, a), b)
    decreases |a|
  {
    if a == [] {
      assert a + b == b;
    } else {
      assert (a + b)[0] == a[0] && (a + b)[1..] == a[1..] + b;
      RunSplits(Next(s, a[0]), a[1..], b);
    }
  }

  function Asking(summary: Summary): seq<Step> {
    [Request(IntegrationSide, Some(summary)), Record(Clean), Verify]
  }

  function Beating(id: nat): seq<Step> {
    [Send, Deliver(true, true, id, Clean, Clean), Receive(true)]
  }

  function Taking(id: nat): seq<Step> {
    [Admit(id, Clean, Clean), Record(Clean), Verify]
  }

  /** Nine undisturbed steps hand a settled site over: the add-on loses its
      permission before the integration gains its own. */
  function Handing(summary: Summary, id: nat): seq<Step> {
    Asking(summary) + (Beating(id) + Taking(id))
  }

  predicate ReadyToHand(a: Addon) {
    IsKnown(a) && Settled(a.state.value) && !a.saveFailed
  }

  lemma AskingClaims(s: System)
    requires ReadyToHand(s.addon) && s.site == Loaded(Absent, SiteDisk(Absent, Absent), AddonSide)
    ensures Run(s, Asking(PeerSummary(s.addon, false)))
         == s.(site := s.site.(record := Content(PendingIntegration), owner := PendingIntegration))
  {
    var q := Asking(PeerSummary(s.addon, false));
    RunThree(s, q[0], q[1], q[2]);
    assert q == [q[0], q[1], q[2]];
    assert Refusal(s.site, IntegrationSide, Some(PeerSummary(s.addon, false))).None?;
  }

  lemma BeatingRetires(s: System, id: nat)
    requires ReadyToHand(s.addon) && s.channel.Quiet?
    requires s.site.work.Resting? && s.site.verified && !s.site.reconcile && s.site.owner == PendingIntegration
    requires Exposed(s.site.site).None?
    ensures Run(s, Beating(id)) == s.(
      addon := HandedOver(s.addon, PendingIntegration, id, Clean, Clean).0,
      site := s.site.(work := Admitting))
  {
    var q := Beating(id);
    RunThree(s, q[0], q[1], q[2]);
    assert q == [q[0], q[1], q[2]];
    var sent := Next(s, q[0]);
    assert CanHandover(sent.addon, PendingIntegration);
    var answered := Next(sent, q[1]);
    assert RetirementStatus(answered.addon.disk) == Some(AckRetired) && !answered.addon.saveFailed;
    assert SaysRetired(answered.channel.summary) && Admissible(answered.channel.summary);
  }

  lemma TakingOwns(s: System, id: nat)
    requires s.site.work.Admitting? && s.site.site.status == NeverInitialised
    requires ReadDisk(s.site.site.disk).0 == NeverInitialised
    ensures
      var t := Run(s, Taking(id));
      && t.addon == s.addon && t.channel == s.channel
      && t.site.record == Content(OwnerIntegration) && t.site.owner == OwnerIntegration
      && t.site.verified && Exposed(t.site.site) == Some(NewSite(id))
      && t.site.reconcile == s.site.reconcile
  {
    var q := Taking(id);
    RunThree(s, q[0], q[1], q[2]);
    assert q == [q[0], q[1], q[2]];
    var admitted := Next(s, q[0]);
    assert Exposed(admitted.site.site) == Some(NewSite(id)) && admitted.site.work.Recording?;
  }

  lemma HandoverCompletes(s: System, id: nat)
    requires ReadyToHand(s.addon) && s.channel.Quiet?
    requires s.site == Loaded(Absent, SiteDisk(Absent, Absent), AddonSide)
    ensures
      var t := Run(s, Handing(PeerSummary(s.addon, false), id));
      && AuthorityOwner(t.site) == OwnerIntegration && t.site.record == Content(OwnerIntegration)
      && Exposed(t.site.site) == Some(NewSite(id))
      && t.addon == HandedOver(s.addon, PendingIntegration, id, Clean, Clean).0
      && RetirementStatus(t.addon.disk) == Some(AckRetired) && !IsKnown(t.addon)
  {
    var ask := Asking(PeerSummary(s.addon, false));
    AskingClaims(s);
    var claimed := Run(s, ask);
    BeatingRetires(claimed, id);
    TakingOwns(Run(claimed, Beating(id)), id);
    RunSplits(s, ask, Beating(id) + Taking(id));
    RunSplits(claimed, Beating(id), Taking(id));
  }

  lemma RunOne(s: System, a: Step)
    ensures Run(s, [a]) == Next(s, a)
  {
    assert [a][1..] == [];
  }

  lemma RunTwo(s: System, a: Step, b: Step)
    ensures Run(s, [a, b]) == Next(Next(s, a), b)
  {
    assert [a, b][1..] == [b];
    RunOne(Next(s, a), b);
  }

  lemma RunThree(s: System, a: Step, b: Step, c: Step)
    ensures Run(s, [a, b, c]) == Next(Next(Next(s, a), b), c)
  {
    assert [a, b, c][1..] == [b, c];
    RunTwo(Next(s, a), b, c);
  }

  /** Without the guard the site can get two writers: an initial save fails, a save of
      the older identity then succeeds and leaves `initialising` behind, the store is
      retired, and the retry of a refused save rewrites its marker. */
  function StaleFlag(): seq<Step> {
    var earlier := FreshObserve(0);
    [AddonLocal(SaveState(earlier.(epoch := 2), FailsAfter)),
     AddonLocal(Confirm(7, FailsBefore, Clean)),
     AddonLocal(SaveState(earlier.(epoch := 2), Clean))]
  }

  function Relapse(): seq<Step> {
    [AddonLocal(SaveState(FreshObserve(0), Clean)), AddonLocal(Retry(Clean, Clean))]
  }

  lemma SaveFailsAfter(a: Addon)
    requires a == Opened(Disk(Content(FreshObserve(0)), Content(Plain(0))))
    ensures
      var b := Saved(a, FreshObserve(0).(epoch := 2), FailsAfter);
      && b.saveFailed && !b.initialising && b.state == a.state
      && b.disk == Disk(Content(FreshObserve(0).(epoch := 2)), Content(Plain(0)))
  {
  }

  lemma InitialSaveFails(a: Addon)
    requires a.state == Some(FreshObserve(0))
    requires a.disk == Disk(Content(FreshObserve(0).(epoch := 2)), Content(Plain(0)))
    ensures
      var b := ObserveConfirmed(a, 7, FailsBefore, Clean);
      b.initialising && b.disk == a.disk && b.state == a.state
  {
    assert !IsKnown(a);
  }

  lemma SaveLeavesTheFlag(a: Addon)
    requires a.initialising && a.disk == Disk(Content(FreshObserve(0).(epoch := 2)), Content(Plain(0)))
    ensures
      var b := Saved(a, FreshObserve(0).(epoch := 2), Clean);
      ReadyToHand(b) && b.initialising && b.pending.None?
  {
  }

  lemma FlagGoesStale(s: System)
    requires s == Installed(Disk(Content(FreshObserve(0)), Content(Plain(0))), AddonSide)
    ensures
      var stale := Run(s, StaleFlag());
      && stale == s.(addon := stale.addon) && ReadyToHand(stale.addon)
      && stale.addon.initialising && stale.addon.pending.None?
  {
    var later := FreshObserve(0).(epoch := 2);
    var first, second, third := SaveState(later, FailsAfter), Confirm(7, FailsBefore, Clean), SaveState(later, Clean);
    ThreeLocal(s, first, second, third);
    var saved := LocalStep(s.addon, first);
    SaveFailsAfter(s.addon);
    InitialSaveFails(saved);
    SaveLeavesTheFlag(LocalStep(saved, second));
  }

  lemma ThreeLocal(s: System, x: LocalOp, y: LocalOp, z: LocalOp)
    ensures Run(s, [AddonLocal(x), AddonLocal(y), AddonLocal(z)])
         == s.(addon := LocalStep(LocalStep(LocalStep(s.addon, x), y), z))
  {
    RunThree(s, AddonLocal(x), AddonLocal(y), AddonLocal(z));
  }

  lemma TwoWritersWithoutTheGuard(s: System)
    requires s == Installed(Disk(Content(FreshObserve(0)), Content(Plain(0))), AddonSide)
    ensures
      var stale := Run(s, StaleFlag());
      BothWrite(Run(s, StaleFlag() + (Handing(PeerSummary(stale.addon, false), 3) + Relapse())))
  {
    FlagGoesStale(s);
    var stale := Run(s, StaleFlag());
    var h := Handing(PeerSummary(stale.addon, false), 3);
    HandoverCompletes(stale, 3);
    var handed := Run(stale, h);
    assert handed.addon.initialising && Fenced(handed.addon.disk);
    RelapseRegains(handed);
    RunSplits(stale, h, Relapse());
    RunSplits(s, StaleFlag(), h + Relapse());
  }

  lemma RelapseRegains(s: System)
    requires s.addon.initialising && Fenced(s.addon.disk)
    ensures Run(s, Relapse()).site == s.site && IsKnown(Run(s, Relapse()).addon)
  {
    RunTwo(s, Relapse()[0], Relapse()[1]);
    assert Relapse() == [Relapse()[0], Relapse()[1]];
  }

  /** Once the integration writes, whether the add-on's own code can become a second
      writer is decided by that flag alone. */
  lemma SoleWriterIff(s: System)
    requires AuthorityOwner(s.site) == OwnerIntegration && Fenced(s.addon.disk)
    ensures (exists ops :: Regains(s.addon, ops)) <==> s.addon.initialising
  {
    UnfencesItselfIff(s.addon);
  }

  /** A fenced add-on reports no known mode, so its own reply always refuses the
      request to hand the site back: only the abort or the topology can withdraw. */
  lemma FencedReplyRefusesReturn(i: Integration, a: Addon, failed: bool)
    requires Fenced(a.disk) && i.verified && i.owner == OwnerIntegration
    ensures Refusal(i, AddonSide, Some(PeerSummary(a, failed))).Some?
    ensures Requested(i, AddonSide, Some(PeerSummary(a, failed))) == i
  {
  }

  // ---------------------------------------------------------------- methods and steps

  function BeginSteps(i: Integration, f: Faults): seq<Step> {
    if i.work.Admitting? then [Admit(f.id, f.first, f.second)]
    else if i.work.Withdrawing? then [Withdraw(f.first)] else []
  }

  function RecordSteps(i: Integration, f: Faults): seq<Step> {
    if i.work.Recording? then [Record(f.owner)] else []
  }

  function VerifySteps(i: Integration): seq<Step> {
    if i.work.Verifying? then [Verify] else []
  }

  lemma BeginRuns(s: System, f: Faults)
    ensures Run(s, BeginSteps(s.site, f)) == s.(site :=
      if s.site.work.Admitting? then Admitted(s.site, f.id, f.first, f.second)
      else if s.site.work.Withdrawing? then Withdrawn(s.site, f.first) else s.site)
  {
    if BeginSteps(s.site, f) != [] {
      RunOne(s, BeginSteps(s.site, f)[0]);
      assert BeginSteps(s.site, f) == [BeginSteps(s.site, f)[0]];
    }
  }

  lemma RecordRuns(s: System, f: Faults)
    ensures Run(s, RecordSteps(s.site, f)) ==
      s.(site := if s.site.work.Recording? then Recorded(s.site, f.owner) else s.site)
  {
    RunOne(s, Record(f.owner));
  }

  lemma VerifyRuns(s: System)
    ensures Run(s, VerifySteps(s.site)) == s.(site := if s.site.work.Verifying? then Verified(s.site) else s.site)
  {
    RunOne(s, Verify);
  }

  /** The serialised methods are runs of the same steps, with no one in between. */
  lemma CompletionIsARun(s: System, f: Faults)
    ensures exists steps :: Run(s, steps) == s.(site := Completed(s.site, f))
  {
    var begin := BeginSteps(s.site, f);
    var begun := Run(s, begin);
    var record := RecordSteps(begun.site, f);
    var recorded := Run(begun, record);
    var verify := VerifySteps(recorded.site);
    BeginRuns(s, f);
    RecordRuns(begun, f);
    VerifyRuns(recorded);
    RunSplits(begun, record, verify);
    RunSplits(s, begin, record + verify);
    assert Run(s, begin + (record + verify)) == s.(site := Completed(s.site, f));
  }
}
