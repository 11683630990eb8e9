/** What the add-on's heartbeat route answers each snapshot, from the files and the writer
    behind it. */
module HandshakeAnswers {
  import opened Basics
  import opened AddonAuthority
  import AddonAnswers
  import opened SiteAuthority
  import opened Ownership
  import opened Handshake

  /** The reply projects the add-on as it is: a retirement or a rollback from its files, its
      own state where that is known, and nothing but a failed save after one. */
  lemma ReplyReports(a: Addon, failed: bool)
    ensures
      var reply := PeerSummary(a, failed);
      var facts, retired := reply.addon.value, RetirementStatus(a.disk);
      var plain := !failed && (a.saveFailed || retired.None?);
      && reply.apiVersion == 4 && reply.addon.Some?
      && (facts.active == AckRetired <==> !failed && !a.saveFailed && retired == Some(AckRetired))
      && (facts.storeState == StoreOk <==> !failed && !a.saveFailed && (retired.Some? || IsKnown(a)))
      && (facts.storeState == StoreSaveFailed <==> failed || a.saveFailed)
      && facts.mode == (if failed then None else if !plain then Some(Mode.Observe)
                        else if IsKnown(a) then Some(a.state.value.mode) else None)
      && (facts.holdsPresent <==> plain && IsKnown(a) && a.state.value.holds != [])
      && reply.mode == (if IsKnown(a) then Some(a.state.value.mode) else None)
      && reply.transition == (if IsKnown(a) then a.state.value.transition else None)
  {
  }

  /** A snapshot is turned away, and touches nothing, exactly where it claims a site that is
      not retired, or asks for a side its topology contradicts. */
  lemma TurnedAwayExactlyWhen(a: Addon, owner: Owner, native: bool, id: nat, f1: WriteFault, f2: WriteFault)
    ensures
      var (b, reply) := Served(a, owner, native, id, f1, f2);
      && (reply.None? <==>
            || (owner == OwnerIntegration && RetirementStatus(a.disk) != Some(AckRetired))
            || (owner == PendingIntegration && !native) || (owner == PendingAddon && native))
      && (reply.None? || owner == OwnerIntegration ==> b == a)
      && (owner == OwnerIntegration && reply.Some? ==> reply == Some(PeerSummary(a, false)))
  {
  }

  /** A pending snapshot begins a handover exactly over a settled known store with no failed
      save, or, once fenced, over the retired store or its candidate. */
  lemma HandoverBeginsExactlyWhen(a: Addon, owner: Owner)
    ensures CanHandover(a, owner) <==>
      if !Fenced(a.disk) then
        owner == PendingIntegration && IsKnown(a) && !a.saveFailed && AddonAnswers.HasNothingToLose(a.state.value)
      else
        || (AddonAnswers.ShowsRetired(a.disk) && owner == PendingIntegration && a.disk.marker.value.Retired?)
        || ((AddonAnswers.ShowsRetired(a.disk) || AddonAnswers.ShowsCandidate(a.disk)) && owner == PendingAddon)
  {
  }

  /** Without one a pending snapshot is only answered: the real authority is reported and
      nothing moves. */
  lemma OthersAreOnlyAnswered(a: Addon, owner: Owner, native: bool, id: nat, f1: WriteFault, f2: WriteFault)
    requires owner == PendingIntegration || owner == PendingAddon
    requires !CanHandover(a, owner) && Served(a, owner, native, id, f1, f2).1.Some?
    ensures Served(a, owner, native, id, f1, f2) == (a, Some(PeerSummary(a, false)))
  {
  }

  /** The reply to a claim allows the integration to go on exactly when this snapshot retired
      the store cleanly. Where the write failed the reply makes it withdraw. */
  lemma ClaimIsAnswered(a: Addon, id: nat, f1: WriteFault, f2: WriteFault)
    requires !Fenced(a.disk)
    ensures
      var (b, reply) := Served(a, PendingIntegration, true, id, f1, f2);
      var begins := IsKnown(a) && !a.saveFailed && AddonAnswers.HasNothingToLose(a.state.value);
      && reply.Some?
      && (IsAwaited(reply.value, IntegrationSide) <==> begins && f1 == Clean)
      && (IsAwaited(reply.value, IntegrationSide) ==> RetirementStatus(b.disk) == Some(AckRetired) && !IsKnown(b))
      && (begins && f1 != Clean ==> !Admissible(reply.value) && b.saveFailed)
      && (!begins ==> b == a)
  {
    HandoverBeginsExactlyWhen(a, PendingIntegration);
  }

  /** A redelivered claim is answered the same, from the files alone. */
  lemma RedeliveredClaimIsAnswered(a: Addon, id: nat, f1: WriteFault, f2: WriteFault)
    requires Fenced(a.disk) && a.disk.marker.value.Retired? && AddonAnswers.ShowsRetired(a.disk)
    ensures
      var (b, reply) := Served(a, PendingIntegration, true, id, f1, f2);
      && b.disk == a.disk && reply.Some?
      && (IsAwaited(reply.value, IntegrationSide) <==> !a.saveFailed || f1 == Clean)
      && (a.saveFailed && f1 != Clean ==> !Admissible(reply.value))
  {
    HandoverBeginsExactlyWhen(a, PendingIntegration);
    AddonAnswers.ClaimIsAcknowledgedExactlyWhen(a, PendingIntegration, id, f1, f2);
  }

  /** The reply to a return allows it exactly when the persisted candidate is the store, and
      the add-on stays without permission until the owner is confirmed. */
  lemma ReturnIsAnswered(a: Addon, id: nat, f1: WriteFault, f2: WriteFault)
    requires Fenced(a.disk) && (AddonAnswers.ShowsRetired(a.disk) || AddonAnswers.ShowsCandidate(a.disk))
    ensures
      var (b, reply) := Served(a, PendingAddon, false, id, f1, f2);
      var m := a.disk.marker.value;
      && reply.Some? && Fenced(b.disk) && !IsKnown(b)
      && (IsAwaited(reply.value, AddonSide) <==>
            if m.RollingBack? then f1 == Clean else id != m.id && f1 == Clean && f2 == Clean)
      && (!IsAwaited(reply.value, AddonSide) ==> !Admissible(reply.value))
  {
    HandoverBeginsExactlyWhen(a, PendingAddon);
    AddonAnswers.ReturnIsAcknowledgedExactlyWhen(a, id, f1, f2);
  }

  /** The confirmed owner lifts the fence exactly over the candidate, cleanly, or where the
      process still stands by that very candidate; the reply is the real authority either way. */
  lemma ConfirmationIsAnswered(a: Addon, native: bool, id: nat, f1: WriteFault, f2: WriteFault)
    requires Fenced(a.disk)
    ensures
      var (b, reply) := Served(a, OwnerAddon, native, id, f1, f2);
      && reply == Some(PeerSummary(b, false))
      && (IsKnown(b) <==>
            && AddonAnswers.ShowsCandidate(a.disk)
            && (f1 == Clean || (f1 == FailsAfter && a.state == Some(a.disk.marker.value.candidate))))
      && (IsKnown(b) ==> b.state == Some(a.disk.marker.value.candidate))
  {
    AddonAnswers.ReturnEndsExactlyWhen(a, id, f1, f2);
  }

  // ---------------------------------------------------------------- the steps

  /** Each step of a run is its operation, on one side or between the two. An operation of the
      integration begins only while none is in progress, and a reply is used once. */
  lemma StepsAreTheirOperations(s: System, target: Side, summary: Option<Summary>, wants: Side)
    ensures
      var resting := s.site.work.Resting?;
      && Next(s, Request(target, summary)) == s.(site := if resting then Requested(s.site, target, summary) else s.site)
      && Next(s, Abort) == s.(site := if resting then Aborted(s.site) else s.site)
      && Next(s, Receive(true)) ==
           (if s.channel.Answered? && resting
            then s.(channel := Quiet, site := Advanced(s.site, s.channel.summary)) else s)
      && Next(s, Receive(false)) == (if s.channel.Answered? then s.(channel := Quiet) else s)
      && Next(s, Lose) == s.(channel := Quiet)
      && Next(s, Send) == (if s.channel.Quiet? then s.(channel := Sent(SnapshotOwner(s.site))) else s)
    ensures
      var v := Next(s, Reboot(wants));
      v.addon == s.addon && v.channel == Quiet && v.site == Loaded(s.site.record, s.site.site.disk, wants)
  {
  }

  /** So is each write of an operation in progress, and each save of the site beside it. */
  lemma WorkIsDoneInItsTurn(s: System, id: nat, f1: WriteFault, f2: WriteFault)
    ensures
      var i := s.site;
      && Next(s, Admit(id, f1, f2)) == s.(site := if i.work.Admitting? then Admitted(i, id, f1, f2) else i)
      && Next(s, Withdraw(f1)) == s.(site := if i.work.Withdrawing? then Withdrawn(i, f1) else i)
      && Next(s, Record(f1)) == s.(site := if i.work.Recording? then Recorded(i, f1) else i)
      && Next(s, Verify) == s.(site := if i.work.Verifying? then Verified(i) else i)
  {
  }

  lemma SiteIsSavedBeside(s: System, id: nat, f1: WriteFault, f2: WriteFault, c: SiteState, wants: Side)
    ensures
      var i := s.site;
      && Next(s, SaveSite(c, f1)) == s.(site := i.(site := SiteSaved(i.site, c, f1)))
      && Next(s, ConfirmSite(id, f1, f2)) == s.(site := i.(site := SiteConfirmed(i.site, id, f1, f2)))
      && Next(s, Retopologise(wants)) == s.(site := i.(wants := wants))
  {
  }

  /** A snapshot is delivered once: turned away or not paired it leaves nothing, and any
      other leaves the reply in flight. */
  lemma DeliveredOnce(s: System, accepted: bool, native: bool, id: nat, f1: WriteFault, f2: WriteFault)
    ensures
      var v := Next(s, Deliver(accepted, native, id, f1, f2));
      && v.site == s.site
      && (!s.channel.Sent? ==> v == s)
      && (s.channel.Sent? && !accepted ==> v == s.(channel := Quiet))
      && (s.channel.Sent? && accepted ==>
            var (b, reply) := Served(s.addon, s.channel.owner, native, id, f1, f2);
            v.addon == b && v.channel == if reply.Some? then Answered(reply.value) else Quiet)
  {
  }
}
