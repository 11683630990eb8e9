/** What every save and every attempt of the step machine leaves behind: when it is taken,
    what it changes, and what it leaves alone. */
module TransitionAnswers {
  import opened Basics
  import opened SiteAuthority
  import opened StoreReplacement
  import opened TransitionProposal
  import opened TransitionExecutor

  // ---------------------------------------------------------------- single saves

  /** A save is taken only over the store it was made from: anything else touches nothing
      and publishes nothing. */
  lemma StrangeStoreIsNotSaved(w: World, c: Authority, f: WriteFault, events: seq<Event>)
    requires w.memory.Some?
    requires
      || w.marker != Bound(w.disk.storeId)
      || w.disk.storeId != w.memory.value.storeId || c.storeId != w.disk.storeId
    ensures
      var (v, ok) := Saved(w, c, f, events);
      !ok && v.memory.None? && (v.disk, v.marker, v.log) == (w.disk, w.marker, w.log)
  {
  }

  /** A handover out revokes exactly a settled store: observe, nothing held, nothing in
      progress and no session. The repair replaces exactly what does not load or was not
      saved, and a handover in exactly what was revoked. */
  lemma StoreGivesWayExactlyWhen(w: World, id: nat)
    requires Consistent(w)
    ensures
      var s, v := w.disk, Applied(w, Retire(Clean));
      if && w.marker == Bound(s.storeId) && !w.saveFailed
         && s.mode == Observe && s.holds == [] && s.transition.None? && s.manual.None?
      then v == w.(marker := Revoked(s.storeId), memory := None)
      else v == w
    ensures
      var v := Applied(w, Confirm(id, Clean, Clean));
      if w.marker != Revoked(w.disk.storeId) && (w.marker != Bound(w.disk.storeId) || w.saveFailed)
      then v.memory == Some(NewAuthority(id)) && Consistent(v) && v.log == w.log + [NewStore(id, 1)]
      else v == w
    ensures
      var v := Applied(w, Initialise(id, Clean, Clean));
      if w.marker == Revoked(w.disk.storeId) && !w.saveFailed
      then v.memory == Some(NewAuthority(id)) && Consistent(v) && v.log == w.log + [NewStore(id, 1)]
      else v == w
  {
  }

  /** A change of fallback is a change of epoch exactly when it starts or ends one, and an
      active one takes away the right to supervise an export. Nothing else moves. */
  lemma FallbackMovesTheEpoch(w: World, fallback: Fallback)
    requires w.owned && w.memory.Some? && Consistent(w)
    ensures
      var s, v := w.disk, Applied(w, SetFallback(fallback, Clean));
      && v.memory == Some(v.disk) && v.disk.fallback == fallback
      && (v.disk.epoch == s.epoch <==> fallback.active == s.fallback.active)
      && (v.disk.epoch != s.epoch ==> v.disk.epoch == s.epoch + 1)
      && (fallback.active ==> v.disk.supervisions == []) && (!fallback.active ==> v.disk.supervisions == s.supervisions)
      && (v.disk.mode, v.disk.transition, v.disk.manual, v.disk.holds, v.disk.session, v.disk.storeId)
         == (s.mode, s.transition, s.manual, s.holds, s.session, s.storeId)
  {
  }

  /** Holds are saved exactly for the epoch and store they were made for, and nothing else
      moves with them. */
  lemma HoldsAreSavedExactlyWhen(w: World, holds: seq<nat>, storeId: nat, epoch: nat)
    requires w.owned && w.memory.Some? && Consistent(w)
    ensures
      var v := Applied(w, SaveHolds(holds, storeId, epoch, Clean));
      if w.disk.epoch == epoch && w.disk.storeId == storeId
      then v == w.(disk := w.disk.(holds := holds), memory := Some(w.disk.(holds := holds)))
      else v == w
  {
    assert w.log + [] == w.log;
  }

  /** A new session is a new epoch; the session there already is none. */
  lemma SessionMovesTheEpoch(w: World, session: nat)
    requires w.owned && w.memory.Some? && Consistent(w)
    ensures
      var s, v := w.disk, Applied(w, NewSession(session, Clean));
      if s.session == Some(session) then v == w
      else
        && v.memory == Some(v.disk) && v.disk == s.(session := Some(session), epoch := s.epoch + 1)
        && v.log == w.log + [Bumped(s.epoch + 1)]
  {
  }

  /** Without the ownership, or with nothing published, no save is made at all. */
  lemma UnownedSavesNothing(w: World, op: Op)
    requires !w.owned || w.memory.None?
    requires op.SaveHolds? || op.SetFallback? || op.NewSession? || op.Propose?
    ensures Applied(w, op) == w
  {
  }

  /** A failed owner record takes the published state away; a reload brings back what the
      store loads as. */
  lemma FenceHidesUntilReload(w: World, owned: bool, live: bool)
    ensures
      var v := Applied(w, Fence);
      && v == w.(memory := None, saveFailed := true)
      && Applied(v, Reload) == w.(
        memory := if w.marker == Bound(w.disk.storeId) then Some(w.disk) else None, saveFailed := false)
    ensures Applied(w, Handle(owned, live)) == w.(owned := owned, live := live)
  {
  }

  /** A proposal is saved, as it is, exactly over the store it was made from and cleanly. */
  lemma ProposalIsSavedExactlyWhen(w: World, r: Request, report: Report, f: WriteFault)
    requires Consistent(w)
    ensures
      var (v, ok) := Requested(w, r, report, f);
      && (ok <==> w.owned && w.memory.Some? && Proposed(w.disk, r, report).Propose? && f == Clean)
      && (ok ==> v.disk == Proposed(w.disk, r, report).state && v.memory == Some(v.disk))
      && (!ok && !(w.owned && w.memory.Some? && Proposed(w.disk, r, report).Propose?) ==> v == w)
  {
  }

  // ---------------------------------------------------------------- attempts

  /** A verdict counts exactly while the site is owned and the store still shows the
      transition it was asked for, under the same identity and epoch. */
  lemma VerdictIsHeldExactlyWhen(v: World, s: Authority)
    requires s.transition.Some? && s.transition.value.steps != []
    ensures Verdict(v, s) == Verified(s.transition.value.steps[0], s.epoch,
      && v.owned && v.memory.Some? && v.memory.value.storeId == s.storeId
      && v.memory.value.epoch == s.epoch && v.memory.value.transition == s.transition)
  {
  }

  /** Nothing is retried without the ownership, a published transition, an active mode and
      a writer that has started. */
  lemma NothingRunsUnless(w: World, tries: nat -> Attempt, final: WriteFault)
    requires
      || !w.owned || !w.live || w.memory.None? || w.memory.value.transition.None?
      || w.memory.value.mode == Observe
    ensures Retried(w, tries, final) == w
  {
  }

  /** What touches charging or export waits for the grace after a start; what protects
      does not: its attempt is made and a failure named at once. */
  lemma ProtectionNeedsNoGrace(w: World, tries: nat -> Attempt, k: nat, final: WriteFault)
    requires w.owned && w.memory.Some? && Consistent(w)
    requires w.disk.transition.Some? && w.disk.transition.value.steps != []
    ensures
      var head, v := w.disk.transition.value.steps[0], Advanced(w, tries, k, final);
      && (head in {CancelExport, WriteFallback, VerifyFreshPlan} && !tries(k).permitted ==> v == w)
      && (head in {ReleaseHolds, EvaluateProtection} || tries(k).permitted ==>
            (tries(k).during == [] && !tries(k).verified && tries(k).f == Clean ==>
               v.disk == w.disk.(transition := Some(w.disk.transition.value.(failing := [head])))
               && v.memory == Some(v.disk)))
  {
    assert w.log + [] == w.log;
  }

  /** The commit takes the mode its transition led to. It ends a fallback, with a new epoch,
      exactly where one is active, no manual session is in force and the mode is not
      optimise. */
  lemma CommitEnds(w: World, tries: nat -> Attempt, k: nat)
    requires w.memory.Some? && Consistent(w) && w.disk.transition.Some? && w.disk.transition.value.steps == []
    ensures
      var s, v := w.disk, Advanced(w, tries, k, Clean);
      var ends := s.fallback.active && s.manual.None? && s.transition.value.target != Optimise;
      && v.disk.mode == s.transition.value.target && v.disk.transition.None? && v.memory == Some(v.disk)
      && v.disk.fallback == (if ends then Fallback(false, {}) else s.fallback)
      && v.disk.epoch == (if ends then s.epoch + 1 else s.epoch)
      && (v.disk.manual, v.disk.holds, v.disk.supervisions, v.disk.session, v.disk.storeId)
         == (s.manual, s.holds, s.supervisions, s.session, s.storeId)
      && v.log == w.log + [Committed(v.disk.mode, s.epoch, v.disk.epoch)]
  {
  }

  /** A request whose state changed while it waited, or whose site was given away, is
      dropped: what happened meanwhile is all that happens. */
  lemma OvertakenRequestIsDropped(
      w: World, r: Request, report: Report, waiting: seq<Op>, f: WriteFault, tries: nat -> Attempt, final: WriteFault)
    requires w.owned && w.memory.Some? && Proposed(w.memory.value, r, report).Propose?
    requires !AllApplied(w, waiting).owned || AllApplied(w, waiting).memory != w.memory
    ensures RequestedAndAdvanced(w, r, report, waiting, f, tries, final) == AllApplied(w, waiting)
  {
  }

  /** One that proposes nothing does nothing, not even wait. */
  lemma RefusedRequestDoesNothing(
      w: World, r: Request, report: Report, waiting: seq<Op>, f: WriteFault, tries: nat -> Attempt, final: WriteFault)
    requires !w.owned || w.memory.None? || !Proposed(w.memory.value, r, report).Propose?
    ensures RequestedAndAdvanced(w, r, report, waiting, f, tries, final) == w
  {
  }

  /** One that stands is saved and then carried out, but moving the mode a manual session
      returns to carries nothing out. */
  lemma StandingRequestIsCarriedOut(
      w: World, r: Request, report: Report, waiting: seq<Op>, f: WriteFault, tries: nat -> Attempt, final: WriteFault)
    requires w.owned && w.memory.Some? && Proposed(w.memory.value, r, report).Propose?
    requires AllApplied(w, waiting).owned && AllApplied(w, waiting).memory == w.memory
    ensures
      var (saved, ok) := Requested(AllApplied(w, waiting), r, report, f);
      RequestedAndAdvanced(w, r, report, waiting, f, tries, final)
        == if ok && !MovesReturn(w.memory.value, r) then Retried(saved, tries, final) else saved
  {
  }
}
