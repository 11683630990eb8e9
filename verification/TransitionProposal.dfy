/** Which transition a request becomes: the pure half of mode changes. */
module TransitionProposal {
  import opened Basics

  datatype Mode = Observe | Protect | Optimise

  datatype Step = CancelExport | WriteFallback | ReleaseHolds | VerifyFreshPlan | EvaluateProtection

  datatype Transition = Transition(target: Mode, startedAt: int, steps: seq<Step>, failing: seq<Step>)

  datatype Manual = Manual(deadline: Option<int>, returnTo: Mode, keepProtection: bool)

  datatype Cause = AddonLiveness | SocIntegrity

  datatype Fallback = Fallback(active: bool, causes: set<Cause>)

  /** The durable record; holds and export supervisions are opaque here. */
  datatype Authority = Authority(
    storeId: nat, mode: Mode, session: Option<nat>, epoch: nat, transition: Option<Transition>,
    manual: Option<Manual>, fallback: Fallback, holds: seq<nat>, supervisions: seq<nat>)

  datatype Target = To(mode: Mode) | ToManual(keepProtection: bool, deadline: Option<int>) | Resume

  /** `known` says the requester is a CLI or the ingress page, which must name the epoch. */
  datatype Request = Request(target: Target, expectedEpoch: Option<nat>, known: bool, now: int)

  /** What the preconditions report as met. */
  datatype Report = Report(forActive: bool, forOptimise: bool)

  datatype Refusal = StaleEpoch | InProgress | NotActive | NoSession | Unmet

  datatype Decision = Refused(why: Refusal) | Keep | Propose(state: Authority)

  function Granted(
      s: Authority, mode: Mode, manual: Option<Manual>, target: Mode, steps: seq<Step>, now: int): Decision {
    Propose(s.(
      mode := mode, manual := manual, epoch := s.epoch + 1,
      transition := if steps == [] then None else Some(Transition(target, now, steps, [])),
      supervisions := if CancelExport in steps || mode != Optimise then [] else s.supervisions))
  }

  function Proposed(s: Authority, r: Request, report: Report): Decision {
    if (r.expectedEpoch.Some? || r.known) && r.expectedEpoch != Some(s.epoch) then Refused(StaleEpoch)
    else if s.manual.Some? && r.target.To? && r.target.mode != Observe then
      if r.target.mode == s.manual.value.returnTo then Keep
      else Propose(s.(manual := Some(s.manual.value.(returnTo := r.target.mode)), epoch := s.epoch + 1))
    else if s.transition.Some? && !(r.target == To(Observe) || r.target.ToManual?) then Refused(InProgress)
    else
      match r.target
      case ToManual(keep, deadline) =>
        if s.mode == Observe || s.manual.Some? then Refused(NotActive)
        else Granted(s, s.mode, Some(Manual(deadline, s.mode, keep)), s.mode,
                     (if s.mode == Optimise then [CancelExport] else []) + (if keep then [] else [ReleaseHolds]), r.now)
      case Resume =>
        if s.manual.None? then Refused(NoSession)
        else
          var mode := s.manual.value.returnTo;
          Granted(s, mode, None, mode,
                  if mode != Optimise then [EvaluateProtection]
                  else if s.fallback.causes != {} then [WriteFallback] else [VerifyFreshPlan], r.now)
      case To(target) =>
        if target == Observe then
          if (s.mode == Observe && s.transition.None?) || (s.transition.Some? && s.transition.value.target == Observe)
          then Keep
          else
            var first :=
              if s.manual.None? && s.mode == Optimise then [CancelExport, WriteFallback]
              else if s.transition.Some? && CancelExport in s.transition.value.steps then [CancelExport] else [];
            Granted(s, s.mode, None, Observe, first + [ReleaseHolds], r.now)
        else if target == s.mode && s.transition.None? then Keep
        else if target == Optimise then
          if report.forActive && report.forOptimise
            then Granted(s, Optimise, s.manual, Optimise, [VerifyFreshPlan], r.now)
          else Refused(Unmet)
        else if s.mode == Observe && !report.forActive then Refused(Unmet)
        else if s.mode == Optimise then Granted(s, s.mode, s.manual, Protect, [CancelExport, WriteFallback], r.now)
        else Granted(s, Protect, s.manual, Protect, [EvaluateProtection], r.now)
  }

  /** No proposal rests on a stale epoch, every one makes a new epoch, and none touches
      the store's identity, its session, its holds or its fallback. */
  lemma ProposalMovesTheEpoch(s: Authority, r: Request, report: Report, c: Authority)
    requires Proposed(s, r, report) == Propose(c)
    ensures r.expectedEpoch == Some(s.epoch) || (r.expectedEpoch.None? && !r.known)
    ensures c.epoch == s.epoch + 1
    ensures (c.storeId, c.session, c.holds, c.fallback) == (s.storeId, s.session, s.holds, s.fallback)
  {
  }

  /** An active mode is entered only on its preconditions, optimise only on all of them or
      by resuming a session that returns to it, and an unfinished transition gives way
      only to observe or manual. */
  lemma ProposalIsWarranted(s: Authority, r: Request, report: Report, c: Authority)
    requires Proposed(s, r, report) == Propose(c)
    requires s.manual.Some? ==> s.mode != Observe
    ensures s.mode == Observe && c.mode != Observe ==> report.forActive
    ensures s.mode != Optimise && c.mode == Optimise ==>
      (report.forActive && report.forOptimise)
      || (r.target == Resume && s.manual.Some? && s.manual.value.returnTo == Optimise)
    ensures s.transition.Some? && c.transition != s.transition ==> r.target == To(Observe) || r.target.ToManual?
  {
  }

  /** A newly granted active mode stays in transition until what it rests on is verified: a
      fresh plan, or the written fallback after a manual session that ends in one; for
      protect, an evaluation of the protection. */
  lemma GrantsAwaitVerification(s: Authority, r: Request, report: Report, c: Authority)
    requires Proposed(s, r, report) == Propose(c) && c.transition.Some? && c.manual.None?
    requires c.mode == c.transition.value.target != Observe && c.transition != s.transition
    ensures c.transition.value.failing == []
    ensures c.mode == Protect ==> c.transition.value.steps == [EvaluateProtection]
    ensures c.mode == Optimise ==>
      c.transition.value.steps ==
        if r.target == Resume && s.fallback.causes != {} then [WriteFallback] else [VerifyFreshPlan]
  {
  }

  /** The saved mode moves with the grant itself for just three requests: optimise from
      another mode, protect from observe, and a resume into another mode. All of them leave a
      transition to it that has steps to verify; every other request keeps the mode until its
      transition is committed. */
  lemma ModeIsTakenAtTheGrant(s: Authority, r: Request, report: Report, c: Authority)
    requires Proposed(s, r, report) == Propose(c)
    ensures c.mode != s.mode <==>
      || (s.manual.None? && r.target == To(Optimise) && s.mode != Optimise)
      || (s.manual.None? && r.target == To(Protect) && s.mode == Observe)
      || (r.target == Resume && s.manual.Some? && s.manual.value.returnTo != s.mode)
    ensures c.mode != s.mode ==>
      c.transition.Some? && c.transition.value.target == c.mode && c.transition.value.steps != []
  {
  }

  /** Optimise is never left by the proposal itself: the mode stays while the first step
      cancels the export, and the right to supervise one ends with the save. */
  lemma LeavingOptimiseCancelsFirst(s: Authority, r: Request, report: Report, c: Authority)
    requires Proposed(s, r, report) == Propose(c) && s.mode == Optimise && s.manual.None?
    requires c.transition.Some? && (c.transition.value.target != Optimise || c.manual.Some?)
    ensures c.mode == Optimise && c.transition.value.steps[..1] == [CancelExport] && c.supervisions == []
  {
  }

  // ---------------------------------------------------------------- what each request asks for

  /** The steps a proposal leaves to do. */
  function StepsOf(c: Authority): seq<Step> {
    if c.transition.Some? then c.transition.value.steps else []
  }

  /** A transition is there exactly when there are steps, and it starts now, with none failing. */
  predicate Begins(c: Authority, target: Mode, now: int) {
    if c.transition.None? then true
    else
      && c.transition.value.target == target && c.transition.value.startedAt == now
      && c.transition.value.failing == [] && c.transition.value.steps != []
  }

  /** A manual session keeps the mode and remembers it. The holds are released unless the
      owner keeps the protection, and the export is cancelled, first, out of optimise. */
  lemma ManualAsksFor(s: Authority, r: Request, report: Report, c: Authority)
    requires Proposed(s, r, report) == Propose(c) && r.target.ToManual?
    ensures c.mode == s.mode != Observe && s.manual.None?
    ensures c.manual == Some(Manual(r.target.deadline, s.mode, r.target.keepProtection))
    ensures Begins(c, s.mode, r.now)
    ensures ReleaseHolds in StepsOf(c) <==> !r.target.keepProtection
    ensures CancelExport in StepsOf(c) <==> s.mode == Optimise
    ensures s.mode == Optimise ==> StepsOf(c)[0] == CancelExport
    ensures forall step :: step in StepsOf(c) ==> step == ReleaseHolds || step == CancelExport
  {
  }

  /** Observe ends a manual session and keeps the mode until its transition is committed.
      The release comes last; an export is cancelled where optimise or an unfinished
      cancel leaves one, and charging is handed to the fallback out of optimise. */
  lemma ObserveAsksFor(s: Authority, r: Request, report: Report, c: Authority)
    requires Proposed(s, r, report) == Propose(c) && r.target == To(Observe)
    ensures c.mode == s.mode && c.manual.None? && c.transition.Some? && Begins(c, Observe, r.now)
    ensures StepsOf(c)[|StepsOf(c)| - 1] == ReleaseHolds
    ensures WriteFallback in StepsOf(c) <==> s.manual.None? && s.mode == Optimise
    ensures CancelExport in StepsOf(c) <==>
      || (s.manual.None? && s.mode == Optimise)
      || (s.transition.Some? && CancelExport in s.transition.value.steps)
    ensures CancelExport in StepsOf(c) ==> StepsOf(c)[0] == CancelExport
    ensures VerifyFreshPlan !in StepsOf(c) && EvaluateProtection !in StepsOf(c)
  {
    assert StepsOf(c)[|StepsOf(c)| - 1] == ReleaseHolds;
  }

  /** A resume ends the session in the mode it returns to. */
  lemma ResumeAsksFor(s: Authority, r: Request, report: Report, c: Authority)
    requires Proposed(s, r, report) == Propose(c) && r.target == Resume
    ensures s.manual.Some? && s.transition.None? && c.manual.None? && c.mode == s.manual.value.returnTo
    ensures c.transition.Some? && Begins(c, c.mode, r.now) && |StepsOf(c)| == 1
    ensures EvaluateProtection in StepsOf(c) <==> c.mode != Optimise
    ensures WriteFallback in StepsOf(c) <==> c.mode == Optimise && s.fallback.causes != {}
    ensures VerifyFreshPlan in StepsOf(c) <==> c.mode == Optimise && s.fallback.causes == {}
  {
  }

  /** A mode other than observe: during a manual session it only becomes the mode the
      session returns to. Otherwise optimise and, from observe, protect are taken at once;
      optimise is handed over to protect by cancelling the export, then the fallback. */
  lemma ModeAsksFor(s: Authority, r: Request, report: Report, c: Authority)
    requires Proposed(s, r, report) == Propose(c) && r.target.To? && r.target.mode != Observe
    ensures s.manual.Some? ==>
      && c.manual == Some(s.manual.value.(returnTo := r.target.mode)) && s.manual.value.returnTo != r.target.mode
      && (c.mode, c.transition, c.supervisions) == (s.mode, s.transition, s.supervisions)
    ensures s.manual.None? ==>
      && c.manual.None? && s.transition.None? && c.transition.Some? && Begins(c, r.target.mode, r.now)
      && (c.mode == s.mode || c.mode == r.target.mode)
      && (s.mode == Optimise <==> StepsOf(c) == [CancelExport, WriteFallback])
      && (StepsOf(c) == [VerifyFreshPlan] <==> r.target.mode == Optimise)
      && (StepsOf(c) == [EvaluateProtection] <==> r.target.mode == Protect && s.mode != Optimise)
  {
    assert [CancelExport, WriteFallback][0] != [VerifyFreshPlan][0];
    assert [EvaluateProtection][0] != [VerifyFreshPlan][0];
    assert [CancelExport, WriteFallback][0] != [EvaluateProtection][0];
  }

  /** The right to supervise an export lasts while the mode stays optimise and no cancel is
      asked for. */
  lemma SupervisionLastsWhile(s: Authority, r: Request, report: Report, c: Authority)
    requires Proposed(s, r, report) == Propose(c) && (s.manual.None? || !r.target.To? || r.target.mode == Observe)
    ensures c.supervisions == if c.mode == Optimise && CancelExport !in StepsOf(c) then s.supervisions else []
  {
  }

  // ---------------------------------------------------------------- what is refused

  /** The epoch named is the current one, or a requester that need not name it did not. */
  predicate NamesEpoch(s: Authority, r: Request) {
    r.expectedEpoch == Some(s.epoch) || (r.expectedEpoch.None? && !r.known)
  }

  /** During a manual session another active mode is answered by moving its return. */
  predicate MovesReturn(s: Authority, r: Request) {
    s.manual.Some? && r.target.To? && r.target.mode != Observe
  }

  lemma RefusedExactlyWhen(s: Authority, r: Request, report: Report)
    ensures Proposed(s, r, report) == Refused(StaleEpoch) <==> !NamesEpoch(s, r)
    ensures NamesEpoch(s, r) ==>
      (Proposed(s, r, report) == Refused(InProgress) <==>
        !MovesReturn(s, r) && s.transition.Some? && r.target != To(Observe) && !r.target.ToManual?)
    ensures NamesEpoch(s, r) ==>
      (Proposed(s, r, report) == Refused(NotActive) <==>
        r.target.ToManual? && (s.mode == Observe || s.manual.Some?))
    ensures NamesEpoch(s, r) ==>
      (Proposed(s, r, report) == Refused(NoSession) <==>
        r.target == Resume && s.manual.None? && s.transition.None?)
    ensures NamesEpoch(s, r) ==>
      (Proposed(s, r, report) == Refused(Unmet) <==>
        && s.manual.None? && s.transition.None? && r.target.To? && r.target.mode != s.mode && r.target.mode != Observe
        && (!report.forActive || (r.target.mode == Optimise && !report.forOptimise))
        && !(r.target.mode == Protect && s.mode == Optimise))
  {
  }

  /** A request that changes nothing is kept as it is. */
  lemma KeptExactlyWhen(s: Authority, r: Request, report: Report)
    ensures NamesEpoch(s, r) ==>
      (Proposed(s, r, report) == Keep <==>
        || (MovesReturn(s, r) && r.target.mode == s.manual.value.returnTo)
        || (!MovesReturn(s, r) && r.target.To? && r.target.mode == s.mode && s.transition.None?)
        || (r.target == To(Observe) && s.transition.Some? && s.transition.value.target == Observe))
  {
  }
}
