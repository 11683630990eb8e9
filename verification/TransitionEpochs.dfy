/** How the epoch moves while a transition is carried out, and which epoch each of its
    verdicts was given under. */
module TransitionEpochs {
  import opened Basics
  import opened SiteAuthority
  import opened StoreReplacement
  import opened TransitionProposal
  import opened TransitionExecutor

  // ---------------------------------------------------------------- the epoch the log tells

  /** The epoch on disk after what is logged. */
  function EpochOf(log: seq<Event>): nat
    decreases |log|
  {
    if log == [] then 1
    else
      var e := log[|log| - 1];
      if e.Verified? then EpochOf(log[..|log| - 1]) else e.epoch
  }

  /** Proposals and bumps raise the epoch, a commit starts from it and never lowers it, and
      no verdict of the same store is ahead of it: one that is held was given under it. Only
      a new store starts over, at 1. */
  predicate Told(log: seq<Event>)
    decreases |log|
  {
    log == [] || (Told(log[..|log| - 1]) && Fits(EpochOf(log[..|log| - 1]), log[|log| - 1]))
  }

  predicate Fits(epoch: nat, e: Event) {
    match e
    case Began(_, _, _, _, n) => n > epoch
    case Bumped(n) => n > epoch
    case Verified(_, n, held) => held ==> n == epoch
    case Committed(_, before, n) => before == epoch <= n
    case NewStore(_, n) => n == 1
  }

  /** The log tells the epoch on disk. */
  predicate EpochsInOrder(w: World) {
    Told(w.log) && EpochOf(w.log) == w.disk.epoch && Consistent(w)
  }

  predicate InOneStore(events: seq<Event>) {
    forall k :: 0 <= k < |events| ==> !events[k].NewStore?
  }

  /** One state follows another: a log that grew and, unless it tells of a new store, the
      same store and no earlier epoch. */
  predicate Follows(v: World, w: World) {
    && EpochsInOrder(v) && w.log <= v.log
    && (InOneStore(v.log[|w.log|..]) ==> v.disk.storeId == w.disk.storeId && v.disk.epoch >= w.disk.epoch)
  }

  lemma FollowsTwice(x: World, v: World, w: World)
    requires Follows(x, v) && Follows(v, w)
    ensures Follows(x, w)
  {
    OneStoreSplits(w.log, v.log, x.log);
  }

  lemma OneStoreSplits(a: seq<Event>, b: seq<Event>, c: seq<Event>)
    requires a <= b <= c
    ensures InOneStore(c[|a|..]) ==> InOneStore(b[|a|..]) && InOneStore(c[|b|..])
  {
    var m, n := |a|, |b|;
    if InOneStore(c[m..]) {
      forall k | 0 <= k < |b[m..]| ensures !b[m..][k].NewStore? {
        assert c[m..][k] == b[m..][k];
      }
      forall k | 0 <= k < |c[n..]| ensures !c[n..][k].NewStore? {
        assert c[m..][n - m + k] == c[n..][k];
      }
    }
  }

  lemma NothingNew(w: World)
    ensures w.log[|w.log|..] == []
  {
  }

  lemma LogGrows(log: seq<Event>, e: Event)
    requires Told(log) && Fits(EpochOf(log), e)
    ensures Told(log + [e]) && EpochOf(log + [e]) == if e.Verified? then EpochOf(log) else e.epoch
  {
    assert (log + [e])[..|log|] == log;
  }

  lemma SavedFollows(w: World, c: Authority, f: WriteFault, events: seq<Event>)
    requires EpochsInOrder(w) && w.memory.Some? && c.storeId == w.disk.storeId && c.epoch >= w.disk.epoch
    requires |events| <= 1 && (events == [] ==> c.epoch == w.disk.epoch)
    requires events != [] ==>
      && Fits(w.disk.epoch, events[0]) && !events[0].Verified? && !events[0].NewStore?
      && events[0].epoch == c.epoch
    ensures Follows(Saved(w, c, f, events).0, w)
  {
    NothingNew(w);
    assert (w.log + events)[|w.log|..] == events;
    if events == [] {
      assert w.log + events == w.log;
    } else {
      assert events == [events[0]];
      LogGrows(w.log, events[0]);
    }
  }

  lemma ReplacementFollows(w: World, allowed: bool, id: nat, f1: WriteFault, f2: WriteFault)
    requires EpochsInOrder(w)
    ensures Follows(StoreReplaced(w, allowed, id, f1, f2), w)
  {
    LogGrows(w.log, NewStore(id, 1));
    NothingNew(w);
    assert (w.log + [NewStore(id, 1)])[|w.log|..] == [NewStore(id, 1)];
    assert !InOneStore([NewStore(id, 1)]) by {
      assert [NewStore(id, 1)][0].NewStore?;
    }
  }

  lemma OpFollows(w: World, op: Op)
    requires EpochsInOrder(w)
    ensures Follows(Applied(w, op), w)
  {
    NothingNew(w);
    match op
    case Confirm(id, f1, f2) =>
      ReplacementFollows(w, MayConfirm(w.disk.storeId, w.marker, w.saveFailed), id, f1, f2);
    case Initialise(id, f1, f2) =>
      ReplacementFollows(w, MayInitialise(w.disk.storeId, w.marker, w.saveFailed), id, f1, f2);
    case _ => SaveFollows(w, op);
  }

  lemma SaveFollows(w: World, op: Op)
    requires EpochsInOrder(w) && !op.Confirm? && !op.Initialise?
    ensures Follows(Applied(w, op), w)
  {
    NothingNew(w);
    if w.memory.Some? {
      var s := w.memory.value;
      match op
      case SaveHolds(holds, storeId, epoch, f) => SavedFollows(w, s.(holds := holds), f, []);
      case SetFallback(fallback, f) =>
        SavedFollows(w, WithFallback(s, fallback), f, BumpEvents(s, WithFallback(s, fallback)));
      case NewSession(session, f) =>
        SavedFollows(w, WithSession(s, session), f, BumpEvents(s, WithSession(s, session)));
      case Propose(request, report, f) => RequestFollows(w, request, report, f);
      case _ =>
    }
  }

  lemma RequestFollows(w: World, r: Request, report: Report, f: WriteFault)
    requires EpochsInOrder(w)
    ensures Follows(Requested(w, r, report, f).0, w)
  {
    NothingNew(w);
    if w.owned && w.memory.Some? && Proposed(w.memory.value, r, report).Propose? {
      var s := w.memory.value;
      var c := Proposed(s, r, report).state;
      ProposalMovesTheEpoch(s, r, report, c);
      SavedFollows(w, c, f, BeginEvents(s, r, c));
    }
  }

  lemma {:induction false} OpsFollow(w: World, ops: seq<Op>)
    requires EpochsInOrder(w)
    ensures Follows(AllApplied(w, ops), w)
    decreases |ops|
  {
    NothingNew(w);
    if ops != [] {
      OpFollows(w, ops[0]);
      OpsFollow(Applied(w, ops[0]), ops[1..]);
      FollowsTwice(AllApplied(w, ops), Applied(w, ops[0]), w);
    }
  }

  lemma TurnFollows(w: World, s: Authority, a: Attempt)
    requires EpochsInOrder(w) && w.memory == Some(s) && s.transition.Some? && s.transition.value.steps != []
    ensures
      var v := Worked(w, s, a);
      && Follows(v, w)
      && (SameTransition(v.memory, s) ==>
          var c := Progress(v.memory.value, a.verified);
          var (saved, ok) := Saved(v, c, a.f, []);
          Follows(saved, w) && (ok ==> saved.memory == Some(c)))
  {
    OpsFollow(w, a.during);
    var before := AllApplied(w, a.during);
    var v := Worked(w, s, a);
    NothingNew(before);
    if a.verified {
      LogGrows(before.log, Verdict(before, s));
      assert v.log[|before.log|..] == [Verdict(before, s)];
    }
    FollowsTwice(v, before, w);
    if SameTransition(v.memory, s) {
      var c := Progress(v.memory.value, a.verified);
      SavedFollows(v, c, a.f, []);
      FollowsTwice(Saved(v, c, a.f, []).0, v, w);
    }
  }

  lemma {:induction false} AdvanceFollows(w: World, tries: nat -> Attempt, k: nat, final: WriteFault)
    requires EpochsInOrder(w) && w.memory.Some? && w.memory.value.transition.Some?
    ensures Follows(Advanced(w, tries, k, final), w)
    decreases |w.memory.value.transition.value.steps|
  {
    var s := w.memory.value;
    var steps := s.transition.value.steps;
    NothingNew(w);
    if steps == [] {
      var c := Finish(s);
      SavedFollows(w, c, final, [Committed(c.mode, s.epoch, c.epoch)]);
    } else if w.owned && !(NeedsGrace(steps[0]) && !tries(k).permitted) {
      TurnFollows(w, s, tries(k));
      var v := Worked(w, s, tries(k));
      if v.owned && SameTransition(v.memory, s) {
        var (saved, ok) := Saved(v, Progress(v.memory.value, tries(k).verified), tries(k).f, []);
        if ok && tries(k).verified {
          AdvanceFollows(saved, tries, k + 1, final);
          FollowsTwice(Advanced(saved, tries, k + 1, final), saved, w);
        }
      }
    }
  }

  lemma RetryFollows(w: World, tries: nat -> Attempt, final: WriteFault)
    requires EpochsInOrder(w)
    ensures Follows(Retried(w, tries, final), w)
  {
    NothingNew(w);
    if w.memory.Some? && w.memory.value.transition.Some? {
      AdvanceFollows(w, tries, 0, final);
    }
  }

  /** No action of any kind takes the epoch on disk back, or changes the store, except by a
      replacement that it logs. */
  lemma EpochNeverDecreases(w: World, a: Action)
    requires EpochsInOrder(w)
    ensures Follows(Next(w, a), w)
  {
    NothingNew(w);
    match a
    case Alone(op) => OpFollows(w, op);
    case Retry(tries, final) => RetryFollows(w, tries, final);
    case Ask(request, report, waiting, f, tries, final) =>
      if w.memory.Some? {
        var v := AllApplied(w, waiting);
        var saved := Requested(v, request, report, f).0;
        OpsFollow(w, waiting);
        RequestFollows(v, request, report, f);
        RetryFollows(saved, tries, final);
        FollowsTwice(saved, v, w);
        FollowsTwice(Retried(saved, tries, final), saved, w);
      }
  }

  lemma {:induction false} RunFollows(w: World, actions: seq<Action>)
    requires EpochsInOrder(w)
    ensures Follows(Run(w, actions), w)
    decreases |actions|
  {
    NothingNew(w);
    if actions != [] {
      EpochNeverDecreases(w, actions[0]);
      RunFollows(Next(w, actions[0]), actions[1..]);
      FollowsTwice(Run(w, actions), Next(w, actions[0]), w);
    }
  }

  lemma {:induction false} EpochsRise(log: seq<Event>, m: nat)
    requires Told(log) && m <= |log| && InOneStore(log[m..])
    ensures EpochOf(log[..m]) <= EpochOf(log)
    decreases |log|
  {
    if m == |log| {
      assert log[..m] == log;
    } else {
      var n := |log| - 1;
      assert log[..n][..m] == log[..m] && log[m..][n - m] == log[n];
      assert forall k :: 0 <= k < n - m ==> log[..n][m..][k] == log[m..][k];
      EpochsRise(log[..n], m);
    }
  }

  /** Over every run, and however its stores were replaced: between any two points of its
      log with no new store in between, the epoch on disk did not go back; and after the
      last new store the disk is at 1 or later. */
  lemma EpochsRiseWithinAStore(storeId: nat, actions: seq<Action>, m: nat, k: nat)
    requires var log := Run(Fresh(storeId), actions).log; m <= k <= |log| && InOneStore(log[m..k])
    ensures var log := Run(Fresh(storeId), actions).log; EpochOf(log[..m]) <= EpochOf(log[..k])
    ensures EpochOf(Run(Fresh(storeId), actions).log) == Run(Fresh(storeId), actions).disk.epoch >= 1
  {
    var log := Run(Fresh(storeId), actions).log;
    RunFollows(Fresh(storeId), actions);
    if k < |log| {
      ToldOfPrefix(log, k);
    } else {
      assert log[..k] == log;
    }
    assert log[..k][m..] == log[m..k] && log[..k][..m] == log[..m];
    EpochsRise(log[..k], m);
    EpochIsPositive(log);
  }

  lemma {:induction false} EpochIsPositive(log: seq<Event>)
    requires Told(log)
    ensures EpochOf(log) >= 1
    decreases |log|
  {
    if log != [] {
      EpochIsPositive(log[..|log| - 1]);
    }
  }

  // ---------------------------------------------------------------- one epoch a transition

  /** Nothing bumped the epoch since the last proposal. */
  predicate Undisturbed(log: seq<Event>)
    decreases |log|
  {
    if log == [] then true
    else
      var e := log[|log| - 1];
      e.Began? || (!e.Bumped? && Undisturbed(log[..|log| - 1]))
  }

  /** Nothing bumped it since the last verdict that was held. */
  predicate QuietSinceVerdict(log: seq<Event>)
    decreases |log|
  {
    if log == [] then true
    else
      var e := log[|log| - 1];
      e.Began? || (e.Verified? && e.held) || (!e.Bumped? && QuietSinceVerdict(log[..|log| - 1]))
  }

  /** Every verdict held since the last proposal was given under that proposal's epoch. */
  predicate UnderOneEpoch(log: seq<Event>)
    decreases |log|
  {
    if log == [] || log[|log| - 1].Began? then true
    else
      var earlier, e := log[..|log| - 1], log[|log| - 1];
      && UnderOneEpoch(earlier)
      && (e.Verified? && e.held ==> LastBegun(earlier).Some? && e.epoch == LastBegun(earlier).value.epoch)
  }

  /** Some bump since the last proposal came before a verdict that was held. */
  predicate BumpedBeforeVerdict(log: seq<Event>)
    decreases |log|
  {
    if log == [] || log[|log| - 1].Began? then false
    else
      var earlier, e := log[..|log| - 1], log[|log| - 1];
      BumpedBeforeVerdict(earlier) || (e.Verified? && e.held && !Undisturbed(earlier))
  }

  /** While a transition is under way the disk is at its proposal's epoch exactly when
      nothing bumped it since. */
  lemma {:induction false} UndisturbedMeansSameEpoch(log: seq<Event>)
    requires Told(log) && Underway(log)
    ensures LastBegun(log).Some? && EpochOf(log) >= LastBegun(log).value.epoch
    ensures EpochOf(log) == LastBegun(log).value.epoch <==> Undisturbed(log)
    decreases |log|
  {
    if !log[|log| - 1].Began? {
      UndisturbedMeansSameEpoch(log[..|log| - 1]);
    }
  }

  lemma {:induction false} VerdictsShareTheEpoch(log: seq<Event>)
    requires Told(log) && Underway(log)
    ensures LastBegun(log).Some?
    ensures UnderOneEpoch(log) <==> !BumpedBeforeVerdict(log)
    ensures Undisturbed(log) <==> UnderOneEpoch(log) && QuietSinceVerdict(log)
    decreases |log|
  {
    if !log[|log| - 1].Began? {
      UndisturbedMeansSameEpoch(log[..|log| - 1]);
      VerdictsShareTheEpoch(log[..|log| - 1]);
    }
  }

  lemma {:induction false} ToldOfPrefix(log: seq<Event>, k: nat)
    requires Told(log) && k < |log|
    ensures Told(log[..k]) && Fits(EpochOf(log[..k]), log[k])
    decreases |log|
  {
    var n := |log| - 1;
    if k < n {
      ToldOfPrefix(log[..n], k);
      assert log[..n][..k] == log[..k];
    }
  }

  /** For every commit of every run. The verdicts it rests on all carry the epoch of its
      proposal exactly when no bump came before one of them. The disk was still at that
      epoch when the commit was made exactly when no bump came at all, which is: they all
      carry it, and none came after the last of them. */
  lemma OneEpochThroughout(storeId: nat, actions: seq<Action>, k: nat)
    requires var log := Run(Fresh(storeId), actions).log; k < |log| && log[k].Committed?
    ensures
      var log := Run(Fresh(storeId), actions).log;
      var begun := LastBegun(log[..k]);
      && begun.Some?
      && (UnderOneEpoch(log[..k]) <==> !BumpedBeforeVerdict(log[..k]))
      && (log[k].before == begun.value.epoch <==> Undisturbed(log[..k]))
      && (log[k].before == begun.value.epoch <==> UnderOneEpoch(log[..k]) && QuietSinceVerdict(log[..k]))
  {
    var log := Run(Fresh(storeId), actions).log;
    RunKeepsInv(Fresh(storeId), actions);
    RunFollows(Fresh(storeId), actions);
    assert Earned(log, k);
    ToldOfPrefix(log, k);
    UndisturbedMeansSameEpoch(log[..k]);
    VerdictsShareTheEpoch(log[..k]);
  }

  // ---------------------------------------------------------------- both conditions fail

  const DONE := Attempt(true, [], true, Clean)

  const FAILED := Attempt(true, [], false, Clean)

  /** The device verifies every step, or only the first n. */
  function Tries(n: Option<nat>): nat -> Attempt {
    (k: nat) => if n.Some? && k >= n.value then FAILED else DONE
  }

  const ALL_MET := Report(true, true)

  function Asking(mode: Mode, verified: Option<nat>, final: WriteFault): Action {
    Ask(Request(To(mode), None, false, 0), ALL_MET, [], Clean, Tries(verified), final)
  }

  function Site(storeId: nat, mode: Mode, session: Option<nat>, epoch: nat, transition: Option<Transition>): Authority {
    Authority(storeId, mode, session, epoch, transition, None, Fallback(false, {}), [], [])
  }

  /** An owned, live site whose store loads, and the same after a failed save. */
  function Running(s: Authority, log: seq<Event>): World {
    World(s, Bound(s.storeId), Some(s), false, true, true, log)
  }

  function Unsaved(s: Authority, log: seq<Event>): World {
    World(s, Bound(s.storeId), None, true, true, true, log)
  }

  /** One verified step of a transition whose state nobody disturbs. */
  lemma OneStepDone(w: World, tries: nat -> Attempt, k: nat, final: WriteFault)
    requires w.memory.Some? && w.memory.value == w.disk && Loads(w) && w.disk.transition.Some? && w.owned
    requires w.disk.transition.value.steps != [] && tries(k) == DONE
    ensures
      var step := w.disk.transition.value.steps[0];
      var after := w.(disk := Progress(w.disk, true), memory := Some(Progress(w.disk, true)), saveFailed := false,
                      log := w.log + [Verified(step, w.disk.epoch, true)]);
      Advanced(w, tries, k, final) == Advanced(after, tries, k + 1, final)
  {
    var s := w.disk;
    assert AllApplied(w, []) == w;
    var v := Worked(w, s, DONE);
    assert v.log + [] == v.log;
  }

  /** A step the device does not verify stays, named as failing, and nothing is logged. */
  lemma OneStepFailed(w: World, tries: nat -> Attempt, k: nat, final: WriteFault)
    requires w.memory.Some? && w.memory.value == w.disk && Loads(w) && w.disk.transition.Some? && w.owned
    requires w.disk.transition.value.steps != [] && tries(k) == FAILED
    ensures
      var c := Progress(w.disk, false);
      Advanced(w, tries, k, final) == w.(disk := c, memory := Some(c), saveFailed := false)
  {
    assert AllApplied(w, []) == w;
    assert w.log + [] == w.log;
  }

  lemma Finished(w: World, tries: nat -> Attempt, k: nat, final: WriteFault)
    requires w.memory.Some? && w.memory.value == w.disk && Loads(w) && w.disk.transition.Some?
    requires w.disk.transition.value.steps == [] && !w.disk.fallback.active
    ensures
      var c := w.disk.(mode := w.disk.transition.value.target, transition := None);
      Advanced(w, tries, k, final) ==
        if final == FailsBefore then w.(memory := None, saveFailed := true)
        else w.(disk := c, memory := if final == Clean then Some(c) else None, saveFailed := final != Clean,
                log := w.log + [Committed(c.mode, w.disk.epoch, w.disk.epoch)])
  {
  }

  /** From a fresh store the site enters optimise under epoch 2. */
  lemma Optimising(storeId: nat, final: WriteFault)
    ensures
      var granted := Transition(Optimise, 0, [VerifyFreshPlan], []);
      var left := Transition(Optimise, 0, [], []);
      var log := [Began(Some(granted), Optimise, None, true, 2), Verified(VerifyFreshPlan, 2, true)];
      var before, after := Site(storeId, Optimise, None, 2, Some(left)), Site(storeId, Optimise, None, 2, None);
      Next(Next(Fresh(storeId), Alone(Handle(true, true))), Asking(Optimise, None, final)) ==
        if final == Clean then Running(after, log + [Committed(Optimise, 2, 2)])
        else if final == FailsAfter then Unsaved(after, log + [Committed(Optimise, 2, 2)])
        else Unsaved(before, log)
  {
    var granted := Transition(Optimise, 0, [VerifyFreshPlan], []);
    var w := Fresh(storeId).(live := true);
    var a := Asking(Optimise, None, final);
    var c := Site(storeId, Optimise, None, 2, Some(granted));
    var began := Running(c, [Began(Some(granted), Optimise, None, true, 2)]);
    assert AllApplied(w, []) == w;
    assert w.log + began.log == began.log;
    assert Proposed(w.disk, a.request, ALL_MET) == Decision.Propose(c);
    assert BeginEvents(w.disk, a.request, c) == began.log;
    OneStepDone(began, a.tries, 0, final);
    var done := Site(storeId, Optimise, None, 2, Some(Transition(Optimise, 0, [], [])));
    var log := [Began(Some(granted), Optimise, None, true, 2), Verified(VerifyFreshPlan, 2, true)];
    assert began.log + [Verified(VerifyFreshPlan, 2, true)] == log;
    Finished(Running(done, log), a.tries, 1, final);
  }

  lemma FiveActions(w: World, a: Action, b: Action, c: Action, d: Action, e: Action)
    ensures Run(w, [a, b, c, d, e]) == Next(Next(Next(Next(Next(w, a), b), c), d), e)
  {
    RunsFirst(w, a, [b, c, d, e]);
    RunsFirst(Next(w, a), b, [c, d, e]);
    var v := Next(Next(w, a), b);
    RunsFirst(v, c, [d, e]);
    RunsFirst(Next(v, c), d, [e]);
    RunsFirst(Next(Next(v, c), d), e, []);
    assert [a, b, c, d, e] == [a] + [b, c, d, e] && [b, c, d, e] == [b] + [c, d, e];
    assert [c, d, e] == [c] + [d, e] && [d, e] == [d] + [e] && [e] == [e] + [];
  }

  lemma RunsFirst(w: World, a: Action, rest: seq<Action>)
    ensures Run(w, [a] + rest) == Run(Next(w, a), rest)
  {
    assert ([a] + rest)[1..] == rest;
  }

  const OPTIMISED := [Began(Some(Transition(Optimise, 0, [VerifyFreshPlan], [])), Optimise, None, true, 2),
                      Verified(VerifyFreshPlan, 2, true)]

  const LEAVING := Transition(Protect, 0, [CancelExport, WriteFallback], [])

  /** Leaving optimise: the export is cancelled, the fallback is not yet written. */
  lemma Leaving(storeId: nat, log: seq<Event>)
    ensures
      var before := Site(storeId, Optimise, None, 2, None);
      var after := Site(storeId, Optimise, None, 3, Some(Transition(Protect, 0, [WriteFallback], [WriteFallback])));
      Next(Running(before, log), Asking(Protect, Some(1), Clean)) ==
        Running(after,
              log + [Began(Some(LEAVING), Optimise, None, false, 3)] + [Verified(CancelExport, 3, true)])
  {
    var s := Site(storeId, Optimise, None, 2, None);
    var w := Running(s, log);
    var a := Asking(Protect, Some(1), Clean);
    var c := Site(storeId, Optimise, None, 3, Some(LEAVING));
    var began := Running(c, log + [Began(Some(LEAVING), Optimise, None, false, 3)]);
    assert AllApplied(w, []) == w;
    assert Proposed(s, a.request, ALL_MET) == Decision.Propose(c);
    OneStepDone(began, a.tries, 0, Clean);
    var left := Progress(c, true);
    assert left.transition.value.steps == [WriteFallback];
    OneStepFailed(Running(left, began.log + [Verified(CancelExport, 3, true)]), a.tries, 1, Clean);
  }

  /** A new session comes before the retry that writes the fallback. */
  lemma LeftUnderAnotherEpoch(storeId: nat, log: seq<Event>)
    ensures
      var before := Site(storeId, Optimise, None, 3, Some(Transition(Protect, 0, [WriteFallback], [WriteFallback])));
      Next(Next(Running(before, log), Alone(NewSession(7, Clean))), Retry(Tries(None), Clean)).log ==
        log + [Bumped(4)] + [Verified(WriteFallback, 4, true)] + [Committed(Protect, 4, 4)]
  {
    var s := Site(storeId, Optimise, None, 3, Some(Transition(Protect, 0, [WriteFallback], [WriteFallback])));
    var w := Running(s, log);
    var c := Site(storeId, Optimise, Some(7), 4, s.transition);
    var bumped := Running(c, log + [Bumped(4)]);
    assert Next(w, Alone(NewSession(7, Clean))) == bumped;
    OneStepDone(bumped, Tries(None), 0, Clean);
    var done := Progress(c, true);
    Finished(Running(done, bumped.log + [Verified(WriteFallback, 4, true)]), Tries(None), 1, Clean);
  }

  const UP_TO_CANCELLED :=
    OPTIMISED + [Committed(Optimise, 2, 2)] + [Began(Some(LEAVING), Optimise, None, false, 3)]
      + [Verified(CancelExport, 3, true)]

  /** The verdicts of one committed transition may span epochs: the export is cancelled
      under epoch 3, a new session bumps the epoch, and the fallback is written under 4. */
  lemma VerdictsMaySpanEpochs(storeId: nat)
    ensures
      var log := Run(Fresh(storeId), [
        Alone(Handle(true, true)), Asking(Optimise, None, Clean), Asking(Protect, Some(1), Clean),
        Alone(NewSession(7, Clean)), Retry(Tries(None), Clean)]).log;
      && log == UP_TO_CANCELLED + [Bumped(4)] + [Verified(WriteFallback, 4, true)] + [Committed(Protect, 4, 4)]
      && |log| == 8 && !UnderOneEpoch(log[..7])
  {
    FiveActions(Fresh(storeId), Alone(Handle(true, true)), Asking(Optimise, None, Clean),
                Asking(Protect, Some(1), Clean), Alone(NewSession(7, Clean)), Retry(Tries(None), Clean));
    Optimising(storeId, Clean);
    Leaving(storeId, OPTIMISED + [Committed(Optimise, 2, 2)]);
    LeftUnderAnotherEpoch(storeId, UP_TO_CANCELLED);
    SpansEpochs(UP_TO_CANCELLED, Committed(Protect, 4, 4));
  }

  lemma {:induction false} SpansEpochs(leaving: seq<Event>, commit: Event)
    requires |leaving| > 1 && leaving[|leaving| - 2] == Began(Some(LEAVING), Optimise, None, false, 3)
    requires leaving[|leaving| - 1] == Verified(CancelExport, 3, true)
    ensures
      var log := leaving + [Bumped(4)] + [Verified(WriteFallback, 4, true)] + [commit];
      |log| == |leaving| + 3 && !UnderOneEpoch(log[..|leaving| + 2])
  {
    var bumped := leaving + [Bumped(4)];
    var written := bumped + [Verified(WriteFallback, 4, true)];
    assert (written + [commit])[..|leaving| + 2] == written;
    assert written[..|bumped|] == bumped;
    assert bumped[..|leaving|] == leaving;
    assert LastBegun(leaving[..|leaving| - 1]) == Some(leaving[|leaving| - 2]);
    assert LastBegun(leaving) == LastBegun(leaving[..|leaving| - 1]);
  }

  /** With every step verified, a new session comes before the commit. */
  lemma CommittedLate(storeId: nat, log: seq<Event>)
    ensures
      var before := Site(storeId, Optimise, None, 2, Some(Transition(Optimise, 0, [], [])));
      Next(Next(Next(Unsaved(before, log), Alone(Reload)), Alone(NewSession(7, Clean))),
           Retry(Tries(None), Clean)).log == log + [Bumped(3)] + [Committed(Optimise, 3, 3)]
  {
    var s := Site(storeId, Optimise, None, 2, Some(Transition(Optimise, 0, [], [])));
    var c := Site(storeId, Optimise, Some(7), 3, s.transition);
    var bumped := Running(c, log + [Bumped(3)]);
    assert Next(Running(s, log), Alone(NewSession(7, Clean))) == bumped;
    Finished(bumped, Tries(None), 0, Clean);
  }

  /** A bump after the last verdict goes unseen by all of them: every verdict carries the
      proposal's epoch, and the disk has left it by the time of the commit. */
  lemma ABumpMayComeAfterTheVerdicts(storeId: nat)
    ensures
      var log := Run(Fresh(storeId), [
        Alone(Handle(true, true)), Asking(Optimise, None, FailsBefore), Alone(Reload),
        Alone(NewSession(7, Clean)), Retry(Tries(None), Clean)]).log;
      && log == OPTIMISED + [Bumped(3)] + [Committed(Optimise, 3, 3)]
      && |log| == 4 && UnderOneEpoch(log[..3]) && !Undisturbed(log[..3])
  {
    FiveActions(Fresh(storeId), Alone(Handle(true, true)), Asking(Optimise, None, FailsBefore), Alone(Reload),
                Alone(NewSession(7, Clean)), Retry(Tries(None), Clean));
    Optimising(storeId, FailsBefore);
    CommittedLate(storeId, OPTIMISED);
    BumpGoesUnseen(Committed(Optimise, 3, 3));
  }

  lemma BumpGoesUnseen(commit: Event)
    ensures
      var log := OPTIMISED + [Bumped(3)] + [commit];
      |log| == 4 && UnderOneEpoch(log[..3]) && !Undisturbed(log[..3])
  {
    var bumped := OPTIMISED + [Bumped(3)];
    assert (bumped + [commit])[..3] == bumped && bumped[..2] == OPTIMISED;
    assert OPTIMISED[..1] == [OPTIMISED[0]];
  }

  // ---------------------------------------------------------------- a new store

  /** A repair takes optimise off the disk with its export never cancelled, and the epoch
      back to 1: one save has to fail, and the confirmation is then offered. */
  lemma ARepairForgetsTheExport(storeId: nat, newId: nat)
    ensures
      var w := Run(Fresh(storeId), [
        Alone(Handle(true, true)), Asking(Optimise, None, Clean), Alone(NewSession(7, FailsBefore)),
        Alone(Confirm(newId, Clean, Clean)), Alone(Reload)]);
      && w.log == OPTIMISED + [Committed(Optimise, 2, 2)] + [NewStore(newId, 1)]
      && w.disk == NewAuthority(newId) && w.memory == Some(w.disk)
      && w.disk.mode == Observe && w.disk.epoch == 1 && !ExportEnded(w.log) && ReplacedSinceGrant(w.log)
  {
    FiveActions(Fresh(storeId), Alone(Handle(true, true)), Asking(Optimise, None, Clean),
                Alone(NewSession(7, FailsBefore)), Alone(Confirm(newId, Clean, Clean)), Alone(Reload));
    Optimising(storeId, Clean);
    Repaired(Site(storeId, Optimise, None, 2, None), OPTIMISED + [Committed(Optimise, 2, 2)], newId);
    NeverCancelled(newId);
  }

  /** A failed save, the confirmation offered after it, and a reload. */
  lemma Repaired(s: Authority, log: seq<Event>, newId: nat)
    requires s.session != Some(7)
    ensures
      var failed := Next(Running(s, log), Alone(NewSession(7, FailsBefore)));
      Next(Next(failed, Alone(Confirm(newId, Clean, Clean))), Alone(Reload))
        == Running(NewAuthority(newId), log + [NewStore(newId, 1)])
  {
  }

  lemma NeverCancelled(newId: nat)
    ensures
      var log := OPTIMISED + [Committed(Optimise, 2, 2)] + [NewStore(newId, 1)];
      !ExportEnded(log) && ReplacedSinceGrant(log)
  {
    var committed := OPTIMISED + [Committed(Optimise, 2, 2)];
    assert (committed + [NewStore(newId, 1)])[..3] == committed && committed[..2] == OPTIMISED;
    assert OPTIMISED[..1] == [OPTIMISED[0]];
    assert !ExportEnded(OPTIMISED[..1]);
    assert !ExportEnded(OPTIMISED);
    assert !ExportEnded(committed);
  }

  lemma {:induction false} NoNewStoreNoReplacement(log: seq<Event>)
    requires InOneStore(log)
    ensures !ReplacedSinceGrant(log)
    decreases |log|
  {
    if log != [] {
      NoNewStoreNoReplacement(log[..|log| - 1]);
    }
  }

  /** Where no repair and no handover put a new store in place, a mode other than optimise
      is on disk only after the export was verified cancelled since optimise was granted. */
  lemma UnreplacedMeansCancelled(storeId: nat, actions: seq<Action>)
    requires InOneStore(Run(Fresh(storeId), actions).log)
    ensures var w := Run(Fresh(storeId), actions); w.disk.mode != Optimise ==> ExportEnded(w.log)
  {
    CommittedMeansVerified(storeId, actions);
    NoNewStoreNoReplacement(Run(Fresh(storeId), actions).log);
  }
}
