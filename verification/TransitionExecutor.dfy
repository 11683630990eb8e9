/** The verified step machine: a transition's steps run in order against the device, each
    is dropped only once verified, and only then is the mode it leads to committed.

    The log records what became durable and what the device verified. A verdict is `held`
    when the transition it was asked for still stood as the device answered, and a commit
    carries the epoch on disk before and after it. A repair or a handover may put a new
    store over the old one at any time; that is logged too. */
module TransitionExecutor {
  import opened Basics
  import opened SiteAuthority
  import opened StoreReplacement
  import opened TransitionProposal

  datatype Event =
    | Began(transition: Option<Transition>, mode: Mode, manual: Option<Manual>, optimiseGranted: bool, epoch: nat)
    | Bumped(epoch: nat)
    | Verified(step: Step, epoch: nat, held: bool)
    | Committed(mode: Mode, before: nat, epoch: nat)
    | NewStore(storeId: nat, epoch: nat)

  /** `memory` is the published state, None once a save was not verified; `live` is a
      writer past its startup. */
  datatype World = World(
    disk: Authority, marker: SiteMarker, memory: Option<Authority>, saveFailed: bool,
    owned: bool, live: bool, log: seq<Event>)

  function KeptIn(w: World): Kept<Authority> {
    Kept(w.disk, w.disk.storeId, w.marker, w.memory, w.saveFailed)
  }

  function Keeping(w: World, k: Kept<Authority>): World {
    w.(disk := k.record, marker := k.marker, memory := k.memory, saveFailed := k.saveFailed)
  }

  predicate Loads(w: World) {
    Standing(w.disk.storeId, w.marker).StatusOk?
  }

  /** Save a candidate built from the published state. */
  function Saved(w: World, c: Authority, f: WriteFault, events: seq<Event>): (World, bool)
    requires w.memory.Some?
  {
    if !Loads(w) || w.disk.storeId != w.memory.value.storeId || c.storeId != w.disk.storeId
      then (w.(memory := None), false)
    else
      var v := if f == FailsBefore then w else w.(disk := c, log := w.log + events);
      (v.(memory := if f == Clean then Some(c) else None, saveFailed := f != Clean), f == Clean)
  }

  /** The record a repair or a handover starts from. */
  function NewAuthority(storeId: nat): Authority {
    Authority(storeId, Observe, None, 1, None, None, Fallback(false, {}), [], [])
  }

  /** Put it over the store, once nothing speaks against it. */
  function StoreReplaced(w: World, allowed: bool, id: nat, f1: WriteFault, f2: WriteFault): World {
    if !allowed then w
    else
      var v := Keeping(w, Overwritten(KeptIn(w), NewAuthority(id), id, f1, f2));
      if f1 == FailsBefore then v else v.(log := w.log + [NewStore(id, 1)])
  }

  /** Observe, nothing held and nothing in progress. */
  predicate IsSettled(s: Authority) {
    s.mode == Observe && s.holds == [] && s.transition.None? && s.manual.None?
  }

  // ---------------------------------------------------------------- single saves

  /** `Fence` is a failed save of the owner record, published here; `Confirm` is the repair
      offered after a failed save, `Retire` and `Initialise` are a handover out and back. */
  datatype Op =
    | SaveHolds(holds: seq<nat>, storeId: nat, epoch: nat, f: WriteFault)
    | SetFallback(fallback: Fallback, f: WriteFault)
    | NewSession(session: nat, f: WriteFault)
    | Propose(request: Request, report: Report, f: WriteFault)
    | Reload
    | Handle(owned: bool, live: bool)
    | Fence
    | Confirm(id: nat, f1: WriteFault, f2: WriteFault)
    | Retire(f: WriteFault)
    | Initialise(id: nat, f1: WriteFault, f2: WriteFault)

  predicate GrantsOptimise(s: Authority, r: Request) {
    r.target == To(Optimise) || (r.target == Resume && s.manual.Some? && s.manual.value.returnTo == Optimise)
  }

  /** A change of epoch that proposes nothing, as the log sees it. */
  function BumpEvents(s: Authority, c: Authority): seq<Event> {
    if c.epoch == s.epoch then [] else [Bumped(c.epoch)]
  }

  /** A proposal of a new mode or transition, as the log sees it. Moving the mode a manual
      session returns to is neither. */
  function BeginEvents(s: Authority, r: Request, c: Authority): seq<Event> {
    if s.manual.Some? && r.target.To? && r.target.mode != Observe then BumpEvents(s, c)
    else [Began(c.transition, c.mode, c.manual, GrantsOptimise(s, r), c.epoch)]
  }

  function Requested(w: World, r: Request, report: Report, f: WriteFault): (World, bool) {
    if !w.owned || w.memory.None? then (w, false)
    else
      var s := w.memory.value;
      match Proposed(s, r, report)
      case Propose(c) => Saved(w, c, f, BeginEvents(s, r, c))
      case _ => (w, false)
  }

  function WithFallback(s: Authority, fallback: Fallback): Authority {
    s.(fallback := fallback, epoch := s.epoch + (if fallback.active != s.fallback.active then 1 else 0),
       supervisions := if fallback.active then [] else s.supervisions)
  }

  function WithSession(s: Authority, session: nat): Authority {
    s.(session := Some(session), epoch := s.epoch + 1)
  }

  function Applied(w: World, op: Op): World {
    match op
    case SaveHolds(holds, storeId, epoch, f) =>
      if !w.owned || w.memory.None? || w.memory.value.epoch != epoch || w.memory.value.storeId != storeId
        || w.memory.value.holds == holds then w
      else Saved(w, w.memory.value.(holds := holds), f, []).0
    case SetFallback(fallback, f) =>
      if !w.owned || w.memory.None? then w
      else
        var c := WithFallback(w.memory.value, fallback);
        Saved(w, c, f, BumpEvents(w.memory.value, c)).0
    case NewSession(session, f) =>
      if !w.owned || w.memory.None? || w.memory.value.session == Some(session) then w
      else
        var c := WithSession(w.memory.value, session);
        Saved(w, c, f, BumpEvents(w.memory.value, c)).0
    case Propose(request, report, f) => Requested(w, request, report, f).0
    case Reload => Keeping(w, Restarted(KeptIn(w)))
    case Handle(owned, live) => w.(owned := owned, live := live)
    case Fence => w.(memory := None, saveFailed := true)
    case Confirm(id, f1, f2) => StoreReplaced(w, MayConfirm(w.disk.storeId, w.marker, w.saveFailed), id, f1, f2)
    case Retire(f) => Keeping(w, Retired(KeptIn(w), IsSettled(w.disk), f))
    case Initialise(id, f1, f2) =>
      StoreReplaced(w, MayInitialise(w.disk.storeId, w.marker, w.saveFailed), id, f1, f2)
  }

  function AllApplied(w: World, ops: seq<Op>): World
    decreases |ops|
  {
    if ops == [] then w else AllApplied(Applied(w, ops[0]), ops[1..])
  }

  // ---------------------------------------------------------------- advancing

  /** What one attempt at a step meets: everything saved while the device works, its
      verdict, and how the save of the progress ends. */
  datatype Attempt = Attempt(permitted: bool, during: seq<Op>, verified: bool, f: WriteFault)

  predicate NeedsGrace(s: Step) {
    s == VerifyFreshPlan || s == WriteFallback || s == CancelExport
  }

  function Logged(w: World, e: Event): World {
    w.(log := w.log + [e])
  }

  predicate SameTransition(a: Option<Authority>, s: Authority) {
    a.Some? && a.value.storeId == s.storeId && a.value.epoch == s.epoch && a.value.transition == s.transition
  }

  function Verdict(v: World, s: Authority): Event
    requires s.transition.Some? && s.transition.value.steps != []
  {
    Verified(s.transition.value.steps[0], s.epoch, v.owned && SameTransition(v.memory, s))
  }

  /** The device works on the first step while others save. */
  function Worked(w: World, s: Authority, a: Attempt): World
    requires s.transition.Some? && s.transition.value.steps != []
  {
    var v := AllApplied(w, a.during);
    if a.verified then Logged(v, Verdict(v, s)) else v
  }

  function Progress(current: Authority, verified: bool): Authority
    requires current.transition.Some? && current.transition.value.steps != []
  {
    var t := current.transition.value;
    current.(transition := Some(t.(
      steps := if verified then t.steps[1..] else t.steps, failing := if verified then [] else [t.steps[0]])))
  }

  function Finish(s: Authority): Authority
    requires s.transition.Some?
  {
    var ends := s.fallback.active && s.manual.None? && s.transition.value.target != Optimise;
    s.(mode := s.transition.value.target, transition := None,
       fallback := if ends then Fallback(false, {}) else s.fallback, epoch := s.epoch + (if ends then 1 else 0))
  }

  function Advanced(w: World, tries: nat -> Attempt, k: nat, final: WriteFault): World
    requires w.memory.Some? && w.memory.value.transition.Some?
    decreases |w.memory.value.transition.value.steps|
  {
    var s := w.memory.value;
    var steps := s.transition.value.steps;
    if steps == [] then
      var c := Finish(s);
      Saved(w, c, final, [Committed(c.mode, s.epoch, c.epoch)]).0
    else if !w.owned || (NeedsGrace(steps[0]) && !tries(k).permitted) then w
    else
      var v := Worked(w, s, tries(k));
      if !v.owned || !SameTransition(v.memory, s) then v
      else
        var (saved, ok) := Saved(v, Progress(v.memory.value, tries(k).verified), tries(k).f, []);
        if !ok || !tries(k).verified then saved else Advanced(saved, tries, k + 1, final)
  }

  function Retried(w: World, tries: nat -> Attempt, final: WriteFault): World {
    if !w.owned || w.memory.None? || w.memory.value.transition.None?
      || w.memory.value.mode == Observe || !w.live then w
    else Advanced(w, tries, 0, final)
  }

  /** A request waits for writes in flight, checks that nothing changed meanwhile, saves
      its proposal and carries it out. */
  function RequestedAndAdvanced(w: World, r: Request, report: Report, waiting: seq<Op>, f: WriteFault,
                                tries: nat -> Attempt, final: WriteFault): World
  {
    if !w.owned || w.memory.None? || !Proposed(w.memory.value, r, report).Propose? then w
    else
      var v := AllApplied(w, waiting);
      if !v.owned || v.memory != w.memory then v
      else
        var (saved, ok) := Requested(v, r, report, f);
        if !ok || (w.memory.value.manual.Some? && r.target.To? && r.target.mode != Observe) then saved
        else Retried(saved, tries, final)
  }

  datatype Action =
    | Alone(op: Op)
    | Retry(tries: nat -> Attempt, final: WriteFault)
    | Ask(request: Request, report: Report, waiting: seq<Op>, f: WriteFault, tries: nat -> Attempt, final: WriteFault)

  function Next(w: World, a: Action): World {
    match a
    case Alone(op) => Applied(w, op)
    case Retry(tries, final) => Retried(w, tries, final)
    case Ask(request, report, waiting, f, tries, final) =>
      RequestedAndAdvanced(w, request, report, waiting, f, tries, final)
  }

  function Run(w: World, actions: seq<Action>): World
    decreases |actions|
  {
    if actions == [] then w else Run(Next(w, actions[0]), actions[1..])
  }

  function Fresh(storeId: nat): World {
    var s := NewAuthority(storeId);
    World(s, Bound(storeId), Some(s), false, true, false, [])
  }

  // ---------------------------------------------------------------- what the log says

  /** The last proposal that became durable in the present store. */
  function LastBegun(log: seq<Event>): (e: Option<Event>)
    ensures e.Some? ==> e.value.Began?
    decreases |log|
  {
    if log == [] || log[|log| - 1].NewStore? then None
    else if log[|log| - 1].Began? then Some(log[|log| - 1]) else LastBegun(log[..|log| - 1])
  }

  /** What the device verified since then, in order: the verdict of a superseded step does
      not count. */
  function DoneSince(log: seq<Event>): seq<Step>
    decreases |log|
  {
    if log == [] || log[|log| - 1].Began? || log[|log| - 1].NewStore? then []
    else
      var before, e := DoneSince(log[..|log| - 1]), log[|log| - 1];
      if e.Verified? && e.held then before + [e.step] else before
  }

  /** Nothing was committed since then. */
  predicate Underway(log: seq<Event>)
    decreases |log|
  {
    if log == [] then false
    else
      var e := log[|log| - 1];
      e.Began? || (!e.Committed? && !e.NewStore? && Underway(log[..|log| - 1]))
  }

  /** `steps` is a subsequence of `done`. */
  predicate Embeds(steps: seq<Step>, done: seq<Step>)
    decreases |done|
  {
    if steps == [] then true
    else if done == [] then false
    else
      || (done[|done| - 1] == steps[|steps| - 1] && Embeds(steps[..|steps| - 1], done[..|done| - 1]))
      || Embeds(steps, done[..|done| - 1])
  }

  /** Every commit is the only one since the last proposal, and follows the whole of the
      transition it completes: all of its steps verified, in order. */
  predicate CommitsAreEarned(log: seq<Event>) {
    forall k :: 0 <= k < |log| && log[k].Committed? ==> Earned(log, k)
  }

  predicate Earned(log: seq<Event>, k: nat)
    requires k < |log| && log[k].Committed?
  {
    var begun := LastBegun(log[..k]);
    && Underway(log[..k]) && begun.Some? && begun.value.transition.Some?
    && begun.value.transition.value.target == log[k].mode
    && Embeds(begun.value.transition.value.steps, DoneSince(log[..k]))
  }

  /** The export was verified cancelled since optimise was last granted. */
  predicate ExportEnded(log: seq<Event>)
    decreases |log|
  {
    if log == [] then true
    else
      var e := log[|log| - 1];
      if e.Began? && e.optimiseGranted then false
      else (e.Verified? && e.held && e.step == CancelExport) || ExportEnded(log[..|log| - 1])
  }

  /** The store was replaced since optimise was last granted. */
  predicate ReplacedSinceGrant(log: seq<Event>)
    decreases |log|
  {
    if log == [] then false
    else
      var e := log[|log| - 1];
      e.NewStore? || (!(e.Began? && e.optimiseGranted) && ReplacedSinceGrant(log[..|log| - 1]))
  }

  predicate CancelPending(s: Authority) {
    s.transition.Some? && CancelExport in s.transition.value.steps
  }

  /** The steps left are the tail of the last proposal, and its head has been verified. */
  predicate OnCourse(s: Authority, log: seq<Event>) {
    s.transition.Some? ==>
      var begun := LastBegun(log);
      && Underway(log) && begun.Some? && begun.value.transition.Some?
      && begun.value.transition.value.target == s.transition.value.target
      && Tail(begun.value.transition.value.steps, s.transition.value.steps, DoneSince(log))
  }

  predicate Tail(all: seq<Step>, left: seq<Step>, done: seq<Step>) {
    && |left| <= |all| && left == all[|all| - |left|..]
    && Embeds(all[..|all| - |left|], done)
  }

  predicate ExportSafe(s: Authority, log: seq<Event>) {
    && (s.mode != Optimise ==> ExportEnded(log) || ReplacedSinceGrant(log))
    && (s.mode == Optimise && (s.manual.Some? || (s.transition.Some? && s.transition.value.target != Optimise)) ==>
        CancelPending(s) || ExportEnded(log))
    && (s.manual.Some? ==> s.mode != Observe && s.manual.value.returnTo != Observe)
    && (s.manual.Some? && s.transition.Some? ==> s.transition.value.target == s.mode)
    && (s.transition.Some? && s.transition.value.target == Optimise ==> s.mode == Optimise)
  }

  /** Every proposal asks for what its end rests on. */
  predicate AsksForRelease(log: seq<Event>) {
    forall k :: 0 <= k < |log| && log[k].Began? ==> Asks(log[k])
  }

  /** A transition to observe and a manual session without protection ask for the holds to
      be released; a manual session out of optimise, for the export to be cancelled. */
  predicate Asks(e: Event)
    requires e.Began?
  {
    && (e.transition.Some? && e.transition.value.target == Observe ==> AsksFor(e, ReleaseHolds))
    && (e.manual.Some? && !e.manual.value.keepProtection ==> AsksFor(e, ReleaseHolds))
    && (e.manual.Some? && e.mode == Optimise ==> AsksFor(e, CancelExport))
  }

  predicate AsksFor(e: Event, step: Step)
    requires e.Began?
  {
    e.transition.Some? && step in e.transition.value.steps
  }

  /** A manual session on disk is the one last begun, and once its transition is over every
      step of that was verified. */
  predicate SessionFollows(s: Authority, log: seq<Event>) {
    s.manual.Some? ==>
      var begun := LastBegun(log);
      && begun.Some? && begun.value.manual.Some?
      && s.manual.value.keepProtection == begun.value.manual.value.keepProtection
      && s.manual.value.deadline == begun.value.manual.value.deadline
      && (s.transition.None? && begun.value.transition.Some? ==>
            Embeds(begun.value.transition.value.steps, DoneSince(log)))
  }

  predicate Inv(w: World) {
    && CommitsAreEarned(w.log) && AsksForRelease(w.log)
    && OnCourse(w.disk, w.log) && ExportSafe(w.disk, w.log) && SessionFollows(w.disk, w.log)
    && Consistent(w)
  }

  /** What is published is what the store would load. */
  predicate Consistent(w: World) {
    w.memory.Some? ==> w.memory.value == w.disk && Loads(w) && !w.saveFailed
  }

  // ---------------------------------------------------------------- every run

  lemma EarlierCommits(log: seq<Event>, e: Event)
    requires CommitsAreEarned(log) && (e.Committed? ==> Earned(log + [e], |log|))
    ensures CommitsAreEarned(log + [e])
  {
    var g := log + [e];
    forall k | 0 <= k < |g| && g[k].Committed? ensures Earned(g, k) {
      if k < |log| {
        assert g[..k] == log[..k] && Earned(log, k);
      }
    }
  }

  lemma LogBegan(log: seq<Event>, e: Event)
    requires CommitsAreEarned(log) && e.Began?
    ensures CommitsAreEarned(log + [e]) && LastBegun(log + [e]) == Some(e) && DoneSince(log + [e]) == []
    ensures Underway(log + [e])
    ensures ExportEnded(log + [e]) == (!e.optimiseGranted && ExportEnded(log))
    ensures ReplacedSinceGrant(log + [e]) == (!e.optimiseGranted && ReplacedSinceGrant(log))
  {
    EarlierCommits(log, e);
    assert (log + [e])[..|log|] == log;
  }

  lemma LogVerified(log: seq<Event>, e: Event)
    requires CommitsAreEarned(log) && e.Verified?
    ensures CommitsAreEarned(log + [e])
    ensures LastBegun(log + [e]) == LastBegun(log) && Underway(log + [e]) == Underway(log)
    ensures DoneSince(log + [e]) == if e.held then DoneSince(log) + [e.step] else DoneSince(log)
    ensures ExportEnded(log + [e]) == ((e.held && e.step == CancelExport) || ExportEnded(log))
    ensures ReplacedSinceGrant(log + [e]) == ReplacedSinceGrant(log)
  {
    EarlierCommits(log, e);
    assert (log + [e])[..|log|] == log;
  }

  lemma LogBumped(log: seq<Event>, e: Event)
    requires CommitsAreEarned(log) && e.Bumped?
    ensures CommitsAreEarned(log + [e])
    ensures LastBegun(log + [e]) == LastBegun(log) && Underway(log + [e]) == Underway(log)
    ensures DoneSince(log + [e]) == DoneSince(log) && ExportEnded(log + [e]) == ExportEnded(log)
    ensures ReplacedSinceGrant(log + [e]) == ReplacedSinceGrant(log)
  {
    EarlierCommits(log, e);
    assert (log + [e])[..|log|] == log;
  }

  lemma LogCommitted(log: seq<Event>, e: Event)
    requires CommitsAreEarned(log) && e.Committed?
    requires
      && Underway(log) && LastBegun(log).Some? && LastBegun(log).value.transition.Some?
      && LastBegun(log).value.transition.value.target == e.mode
      && Embeds(LastBegun(log).value.transition.value.steps, DoneSince(log))
    ensures CommitsAreEarned(log + [e]) && ExportEnded(log + [e]) == ExportEnded(log)
    ensures ReplacedSinceGrant(log + [e]) == ReplacedSinceGrant(log)
  {
    assert (log + [e])[..|log|] == log;
    EarlierCommits(log, e);
  }

  lemma ReplacementKeeps(w: World, allowed: bool, id: nat, f1: WriteFault, f2: WriteFault)
    requires Inv(w)
    ensures Inv(StoreReplaced(w, allowed, id, f1, f2))
  {
    var e := NewStore(id, 1);
    EarlierCommits(w.log, e);
    assert (w.log + [e])[..|w.log|] == w.log;
  }

  lemma SavedKeeps(w: World, c: Authority, f: WriteFault, events: seq<Event>)
    requires Inv(w) && w.memory.Some? && c.storeId == w.disk.storeId
    requires CommitsAreEarned(w.log + events) && AsksForRelease(w.log + events)
    requires OnCourse(c, w.log + events) && ExportSafe(c, w.log + events) && SessionFollows(c, w.log + events)
    ensures
      var (v, ok) := Saved(w, c, f, events);
      Inv(v) && v.owned == w.owned && (ok ==> v.memory == Some(c) && v.disk == c)
  {
  }

  /** Saves that leave the mode, the transition and the manual session alone. */
  lemma SidewaysKeeps(w: World, c: Authority, f: WriteFault)
    requires Inv(w) && w.memory.Some? && c.storeId == w.disk.storeId
    requires (c.mode, c.transition, c.manual) == (w.disk.mode, w.disk.transition, w.disk.manual)
    ensures Inv(Saved(w, c, f, BumpEvents(w.disk, c)).0)
  {
    LogBump(w.log, w.disk, c);
    SavedKeeps(w, c, f, BumpEvents(w.disk, c));
  }

  lemma LogBump(log: seq<Event>, s: Authority, c: Authority)
    requires CommitsAreEarned(log)
    ensures
      var g := log + BumpEvents(s, c);
      && CommitsAreEarned(g) && (AsksForRelease(log) ==> AsksForRelease(g))
      && LastBegun(g) == LastBegun(log) && Underway(g) == Underway(log)
      && DoneSince(g) == DoneSince(log) && ExportEnded(g) == ExportEnded(log)
      && ReplacedSinceGrant(g) == ReplacedSinceGrant(log)
  {
    if c.epoch == s.epoch {
      assert log + [] == log;
    } else {
      LogBumped(log, Bumped(c.epoch));
    }
  }

  lemma RequestKeeps(w: World, r: Request, report: Report, f: WriteFault)
    requires Inv(w)
    ensures
      var (v, ok) := Requested(w, r, report, f);
      Inv(v) && (ok ==> v.memory == Some(v.disk))
  {
    if w.owned && w.memory.Some? && Proposed(w.memory.value, r, report).Propose? {
      var s := w.memory.value;
      var c := Proposed(s, r, report).state;
      ProposalKeeps(s, r, report, c, w.log);
      SavedKeeps(w, c, f, BeginEvents(s, r, c));
    }
  }

  lemma ProposalKeeps(s: Authority, r: Request, report: Report, c: Authority, log: seq<Event>)
    requires Proposed(s, r, report) == Decision.Propose(c)
    requires CommitsAreEarned(log) && OnCourse(s, log) && ExportSafe(s, log) && SessionFollows(s, log)
    ensures c.storeId == s.storeId && CommitsAreEarned(log + BeginEvents(s, r, c))
    ensures AsksForRelease(log) ==> AsksForRelease(log + BeginEvents(s, r, c))
    ensures OnCourse(c, log + BeginEvents(s, r, c)) && ExportSafe(c, log + BeginEvents(s, r, c))
    ensures SessionFollows(c, log + BeginEvents(s, r, c))
  {
    if s.manual.Some? && r.target.To? && r.target.mode != Observe {
      LogBump(log, s, c);
    } else {
      LogBegan(log, BeginEvents(s, r, c)[0]);
      BegunAsksForRelease(s, r, report, c);
      BegunOnCourse(s, r, report, c, log);
      BegunExportSafe(s, r, report, c, log);
      BegunSessionFollows(s, r, report, c, log);
    }
  }

  lemma BegunSessionFollows(s: Authority, r: Request, report: Report, c: Authority, log: seq<Event>)
    requires Proposed(s, r, report) == Decision.Propose(c)
    requires !(s.manual.Some? && r.target.To? && r.target.mode != Observe)
    requires CommitsAreEarned(log)
    ensures SessionFollows(c, log + BeginEvents(s, r, c))
  {
    LogBegan(log, BeginEvents(s, r, c)[0]);
  }

  /** What the log counts as a grant of optimise: a transition to it outside any manual
      session. */
  lemma GrantIsLoggedExactlyWhen(s: Authority, r: Request, report: Report, c: Authority)
    requires Proposed(s, r, report) == Decision.Propose(c)
    requires !(s.manual.Some? && r.target.To? && r.target.mode != Observe)
    ensures BeginEvents(s, r, c) == [Began(
      c.transition, c.mode, c.manual,
      c.manual.None? && c.transition.Some? && c.transition.value.target == Optimise, c.epoch)]
  {
  }

  lemma BegunOnCourse(s: Authority, r: Request, report: Report, c: Authority, log: seq<Event>)
    requires Proposed(s, r, report) == Decision.Propose(c)
    requires !(s.manual.Some? && r.target.To? && r.target.mode != Observe)
    requires CommitsAreEarned(log)
    ensures OnCourse(c, log + BeginEvents(s, r, c))
  {
    LogBegan(log, BeginEvents(s, r, c)[0]);
    if c.transition.Some? {
      var steps := c.transition.value.steps;
      assert steps[|steps| - |steps|..] == steps && steps[..|steps| - |steps|] == [];
    }
  }

  lemma BegunAsksForRelease(s: Authority, r: Request, report: Report, c: Authority)
    requires Proposed(s, r, report) == Decision.Propose(c)
    requires !(s.manual.Some? && r.target.To? && r.target.mode != Observe)
    requires s.manual.Some? ==> s.manual.value.returnTo != Observe
    ensures Asks(BeginEvents(s, r, c)[0])
  {
    if r.target == To(Observe) && c.transition.Some? {
      var steps := c.transition.value.steps;
      assert steps[|steps| - 1] == ReleaseHolds;
    } else if r.target.ToManual? {
      ManualAsksFor(s, r, report, c);
    }
  }

  lemma BegunExportSafe(s: Authority, r: Request, report: Report, c: Authority, log: seq<Event>)
    requires Proposed(s, r, report) == Decision.Propose(c)
    requires !(s.manual.Some? && r.target.To? && r.target.mode != Observe)
    requires CommitsAreEarned(log) && ExportSafe(s, log)
    ensures ExportSafe(c, log + BeginEvents(s, r, c))
  {
    LogBegan(log, BeginEvents(s, r, c)[0]);
  }

  lemma OpKeeps(w: World, op: Op)
    requires Inv(w)
    ensures Inv(Applied(w, op))
  {
    match op
    case Confirm(id, f1, f2) =>
      ReplacementKeeps(w, MayConfirm(w.disk.storeId, w.marker, w.saveFailed), id, f1, f2);
    case Initialise(id, f1, f2) =>
      ReplacementKeeps(w, MayInitialise(w.disk.storeId, w.marker, w.saveFailed), id, f1, f2);
    case _ => SaveKeeps(w, op);
  }

  lemma SaveKeeps(w: World, op: Op)
    requires Inv(w) && !op.Confirm? && !op.Initialise?
    ensures Inv(Applied(w, op))
  {
    if w.memory.Some? {
      var s := w.memory.value;
      match op
      case SaveHolds(holds, storeId, epoch, f) => SidewaysKeeps(w, s.(holds := holds), f);
      case SetFallback(fallback, f) =>
        SidewaysKeeps(w, WithFallback(s, fallback), f);
      case NewSession(session, f) => SidewaysKeeps(w, WithSession(s, session), f);
      case Propose(request, report, f) => RequestKeeps(w, request, report, f);
      case _ =>
    }
  }

  lemma {:induction false} OpsKeep(w: World, ops: seq<Op>)
    requires Inv(w)
    ensures Inv(AllApplied(w, ops))
    decreases |ops|
  {
    if ops != [] {
      OpKeeps(w, ops[0]);
      OpsKeep(Applied(w, ops[0]), ops[1..]);
    }
  }

  lemma VerdictKeeps(w: World, e: Event)
    requires Inv(w) && e.Verified?
    ensures Inv(Logged(w, e))
  {
    LogVerified(w.log, e);
    StillAsks(w.log, e);
    VerdictStaysOnCourse(w.disk, w.log, e);
    if w.disk.manual.Some? && LastBegun(w.log).value.transition.Some? {
      EmbedsStays(LastBegun(w.log).value.transition.value.steps, DoneSince(w.log), e.step);
    }
  }

  lemma EmbedsStays(steps: seq<Step>, done: seq<Step>, step: Step)
    ensures Embeds(steps, done) ==> Embeds(steps, done + [step])
  {
    assert (done + [step])[..|done|] == done;
  }

  lemma StillAsks(log: seq<Event>, e: Event)
    requires AsksForRelease(log) && !e.Began?
    ensures AsksForRelease(log + [e])
  {
  }

  lemma VerdictStaysOnCourse(s: Authority, log: seq<Event>, e: Event)
    requires CommitsAreEarned(log) && OnCourse(s, log) && e.Verified?
    ensures OnCourse(s, log + [e])
  {
    LogVerified(log, e);
    if s.transition.Some? && e.held {
      TailStays(LastBegun(log).value.transition.value.steps, s.transition.value.steps, DoneSince(log), e.step);
    }
  }

  lemma TailStays(all: seq<Step>, left: seq<Step>, done: seq<Step>, step: Step)
    requires Tail(all, left, done)
    ensures Tail(all, left, done + [step])
  {
    assert (done + [step])[..|done|] == done;
    assert Embeds(all[..|all| - |left|], done + [step]);
  }

  lemma TailDrops(all: seq<Step>, left: seq<Step>, done: seq<Step>)
    requires left != [] && Tail(all, left, done)
    ensures Tail(all, left[1..], done + [left[0]])
  {
    var n := |all| - |left|;
    assert all[..n + 1][..n] == all[..n] && all[..n + 1][n] == left[0];
    assert (done + [left[0]])[..|done|] == done;
    assert left[1..] == all[n + 1..];
  }

  lemma CancelStays(s: Authority, step: Step)
    requires CancelPending(s) && step == s.transition.value.steps[0] != CancelExport
    ensures CancelPending(Progress(s, true))
  {
    var left := s.transition.value.steps;
    var k :| 0 <= k < |left| && left[k] == CancelExport;
    assert left[1..][k - 1] == CancelExport;
  }

  /** Dropping a step right after the device verified it. */
  lemma DropKeeps(w: World, e: Event, c: Authority)
    requires Inv(w) && e.Verified? && w.disk.transition.Some? && w.disk.transition.value.steps != []
    requires e.step == w.disk.transition.value.steps[0] && e.held
    requires c == Progress(w.disk, true)
    ensures OnCourse(c, w.log + [e]) && ExportSafe(c, w.log + [e]) && SessionFollows(c, w.log + [e])
  {
    LogVerified(w.log, e);
    TailDrops(LastBegun(w.log).value.transition.value.steps, w.disk.transition.value.steps, DoneSince(w.log));
    if CancelPending(w.disk) && e.step != CancelExport {
      CancelStays(w.disk, e.step);
    }
  }

  lemma WorkKeeps(w: World, s: Authority, a: Attempt)
    requires Inv(w) && s.transition.Some? && s.transition.value.steps != []
    ensures
      var v := Worked(w, s, a);
      && Inv(v)
      && (v.owned && SameTransition(v.memory, s) ==>
          var c := Progress(v.memory.value, a.verified);
          OnCourse(c, v.log) && ExportSafe(c, v.log) && SessionFollows(c, v.log))
  {
    var before := AllApplied(w, a.during);
    var e := Verdict(before, s);
    OpsKeep(w, a.during);
    if a.verified {
      VerdictKeeps(before, e);
      if e.held {
        DropKeeps(before, e, Progress(before.disk, true));
      }
    }
  }

  /** One turn of the loop: the work on the first step, and the save of its progress. */
  lemma TurnKeeps(w: World, s: Authority, a: Attempt)
    requires Inv(w) && s.transition.Some? && s.transition.value.steps != []
    ensures
      var v := Worked(w, s, a);
      && Inv(v)
      && (v.owned && SameTransition(v.memory, s) ==>
          var c := Progress(v.memory.value, a.verified);
          var (saved, ok) := Saved(v, c, a.f, []);
          Inv(saved) && (ok ==> saved.memory == Some(c)))
  {
    var v := Worked(w, s, a);
    WorkKeeps(w, s, a);
    if v.owned && SameTransition(v.memory, s) {
      assert v.log + [] == v.log;
      SavedKeeps(v, Progress(v.memory.value, a.verified), a.f, []);
    }
  }

  lemma {:induction false} AdvanceKeeps(w: World, tries: nat -> Attempt, k: nat, final: WriteFault)
    requires Inv(w) && w.memory.Some? && w.memory.value.transition.Some?
    ensures Inv(Advanced(w, tries, k, final))
    decreases |w.memory.value.transition.value.steps|
  {
    var s := w.memory.value;
    var steps := s.transition.value.steps;
    if steps == [] {
      FinishKeeps(w, final);
    } else if w.owned && !(NeedsGrace(steps[0]) && !tries(k).permitted) {
      TurnKeeps(w, s, tries(k));
      var v := Worked(w, s, tries(k));
      if v.owned && SameTransition(v.memory, s) {
        var (saved, ok) := Saved(v, Progress(v.memory.value, tries(k).verified), tries(k).f, []);
        if ok && tries(k).verified {
          AdvanceKeeps(saved, tries, k + 1, final);
        }
      }
    }
  }

  lemma FinishKeeps(w: World, f: WriteFault)
    requires Inv(w) && w.memory.Some? && w.memory.value.transition.Some?
    requires w.memory.value.transition.value.steps == []
    ensures
      var s := w.memory.value;
      var c := Finish(s);
      Inv(Saved(w, c, f, [Committed(c.mode, s.epoch, c.epoch)]).0)
  {
    var s := w.memory.value;
    var c := Finish(s);
    var e := Committed(c.mode, s.epoch, c.epoch);
    var all := LastBegun(w.log).value.transition.value.steps;
    assert all[..|all| - 0] == all;
    LogCommitted(w.log, e);
    SavedKeeps(w, c, f, [e]);
  }

  lemma ActionKeeps(w: World, a: Action)
    requires Inv(w)
    ensures Inv(Next(w, a))
  {
    match a
    case Alone(op) => OpKeeps(w, op);
    case Retry(tries, final) => RetryKeeps(w, tries, final);
    case Ask(request, report, waiting, f, tries, final) =>
      if w.memory.Some? {
        OpsKeep(w, waiting);
        var v := AllApplied(w, waiting);
        RequestKeeps(v, request, report, f);
        RetryKeeps(Requested(v, request, report, f).0, tries, final);
      }
  }

  lemma RetryKeeps(w: World, tries: nat -> Attempt, final: WriteFault)
    requires Inv(w)
    ensures Inv(Retried(w, tries, final))
  {
    if w.memory.Some? && w.memory.value.transition.Some? {
      AdvanceKeeps(w, tries, 0, final);
    }
  }

  lemma {:induction false} RunKeepsInv(w: World, actions: seq<Action>)
    requires Inv(w)
    ensures Inv(Run(w, actions))
    decreases |actions|
  {
    if actions != [] {
      ActionKeeps(w, actions[0]);
      RunKeepsInv(Next(w, actions[0]), actions[1..]);
    }
  }

  /** Over every run of requests, retries, holds, fallbacks and sessions saved meanwhile,
      failed saves, repairs, handovers and reloads: a transition is committed only after
      every step of the last proposal was verified in order, and a mode other than optimise
      is on disk only if the export was verified cancelled since optimise was last granted,
      or the store was replaced since. What is committed here is the end of a
      transition: a grant may have saved the mode before, see `ModeIsTakenAtTheGrant`. */
  lemma CommittedMeansVerified(storeId: nat, actions: seq<Action>)
    ensures var w := Run(Fresh(storeId), actions); CommitsAreEarned(w.log) && ExportSafe(w.disk, w.log)
  {
    RunKeepsInv(Fresh(storeId), actions);
  }

  lemma {:induction false} EmbeddedStepIsDone(steps: seq<Step>, done: seq<Step>, step: Step)
    requires Embeds(steps, done) && step in steps
    ensures step in done
    decreases |done|
  {
    var last := |done| - 1;
    if done[last] == steps[|steps| - 1] && Embeds(steps[..|steps| - 1], done[..last]) {
      if step != done[last] {
        assert steps == steps[..|steps| - 1] + [steps[|steps| - 1]];
        EmbeddedStepIsDone(steps[..|steps| - 1], done[..last], step);
      }
    } else {
      EmbeddedStepIsDone(steps, done[..last], step);
    }
  }

  lemma {:induction false} LastBegunIsLogged(log: seq<Event>)
    ensures LastBegun(log).Some? ==> LastBegun(log).value in log
    decreases |log|
  {
    if log != [] && !log[|log| - 1].Began? {
      LastBegunIsLogged(log[..|log| - 1]);
    }
  }

  /** Observe is committed only once the device verified that its holds were released,
      since the request to leave. */
  lemma ObserveMeansReleased(storeId: nat, actions: seq<Action>, k: nat)
    requires var log := Run(Fresh(storeId), actions).log;
      k < |log| && log[k].Committed? && log[k].mode == Observe
    ensures ReleaseHolds in DoneSince(Run(Fresh(storeId), actions).log[..k])
  {
    var log := Run(Fresh(storeId), actions).log;
    RunKeepsInv(Fresh(storeId), actions);
    assert Earned(log, k);
    LastBegunIsLogged(log[..k]);
    EmbeddedStepIsDone(LastBegun(log[..k]).value.transition.value.steps, DoneSince(log[..k]), ReleaseHolds);
  }

  /** While a manual session is in force and no transition is left, the device verified since
      the session began that its holds were released, unless the owner kept the protection. */
  lemma UnprotectedManualMeansReleased(storeId: nat, actions: seq<Action>)
    requires var s := Run(Fresh(storeId), actions).disk;
      s.manual.Some? && !s.manual.value.keepProtection && s.transition.None?
    ensures ReleaseHolds in DoneSince(Run(Fresh(storeId), actions).log)
  {
    var w := Run(Fresh(storeId), actions);
    RunKeepsInv(Fresh(storeId), actions);
    LastBegunIsLogged(w.log);
    var begun := LastBegun(w.log).value;
    EmbeddedStepIsDone(begun.transition.value.steps, DoneSince(w.log), ReleaseHolds);
  }

  /** The transition of a manual session is committed only once the device verified all the
      session asks for: the release where the protection is not kept, and out of optimise
      the cancelled export. */
  lemma ManualIsCommittedLast(storeId: nat, actions: seq<Action>, k: nat)
    requires var log := Run(Fresh(storeId), actions).log;
      k < |log| && log[k].Committed? && LastBegun(log[..k]).Some? && LastBegun(log[..k]).value.manual.Some?
    ensures
      var log := Run(Fresh(storeId), actions).log;
      var begun := LastBegun(log[..k]).value;
      && (!begun.manual.value.keepProtection ==> ReleaseHolds in DoneSince(log[..k]))
      && (begun.mode == Optimise ==> CancelExport in DoneSince(log[..k]))
  {
    var log := Run(Fresh(storeId), actions).log;
    RunKeepsInv(Fresh(storeId), actions);
    assert Earned(log, k);
    LastBegunIsLogged(log[..k]);
    var begun := LastBegun(log[..k]).value;
    if !begun.manual.value.keepProtection {
      EmbeddedStepIsDone(begun.transition.value.steps, DoneSince(log[..k]), ReleaseHolds);
    }
    if begun.mode == Optimise {
      EmbeddedStepIsDone(begun.transition.value.steps, DoneSince(log[..k]), CancelExport);
    }
  }

  /** A step that fails stays at the head, named as the failing action: the attempt drops
      nothing, whatever is saved meanwhile. */
  lemma FailingStepStays(w: World, tries: nat -> Attempt, k: nat, final: WriteFault)
    requires Inv(w) && w.memory.Some? && w.memory.value.transition.Some?
    requires w.memory.value.transition.value.steps != [] && !tries(k).verified
    requires w.owned && tries(k).permitted
    ensures
      var before, after := AllApplied(w, tries(k).during).disk, Advanced(w, tries, k, final).disk;
      || after.transition == before.transition
      || (before.transition.Some? && before.transition.value.steps != []
          && after.transition == Some(before.transition.value.(failing := [before.transition.value.steps[0]])))
  {
    OpsKeep(w, tries(k).during);
  }

  // ---------------------------------------------------------------- the object

  class AuthorityControl {
    var disk: Authority
    var marker: SiteMarker
    var memory: Option<Authority>
    var saveFailed: bool
    var owned: bool
    var live: bool
    ghost var log: seq<Event>

    ghost function View(): World
      reads this
    {
      World(disk, marker, memory, saveFailed, owned, live, log)
    }

    constructor (storeId: nat)
      ensures View() == Fresh(storeId)
    {
      var s := NewAuthority(storeId);
      disk, marker, memory, saveFailed := s, Bound(storeId), Some(s), false;
      owned, live, log := true, false, [];
    }

    method Save(c: Authority, f: WriteFault, ghost events: seq<Event>) returns (ok: bool)
      requires memory.Some?
      modifies this
      ensures (View(), ok) == Saved(old(View()), c, f, events)
    {
      if marker != Bound(disk.storeId) || disk.storeId != memory.value.storeId || c.storeId != disk.storeId {
        memory := None;
        return false;
      }
      if f != FailsBefore {
        disk, log := c, log + events;
      }
      memory := if f == Clean then Some(c) else None;
      saveFailed := f != Clean;
      ok := f == Clean;
    }

    /** A new identity in observe, the store before its marker. */
    method FreshObserve(id: nat, f1: WriteFault, f2: WriteFault)
      modifies this
      ensures View() == StoreReplaced(old(View()), true, id, f1, f2)
    {
      memory, saveFailed := None, true;
      if f1 != FailsBefore {
        disk, log := NewAuthority(id), log + [NewStore(id, 1)];
      }
      if f1 == Clean && f2 != FailsBefore {
        marker := Bound(id);
      }
      if f1 == Clean && f2 == Clean {
        memory, saveFailed := Some(disk), false;
      }
    }

    method Request(r: Request, report: Report, f: WriteFault) returns (ok: bool)
      modifies this
      ensures (View(), ok) == Requested(old(View()), r, report, f)
    {
      if !owned || memory.None? {
        return false;
      }
      var decision := Proposed(memory.value, r, report);
      if !decision.Propose? {
        return false;
      }
      ok := Save(decision.state, f, BeginEvents(memory.value, r, decision.state));
    }

    method Apply(op: Op)
      modifies this
      ensures View() == Applied(old(View()), op)
    {
      match op
      case SaveHolds(holds, storeId, epoch, f) =>
        if owned && memory.Some? && memory.value.epoch == epoch && memory.value.storeId == storeId
          && memory.value.holds != holds
        {
          var _ := Save(memory.value.(holds := holds), f, []);
        }
      case SetFallback(fallback, f) =>
        if owned && memory.Some? {
          var s, supervisions, epoch := memory.value, memory.value.supervisions, memory.value.epoch;
          if fallback.active {
            supervisions := [];
          }
          if fallback.active != s.fallback.active {
            epoch := epoch + 1;
          }
          var c := s.(fallback := fallback, epoch := epoch, supervisions := supervisions);
          var _ := Save(c, f, BumpEvents(s, c));
        }
      case NewSession(session, f) =>
        if owned && memory.Some? && memory.value.session != Some(session) {
          var s := memory.value;
          var c := s.(session := Some(session), epoch := s.epoch + 1);
          var _ := Save(c, f, BumpEvents(s, c));
        }
      case Propose(request, report, f) =>
        var _ := Request(request, report, f);
      case Reload =>
        memory, saveFailed := if marker == Bound(disk.storeId) then Some(disk) else None, false;
      case Handle(o, l) =>
        owned, live := o, l;
      case Fence =>
        memory, saveFailed := None, true;
      case Confirm(id, f1, f2) =>
        if marker != Revoked(disk.storeId) && (marker != Bound(disk.storeId) || saveFailed) {
          FreshObserve(id, f1, f2);
        }
      case Retire(f) =>
        if marker == Bound(disk.storeId) && !saveFailed && IsSettled(disk) {
          if f != FailsBefore {
            marker := Revoked(disk.storeId);
          }
          memory, saveFailed := None, f != Clean;
        }
      case Initialise(id, f1, f2) =>
        if marker == Revoked(disk.storeId) && !saveFailed {
          FreshObserve(id, f1, f2);
        }
    }

    /** The device works while others save. */
    method Work(s: Authority, a: Attempt)
      requires s.transition.Some? && s.transition.value.steps != []
      modifies this
      ensures View() == Worked(old(View()), s, a)
    {
      ApplyAll(a.during);
      if a.verified {
        log := log + [Verdict(View(), s)];
      }
    }

    method ApplyAll(ops: seq<Op>)
      modifies this
      ensures View() == AllApplied(old(View()), ops)
    {
      var k := 0;
      while k < |ops|
        invariant k <= |ops|
        invariant AllApplied(View(), ops[k..]) == AllApplied(old(View()), ops)
      {
        assert ops[k..][1..] == ops[k + 1..];
        Apply(ops[k]);
        k := k + 1;
      }
    }

    method Advance(tries: nat -> Attempt, final: WriteFault)
      modifies this
      ensures View() == Retried(old(View()), tries, final)
    {
      if !owned || memory.None? || memory.value.transition.None? || memory.value.mode == Observe || !live {
        return;
      }
      var s, k := memory.value, 0;
      while s.transition.value.steps != []
        invariant memory == Some(s) && s.transition.Some?
        invariant Advanced(View(), tries, k, final) == Retried(old(View()), tries, final)
        decreases |s.transition.value.steps|
      {
        if !owned || (NeedsGrace(s.transition.value.steps[0]) && !tries(k).permitted) {
          return;
        }
        ghost var pending := s.transition.value.steps;
        Work(s, tries(k));
        if !owned || !SameTransition(memory, s) {
          return;
        }
        s := Progress(memory.value, tries(k).verified);
        var ok := Save(s, tries(k).f, []);
        if !ok || !tries(k).verified {
          return;
        }
        assert s.transition.value.steps == pending[1..];
        k := k + 1;
      }
      var c := Finish(s);
      var _ := Save(c, final, [Committed(c.mode, s.epoch, c.epoch)]);
    }
  }
}
