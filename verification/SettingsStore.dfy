/** The settings service's durable pair: configuration and secrets, each a file with
    its own revision, swapped by two renames and backed up by two hard links.

    Every commit is a list of atomic file effects. An attempt may stop after any
    number of them, with an error while the process lives on, or with the process
    itself; the next load reads whatever is there. */
module SettingsStore {
  import opened Basics

  type Body = map<string, string>

  /** One file of the pair. A damaged file may still show a readable revision. */
  datatype Half = Missing | Damaged(claimed: nat) | Sound(rev: nat, body: Body)

  datatype Disk = Disk(
    config: Half, secrets: Half,
    configPrev: Half, secretsPrev: Half,
    initialised: bool)

  /** Both halves of one revision, as committed together. */
  datatype Commit = Commit(rev: nat, inputs: Body, secrets: Body)

  datatype PairRead = Pair(commit: Commit) | Mismatch | Broken

  datatype LoadRead = Loaded(commit: Commit, recover: bool) | Repair | Unseeded

  datatype Effect =
    | DropConfig | DropSecrets | DropConfigPrev | DropSecretsPrev
    | LinkConfig | LinkSecrets | SwapSecrets | SwapConfig | Mark

  function ReadPair(config: Half, secrets: Half): PairRead {
    if !config.Sound? || !secrets.Sound? || config.rev < 1 || secrets.rev < 1 then Broken
    else if config.rev != secrets.rev then Mismatch
    else Pair(Commit(config.rev, config.body, secrets.body))
  }

  /** A mismatched pair falls back to the previous one; anything else broken is repair. */
  function ReadLoad(d: Disk): LoadRead {
    if !d.initialised then Unseeded
    else
      match ReadPair(d.config, d.secrets)
      case Pair(c) => Loaded(c, false)
      case Broken => Repair
      case Mismatch =>
        var previous := ReadPair(d.configPrev, d.secretsPrev);
        if previous.Pair? then Loaded(previous.commit, true) else Repair
  }

  function Apply(d: Disk, e: Effect, c: Commit): Disk {
    match e
    case DropConfig => d.(config := Missing)
    case DropSecrets => d.(secrets := Missing)
    case DropConfigPrev => d.(configPrev := Missing)
    case DropSecretsPrev => d.(secretsPrev := Missing)
    case LinkConfig => d.(configPrev := d.config)
    case LinkSecrets => d.(secretsPrev := d.secrets)
    case SwapSecrets => d.(secrets := Sound(c.rev, c.secrets))
    case SwapConfig => d.(config := Sound(c.rev, c.inputs))
    case Mark => d.(initialised := true)
  }

  function ApplyAll(d: Disk, es: seq<Effect>, c: Commit): Disk
    decreases |es|
  {
    if es == [] then d else ApplyAll(Apply(d, es[0], c), es[1..], c)
  }

  const SWAPS: seq<Effect> := [SwapSecrets, SwapConfig]
  const BACKED_UP_SWAPS: seq<Effect> :=
    [DropConfigPrev, LinkConfig, DropSecretsPrev, LinkSecrets, SwapSecrets, SwapConfig]
  const REPAIR_SWAPS: seq<Effect> := [DropConfigPrev, DropSecretsPrev, SwapSecrets, SwapConfig, Mark]
  const SEED: seq<Effect> :=
    [DropConfig, DropSecrets, DropConfigPrev, DropSecretsPrev, SwapSecrets, SwapConfig, Mark]

  /** How an attempt ends: every effect and no error, or an error after some of them. */
  datatype Outcome = Completes | StopsAfter(done: nat)

  function Reached(es: seq<Effect>, o: Outcome): nat
    ensures Reached(es, o) <= |es|
  {
    if o.Completes? || o.done >= |es| then |es| else o.done
  }

  function Attempt(d: Disk, es: seq<Effect>, c: Commit, o: Outcome): Disk {
    ApplyAll(d, es[..Reached(es, o)], c)
  }

  // ---------------------------------------------------------------- the service

  /** The process: what it published, and the fence a failed save leaves. */
  datatype Process = Running(commit: Commit, saveFailed: bool) | InRepair(failed: bool) | Down

  /** The history a reader could have kept: the commit last acknowledged (or last
      loaded), and the one attempted since without an answer. */
  datatype Service = Service(disk: Disk, process: Process, settled: Commit, attempted: Option<Commit>)

  datatype Step =
    | Save(expected: nat, inputs: Body, secrets: Body, save: Outcome)
    | Start(inputs: Body, secrets: Body, recovery: Outcome)
    | Import(inputs: Body, secrets: Body, repair: Outcome)

  function NewestRevision(d: Disk): nat {
    Newer(Newer(RevisionOf(d.config), RevisionOf(d.secrets)),
          Newer(RevisionOf(d.configPrev), RevisionOf(d.secretsPrev)))
  }

  function RevisionOf(h: Half): nat {
    match h
    case Missing => 0
    case Damaged(r) => r
    case Sound(r, _) => r
  }

  function Newer(a: nat, b: nat): nat {
    if a < b then b else a
  }

  /** A save is taken only by a running, unfenced process, and only from a caller that has
      seen the current revision. */
  predicate TakesSave(p: Process, expected: nat) {
    p.Running? && !p.saveFailed && expected == p.commit.rev
  }

  /** What one save leaves on disk and in the process. */
  function SaveOutcome(d: Disk, p: Process, expected: nat, inputs: Body, secrets: Body, o: Outcome): (Disk, Process) {
    if !TakesSave(p, expected) then (d, p)
    else
      var next := Commit(p.commit.rev + 1, inputs, secrets);
      (Attempt(d, BACKED_UP_SWAPS, next, o),
       if o.Completes? then Running(next, false) else Running(p.commit, true))
  }

  function Saved(s: Service, expected: nat, inputs: Body, secrets: Body, o: Outcome): Service {
    var (disk, process) := SaveOutcome(s.disk, s.process, expected, inputs, secrets, o);
    if !TakesSave(s.process, expected) then s
    else
      var next := Commit(s.process.commit.rev + 1, inputs, secrets);
      if o.Completes? then Service(disk, process, next, None)
      else Service(disk, process, s.settled, Some(next))
  }

  /** A new process: seed once, read, and finish an interrupted commit backwards. */
  function StartOutcome(d: Disk, seed: Commit, o: Outcome): (Disk, Process) {
    match ReadLoad(d)
    case Unseeded => (Attempt(d, SEED, seed, o), if o.Completes? then Running(seed, false) else Down)
    case Repair => (d, InRepair(false))
    case Loaded(c, recover) =>
      if !recover then (d, Running(c, false))
      else (Attempt(d, SWAPS, c, o), if o.Completes? then Running(c, false) else Down)
  }

  function Started(s: Service, seed: Commit, o: Outcome): Service {
    var (disk, process) := StartOutcome(s.disk, seed, o);
    if process.Running? then Service(disk, process, process.commit, None)
    else if ReadLoad(s.disk).Unseeded? then Service(disk, process, seed, None)
    else s.(disk := disk, process := process)
  }

  /** The one write repair accepts, numbered above every revision still readable. */
  function ImportOutcome(d: Disk, p: Process, inputs: Body, secrets: Body, o: Outcome): (Disk, Process) {
    if !p.InRepair? || p.failed then (d, p)
    else
      var next := Commit(1 + NewestRevision(d), inputs, secrets);
      (Attempt(d, REPAIR_SWAPS, next, o), if o.Completes? then Running(next, false) else InRepair(true))
  }

  function Imported(s: Service, inputs: Body, secrets: Body, o: Outcome): Service {
    var (disk, process) := ImportOutcome(s.disk, s.process, inputs, secrets, o);
    if !s.process.InRepair? || s.process.failed then s
    else if process.Running? then Service(disk, process, process.commit, None)
    else s.(disk := disk, process := process, attempted := Some(Commit(1 + NewestRevision(s.disk), inputs, secrets)))
  }

  function Next(s: Service, step: Step): Service {
    match step
    case Save(expected, inputs, secrets, o) => Saved(s, expected, inputs, secrets, o)
    case Start(inputs, secrets, o) => Started(s, Commit(1, inputs, secrets), o)
    case Import(inputs, secrets, o) => Imported(s, inputs, secrets, o)
  }

  function Run(s: Service, steps: seq<Step>): Service
    decreases |steps|
  {
    if steps == [] then s else Run(Next(s, steps[0]), steps[1..])
  }

  /** A run is its steps, one after the other. */
  lemma {:induction false} RunTakesEachStep(s: Service, steps: seq<Step>, last: Step)
    ensures Run(s, steps + [last]) == Next(Run(s, steps), last)
    decreases |steps|
  {
    if steps == [] {
      assert [last][1..] == [];
    } else {
      assert (steps + [last])[1..] == steps[1..] + [last];
      RunTakesEachStep(Next(s, steps[0]), steps[1..], last);
    }
  }

  // ---------------------------------------------------------------- crash atomicity

  predicate Holds(config: Half, secrets: Half, c: Commit) {
    config == Sound(c.rev, c.inputs) && secrets == Sound(c.rev, c.secrets)
  }

  /** The three places a pair can rest between its last commit and the next. */
  predicate Between(d: Disk, settled: Commit, next: Commit) {
    || Holds(d.config, d.secrets, settled)
    || Holds(d.config, d.secrets, next)
    || (d.config == Sound(settled.rev, settled.inputs) && d.secrets == Sound(next.rev, next.secrets)
        && Holds(d.configPrev, d.secretsPrev, settled))
  }

  predicate Inv(s: Service) {
    && s.settled.rev >= 1
    && (s.attempted.Some? ==> s.attempted.value.rev == s.settled.rev + 1)
    && !s.process.InRepair?
    && (s.process.Running? ==> s.disk.initialised && s.process.commit == s.settled)
    && (s.process.Running? && !s.process.saveFailed ==>
        Holds(s.disk.config, s.disk.secrets, s.settled) && s.attempted.None?)
    && (s.disk.initialised ==>
        if s.attempted.Some? then Between(s.disk, s.settled, s.attempted.value)
        else Holds(s.disk.config, s.disk.secrets, s.settled))
  }

  /** A load yields a commit only from two sound halves of its revision: the current pair,
      or the previous one behind a current pair of two revisions. */
  lemma LoadedExactlyWhen(d: Disk, c: Commit)
    ensures ReadLoad(d) == Loaded(c, false) <==> d.initialised && Holds(d.config, d.secrets, c) && c.rev >= 1
    ensures ReadLoad(d) == Loaded(c, true) <==>
      && d.initialised && d.config.Sound? && d.secrets.Sound?
      && d.config.rev >= 1 && d.secrets.rev >= 1 && d.config.rev != d.secrets.rev
      && Holds(d.configPrev, d.secretsPrev, c) && c.rev >= 1
    ensures ReadLoad(d) == Unseeded <==> !d.initialised
  {
  }

  /** Only a caller that has seen the running revision is answered by a save, and only an
      unfailed repair by an import; anything else changes nothing. */
  lemma RefusedChangesNothing(s: Service, step: Step)
    ensures step.Save? && (!s.process.Running? || s.process.saveFailed || step.expected != s.process.commit.rev) ==>
      Next(s, step) == s
    ensures step.Import? && (!s.process.InRepair? || s.process.failed) ==> Next(s, step) == s
  {
  }

  /** Of two saves that expect the same revision the second changes nothing. */
  lemma NoUpdateIsLost(s: Service, first: Step, second: Step)
    requires first.Save? && second.Save? && first.expected == second.expected && Next(s, first) != s
    ensures Next(Next(s, first), second) == Next(s, first)
  {
  }

  /** The service keeps what its step left on disk and in the process. */
  lemma ServiceKeepsOutcome(s: Service, step: Step)
    ensures
      var v := Next(s, step);
      (v.disk, v.process) == match step {
        case Save(expected, inputs, secrets, o) => SaveOutcome(s.disk, s.process, expected, inputs, secrets, o)
        case Start(inputs, secrets, o) => StartOutcome(s.disk, Commit(1, inputs, secrets), o)
        case Import(inputs, secrets, o) => ImportOutcome(s.disk, s.process, inputs, secrets, o)
      }
  {
  }

  lemma ApplyOne(d: Disk, es: seq<Effect>, n: nat, c: Commit)
    requires n < |es|
    ensures ApplyAll(d, es[..n + 1], c) == Apply(ApplyAll(d, es[..n], c), es[n], c)
    decreases n
  {
    assert es[..n + 1][0] == es[0] && es[..n + 1][1..] == es[1..][..n];
    if n > 0 {
      assert es[..n][0] == es[0] && es[..n][1..] == es[1..][..n - 1];
      ApplyOne(Apply(d, es[0], c), es[1..], n - 1, c);
    }
  }

  /** The disk after each further effect of a short list. */
  lemma Unrolled(d: Disk, es: seq<Effect>, c: Commit)
    ensures ApplyAll(d, es[..0], c) == d
    ensures forall n {:trigger es[..n]} :: 0 < n <= |es| ==>
      ApplyAll(d, es[..n], c) == Apply(ApplyAll(d, es[..n - 1], c), es[n - 1], c)
  {
    forall n {:trigger es[..n]} | 0 < n <= |es|
      ensures ApplyAll(d, es[..n], c) == Apply(ApplyAll(d, es[..n - 1], c), es[n - 1], c)
    {
      ApplyOne(d, es, n - 1, c);
    }
  }

  lemma BackedUpSaveRests(d: Disk, settled: Commit, next: Commit, o: Outcome)
    requires Holds(d.config, d.secrets, settled) && d.initialised
    ensures
      var e := Attempt(d, BACKED_UP_SWAPS, next, o);
      && Between(e, settled, next) && e.initialised
      && (o.Completes? ==> Holds(e.config, e.secrets, next) && Holds(e.configPrev, e.secretsPrev, settled))
  {
    Unrolled(d, BACKED_UP_SWAPS, next);
  }

  lemma RecoveryRests(d: Disk, settled: Commit, next: Commit, o: Outcome)
    requires Between(d, settled, next) && d.initialised && settled.rev >= 1 && next.rev == settled.rev + 1
    requires ReadLoad(d) == Loaded(settled, true)
    ensures
      var e := Attempt(d, SWAPS, settled, o);
      Between(e, settled, next) && e.initialised && (o.Completes? ==> Holds(e.config, e.secrets, settled))
  {
    Unrolled(d, SWAPS, settled);
  }

  lemma SeedRests(d: Disk, seed: Commit, o: Outcome)
    requires !d.initialised
    ensures
      var e := Attempt(d, SEED, seed, o);
      (e.initialised ==> Holds(e.config, e.secrets, seed)) && (o.Completes? ==> e.initialised)
  {
    Unrolled(d, SEED, seed);
  }

  /** What any load of a resting pair returns. */
  lemma LoadOfRestingPair(d: Disk, settled: Commit, next: Commit)
    requires Between(d, settled, next) && d.initialised && settled.rev >= 1 && next.rev == settled.rev + 1
    ensures ReadLoad(d) in {Loaded(settled, false), Loaded(settled, true), Loaded(next, false)}
  {
  }

  lemma StepKeepsInv(s: Service, step: Step)
    requires Inv(s)
    ensures Inv(Next(s, step))
  {
    match step
    case Save(expected, inputs, secrets, o) =>
      if TakesSave(s.process, expected) {
        BackedUpSaveRests(s.disk, s.settled, Commit(s.settled.rev + 1, inputs, secrets), o);
      }
    case Start(inputs, secrets, o) =>
      if !s.disk.initialised {
        SeedRests(s.disk, Commit(1, inputs, secrets), o);
      } else if s.attempted.Some? {
        LoadOfRestingPair(s.disk, s.settled, s.attempted.value);
        if ReadLoad(s.disk) == Loaded(s.settled, true) {
          RecoveryRests(s.disk, s.settled, s.attempted.value, o);
        }
      }
    case Import(_, _, _) =>
  }

  lemma {:induction false} RunKeepsInv(s: Service, steps: seq<Step>)
    requires Inv(s)
    ensures Inv(Run(s, steps))
    decreases |steps|
  {
    if steps != [] {
      StepKeepsInv(s, steps[0]);
      RunKeepsInv(Next(s, steps[0]), steps[1..]);
    }
  }

  /** A store that was never seeded, whatever debris is on its disk. */
  function NeverSeeded(d: Disk): Service {
    Service(d.(initialised := false), Down, Commit(1, map[], map[]), None)
  }

  /** Crash atomicity over every run from the first start: once seeded, a load never
      needs repair and never mixes commits. It yields both halves of the commit last
      acknowledged, or of the one attempted since. */
  lemma LoadsOneWholeCommit(d: Disk, steps: seq<Step>)
    ensures
      var s := Run(NeverSeeded(d), steps);
      s.disk.initialised ==>
        && ReadLoad(s.disk).Loaded?
        && (ReadLoad(s.disk).commit == s.settled || Some(ReadLoad(s.disk).commit) == s.attempted)
        && (s.process.Running? && !s.process.saveFailed ==> ReadLoad(s.disk) == Loaded(s.settled, false))
  {
    RunKeepsInv(NeverSeeded(d), steps);
    var s := Run(NeverSeeded(d), steps);
    if s.disk.initialised && s.attempted.Some? {
      LoadOfRestingPair(s.disk, s.settled, s.attempted.value);
    }
  }

  /** An acknowledged save is what the next start publishes, wherever it stops first. */
  lemma AcknowledgedSaveSurvives(s: Service, inputs: Body, secrets: Body, start: Step)
    requires Inv(s) && s.process.Running? && !s.process.saveFailed && start.Start?
    ensures
      var saved := Next(s, Save(s.settled.rev, inputs, secrets, Completes));
      var c := Commit(s.process.commit.rev + 1, inputs, secrets);
      saved.process == Running(c, false) && Next(saved, start).process == Running(c, false)
  {
    StepKeepsInv(s, Save(s.settled.rev, inputs, secrets, Completes));
  }

  /** A start that is not cut short serves a whole commit, and the next load is of that
      commit without any recovery: what was loaded, or the seed of a store never seeded.
      Only a disk no load accepts is left for repair, untouched. */
  lemma CompletedStartServes(d: Disk, seed: Commit)
    requires seed.rev >= 1
    ensures
      var (disk, process) := StartOutcome(d, seed, Completes);
      match ReadLoad(d) {
        case Repair => disk == d && process == InRepair(false)
        case Unseeded => process == Running(seed, false) && ReadLoad(disk) == Loaded(seed, false)
        case Loaded(c, _) => process == Running(c, false) && ReadLoad(disk) == Loaded(c, false)
      }
  {
    Unrolled(d, SEED, seed);
    if ReadLoad(d).Loaded? {
      Unrolled(d, SWAPS, ReadLoad(d).commit);
    }
  }

  /** A start that is cut short serves nothing, unless it had nothing to write. */
  lemma InterruptedStartServesNothing(d: Disk, seed: Commit, done: nat)
    ensures
      var (disk, process) := StartOutcome(d, seed, StopsAfter(done));
      match ReadLoad(d) {
        case Repair => disk == d && process == InRepair(false)
        case Unseeded => process == Down
        case Loaded(c, recover) => if recover then process == Down else disk == d && process == Running(c, false)
      }
  {
  }

  // ---------------------------------------------------------------- the fence

  /** The same save with the fence ignored. */
  function Unfenced(s: Service): Service {
    if s.process.Running? then s.(process := s.process.(saveFailed := false)) else s
  }

  /** Why a failed save fences the process: one more save, numbered the same, can leave
      halves of two different commits that a load takes for one. */
  lemma WithoutTheFenceHalvesMix(s: Service, first: Body, second: Body, other: Body)
    requires Inv(s) && s.process.Running? && !s.process.saveFailed && first != second
    ensures
      var failed := Next(s, Save(s.settled.rev, first, other, StopsAfter(6)));
      var again := Next(Unfenced(failed), Save(s.settled.rev, second, second, StopsAfter(5)));
      && ReadLoad(again.disk) == Loaded(Commit(s.settled.rev + 1, first, second), false)
      && again.attempted == Some(Commit(s.settled.rev + 1, second, second))
      && Next(failed, Save(s.settled.rev, second, second, StopsAfter(5))) == failed
  {
    var one := Commit(s.settled.rev + 1, first, other);
    var two := Commit(s.settled.rev + 1, second, second);
    Unrolled(s.disk, BACKED_UP_SWAPS, one);
    var d := Attempt(s.disk, BACKED_UP_SWAPS, one, StopsAfter(6));
    Unrolled(d, BACKED_UP_SWAPS, two);
  }

  /** Why the links come first: a swap without them, interrupted between its renames,
      leaves nothing a load accepts. */
  lemma WithoutTheBackupThePairIsLost(d: Disk, settled: Commit, next: Commit)
    requires Holds(d.config, d.secrets, settled) && d.initialised && settled.rev >= 1
    requires next.rev == settled.rev + 1 && ReadPair(d.configPrev, d.secretsPrev).Broken?
    ensures ReadLoad(Attempt(d, SWAPS, next, StopsAfter(1))) == Repair
  {
    Unrolled(d, SWAPS, next);
  }

  // ---------------------------------------------------------------- repair

  /** An import is numbered above every revision that any file still shows. */
  lemma ImportIsNewest(d: Disk, inputs: Body, secrets: Body, o: Outcome)
    requires o == Completes
    ensures
      var process := ImportOutcome(d, InRepair(false), inputs, secrets, o).1;
      process.Running? && forall h :: h in {d.config, d.secrets, d.configPrev, d.secretsPrev} ==>
        && (h.Sound? ==> h.rev < process.commit.rev) && (h.Damaged? ==> h.claimed < process.commit.rev)
    ensures
      var rev := ImportOutcome(d, InRepair(false), inputs, secrets, o).1.commit.rev;
      rev > 1 ==> exists h :: h in {d.config, d.secrets, d.configPrev, d.secretsPrev} && RevisionOf(h) == rev - 1
  {
  }

  /** What each further effect of a seed leaves of the debris it found. */
  lemma AfterSeedEffects(d: Disk, seed: Commit, n: nat)
    requires n <= |SEED|
    ensures ApplyAll(d, SEED[..n], seed) == Disk(
      if n >= 6 then Sound(seed.rev, seed.inputs) else if n >= 1 then Missing else d.config,
      if n >= 5 then Sound(seed.rev, seed.secrets) else if n >= 2 then Missing else d.secrets,
      if n >= 3 then Missing else d.configPrev,
      if n >= 4 then Missing else d.secretsPrev,
      n == 7 || d.initialised)
  {
    if n > 0 {
      AfterSeedEffects(d, seed, n - 1);
      ApplyOne(d, SEED, n - 1, seed);
    }
  }

  lemma AfterRepairEffects(d: Disk, next: Commit, n: nat)
    requires n <= |REPAIR_SWAPS|
    ensures ApplyAll(d, REPAIR_SWAPS[..n], next) == Disk(
      if n >= 4 then Sound(next.rev, next.inputs) else d.config,
      if n >= 3 then Sound(next.rev, next.secrets) else d.secrets,
      if n >= 1 then Missing else d.configPrev,
      if n >= 2 then Missing else d.secretsPrev,
      n == 5 || d.initialised)
  {
    if n > 0 {
      AfterRepairEffects(d, next, n - 1);
      ApplyOne(d, REPAIR_SWAPS, n - 1, next);
    }
  }

  /** From any broken disk, an import that stops anywhere leaves repair or the whole
      imported commit, and completes to that commit. */
  lemma RepairImportNeverMixes(s: Service, inputs: Body, secrets: Body, o: Outcome)
    requires s.process == InRepair(false) && ReadLoad(s.disk) == Repair
    ensures
      var next := Commit(1 + NewestRevision(s.disk), inputs, secrets);
      var t := Next(s, Import(inputs, secrets, o));
      && (ReadLoad(t.disk) == Repair || ReadLoad(t.disk) == Loaded(next, false))
      && (o.Completes? ==> ReadLoad(t.disk) == Loaded(next, false) && t.process == Running(next, false))
      && (!o.Completes? ==> t.process == InRepair(true))
  {
    var next := Commit(1 + NewestRevision(s.disk), inputs, secrets);
    AfterRepairEffects(s.disk, next, Reached(REPAIR_SWAPS, o));
  }

  /** What happens to an installation: a step of the service, or damage from outside that
      leaves a disk no load accepts, seen by the process that starts next. */
  datatype Event = Takes(step: Step) | Damage(disk: Disk)

  function AfterEvent(s: Service, e: Event): Service {
    match e
    case Takes(step) => Next(s, step)
    case Damage(d) => if ReadLoad(d) == Repair then s.(disk := d, process := Down) else s
  }

  function RunEvents(s: Service, events: seq<Event>): Service
    decreases |events|
  {
    if events == [] then s else RunEvents(AfterEvent(s, events[0]), events[1..])
  }

  lemma {:induction false} RunTakesEachEvent(s: Service, events: seq<Event>, last: Event)
    ensures RunEvents(s, events + [last]) == AfterEvent(RunEvents(s, events), last)
    decreases |events|
  {
    if events == [] {
      assert [last][1..] == [];
    } else {
      assert (events + [last])[1..] == events[1..] + [last];
      RunTakesEachEvent(AfterEvent(s, events[0]), events[1..], last);
    }
  }

  /** Nothing is running: the disk still reads as damaged, or an import that was not
      acknowledged reached it whole. */
  predicate Unrepaired(s: Service) {
    && s.disk.initialised && !s.process.Running?
    && (ReadLoad(s.disk) == Repair ||
        (s.process == InRepair(true) && s.attempted.Some? && s.attempted.value.rev >= 1
         && Holds(s.disk.config, s.disk.secrets, s.attempted.value)))
  }

  lemma ImportRests(s: Service, inputs: Body, secrets: Body, o: Outcome)
    requires Unrepaired(s)
    ensures var t := Next(s, Import(inputs, secrets, o)); Inv(t) || Unrepaired(t)
    ensures s.process == InRepair(false) && o.Completes? ==> Inv(Next(s, Import(inputs, secrets, o)))
  {
    if s.process == InRepair(false) {
      var next := Commit(1 + NewestRevision(s.disk), inputs, secrets);
      RepairImportNeverMixes(s, inputs, secrets, o);
      AfterRepairEffects(s.disk, next, Reached(REPAIR_SWAPS, o));
    }
  }

  lemma EventKeeps(s: Service, e: Event)
    requires Inv(s) || Unrepaired(s)
    ensures Inv(AfterEvent(s, e)) || Unrepaired(AfterEvent(s, e))
  {
    match e
    case Damage(_) =>
    case Takes(step) =>
      if Inv(s) {
        StepKeepsInv(s, step);
      } else if step.Import? {
        ImportRests(s, step.inputs, step.secrets, step.repair);
      }
  }

  lemma {:induction false} EventsKeep(s: Service, events: seq<Event>)
    requires Inv(s) || Unrepaired(s)
    ensures Inv(RunEvents(s, events)) || Unrepaired(RunEvents(s, events))
    decreases |events|
  {
    if events != [] {
      EventKeeps(s, events[0]);
      EventsKeep(AfterEvent(s, events[0]), events[1..]);
    }
  }

  /** Crash atomicity over every run that damage and repair imports may interrupt: what
      runs was loaded whole, and a load yields repair, or both halves of the commit last
      acknowledged or of the one attempted since, an import's included. */
  lemma LoadsWholeOrRepairs(d: Disk, events: seq<Event>)
    ensures
      var s := RunEvents(NeverSeeded(d), events);
      s.disk.initialised ==>
        && (ReadLoad(s.disk) == Repair ==> !s.process.Running?)
        && (ReadLoad(s.disk) != Repair ==>
              ReadLoad(s.disk).Loaded?
              && (ReadLoad(s.disk).commit == s.settled || Some(ReadLoad(s.disk).commit) == s.attempted))
        && (s.process.Running? && !s.process.saveFailed ==> ReadLoad(s.disk) == Loaded(s.settled, false))
  {
    EventsKeep(NeverSeeded(d), events);
    var s := RunEvents(NeverSeeded(d), events);
    if Inv(s) && s.disk.initialised && s.attempted.Some? {
      LoadOfRestingPair(s.disk, s.settled, s.attempted.value);
    }
  }

  /** An import completed after any such run heals the installation: from then on no run
      of its own needs repair again, and every load is of one whole commit. */
  lemma RepairedStaysWhole(d: Disk, events: seq<Event>, inputs: Body, secrets: Body, steps: seq<Step>)
    requires RunEvents(NeverSeeded(d), events).process == InRepair(false)
    ensures
      var s := Run(Next(RunEvents(NeverSeeded(d), events), Import(inputs, secrets, Completes)), steps);
      && ReadLoad(s.disk).Loaded?
      && (ReadLoad(s.disk).commit == s.settled || Some(ReadLoad(s.disk).commit) == s.attempted)
  {
    var damaged := RunEvents(NeverSeeded(d), events);
    EventsKeep(NeverSeeded(d), events);
    ImportRests(damaged, inputs, secrets, Completes);
    var healed := Next(damaged, Import(inputs, secrets, Completes));
    RunKeepsInv(healed, steps);
    StaysInitialised(healed, steps);
    var s := Run(healed, steps);
    if s.attempted.Some? {
      LoadOfRestingPair(s.disk, s.settled, s.attempted.value);
    }
  }

  lemma {:induction false} StaysInitialised(s: Service, steps: seq<Step>)
    requires Inv(s) && s.disk.initialised
    ensures Run(s, steps).disk.initialised
    decreases |steps|
  {
    if steps != [] {
      StepStaysInitialised(s, steps[0]);
      StepKeepsInv(s, steps[0]);
      StaysInitialised(Next(s, steps[0]), steps[1..]);
    }
  }

  lemma StepStaysInitialised(s: Service, step: Step)
    requires Inv(s) && s.disk.initialised
    ensures Next(s, step).disk.initialised
  {
    match step
    case Save(expected, inputs, secrets, o) =>
      if TakesSave(s.process, expected) {
        BackedUpSaveRests(s.disk, s.settled, Commit(s.settled.rev + 1, inputs, secrets), o);
      }
    case Start(inputs, secrets, o) =>
      if s.attempted.Some? {
        LoadOfRestingPair(s.disk, s.settled, s.attempted.value);
        if ReadLoad(s.disk) == Loaded(s.settled, true) {
          RecoveryRests(s.disk, s.settled, s.attempted.value, o);
        }
      }
    case Import(_, _, _) =>
  }

  // ---------------------------------------------------------------- the writer itself

  /** The service as it runs, effect by effect. */
  class SettingsService {
    var config: Half
    var secrets: Half
    var configPrev: Half
    var secretsPrev: Half
    var initialised: bool
    var process: Process

    ghost function Files(): Disk
      reads this
    {
      Disk(config, secrets, configPrev, secretsPrev, initialised)
    }

    constructor (d: Disk)
      ensures Files() == d && process == Down
    {
      config, secrets, configPrev, secretsPrev := d.config, d.secrets, d.configPrev, d.secretsPrev;
      initialised, process := d.initialised, Down;
    }

    /** Swap both files, secrets first, keeping hard links to the current pair. */
    method CommitPair(c: Commit, backup: bool, o: Outcome) returns (raised: bool)
      modifies this`config, this`secrets, this`configPrev, this`secretsPrev
      ensures Files() == Attempt(old(Files()), if backup then BACKED_UP_SWAPS else SWAPS, c, o)
      ensures raised == o.StopsAfter?
    {
      ghost var before := Files();
      ghost var es := if backup then BACKED_UP_SWAPS else SWAPS;
      Unrolled(before, es, c);
      raised := o.StopsAfter?;
      var left := if raised then o.done else 6;
      if backup {
        if left == 0 { return; }
        configPrev := Missing;
        if left == 1 { return; }
        configPrev := config;
        if left == 2 { return; }
        secretsPrev := Missing;
        if left == 3 { return; }
        secretsPrev := secrets;
        left := left - 4;
      }
      if left == 0 { return; }
      secrets := Sound(c.rev, c.secrets);
      if left == 1 { return; }
      config := Sound(c.rev, c.inputs);
    }

    method Save(expected: nat, inputs: Body, secrets: Body, o: Outcome) returns (refused: bool)
      modifies this
      ensures (Files(), process) == SaveOutcome(old(Files()), old(process), expected, inputs, secrets, o)
      ensures refused <==> !TakesSave(old(process), expected) || o.StopsAfter?
      ensures !refused ==> process == Running(Commit(expected + 1, inputs, secrets), false)
    {
      refused := true;
      if !process.Running? || process.saveFailed || expected != process.commit.rev {
        return;
      }
      var next := Commit(process.commit.rev + 1, inputs, secrets);
      var raised := CommitPair(next, true, o);
      process := if raised then process.(saveFailed := true) else Running(next, false);
      refused := raised;
    }

    /** First start: clear remnants, commit the seed, and only then the marker. */
    method Seed(seed: Commit, o: Outcome)
      requires !initialised
      modifies this
      ensures (Files(), process) == StartOutcome(old(Files()), seed, o)
    {
      Unrolled(Files(), SEED, seed);
      process := if o.Completes? then Running(seed, false) else Down;
      var left := if o.StopsAfter? then o.done else 7;
      if left == 0 { return; }
      config := Missing;
      if left == 1 { return; }
      secrets := Missing;
      if left == 2 { return; }
      configPrev := Missing;
      if left == 3 { return; }
      secretsPrev := Missing;
      if left == 4 { return; }
      secrets := Sound(seed.rev, seed.secrets);
      if left == 5 { return; }
      config := Sound(seed.rev, seed.inputs);
      if left == 6 { return; }
      initialised := true;
    }

    /** Load for writing: an interrupted commit is finished backwards from the links. */
    method Load(seed: Commit, o: Outcome)
      modifies this
      ensures (Files(), process) == StartOutcome(old(Files()), seed, o)
    {
      if !initialised {
        Seed(seed, o);
        return;
      }
      var current := ReadPair(config, secrets);
      if current.Pair? {
        process := Running(current.commit, false);
        return;
      }
      process := InRepair(false);
      if current.Broken? {
        return;
      }
      var previous := ReadPair(configPrev, secretsPrev);
      if !previous.Pair? {
        return;
      }
      var raised := CommitPair(previous.commit, false, o);
      process := if raised then Down else Running(previous.commit, false);
    }

    method RepairImport(inputs: Body, secrets: Body, o: Outcome) returns (refused: bool)
      modifies this
      ensures (Files(), process) == ImportOutcome(old(Files()), old(process), inputs, secrets, o)
      ensures refused <==> !old(process).InRepair? || old(process).failed || o.StopsAfter?
    {
      refused := true;
      if !process.InRepair? || process.failed {
        return;
      }
      var newest := Newer(Newer(RevisionOf(config), RevisionOf(this.secrets)),
                          Newer(RevisionOf(configPrev), RevisionOf(secretsPrev)));
      var next := Commit(1 + newest, inputs, secrets);
      Unrolled(Files(), REPAIR_SWAPS, next);
      refused := o.StopsAfter?;
      process := if refused then InRepair(true) else Running(next, false);
      var left := if refused then o.done else 5;
      // The untrusted pair is never kept as a rollback target.
      if left == 0 { return; }
      configPrev := Missing;
      if left == 1 { return; }
      secretsPrev := Missing;
      if left == 2 { return; }
      this.secrets := Sound(next.rev, next.secrets);
      if left == 3 { return; }
      config := Sound(next.rev, next.inputs);
      if left == 4 { return; }
      initialised := true;
    }
  }
}
