/** Trust in one battery bank's state of charge: at most one counted observation per wall
    minute, an energy-bounded baseline, and a recovery that must be continuous.

    Instants and spans are integer microseconds; powers, energies and percentages are exact
    reals. A naive read time is no read time, and a power that is not finite is no power. */
module SocTrust {
  import opened Basics

  const MINUTE := 60_000_000
  const TOLERANCE := 2.0

  datatype Value = NoValue | Garbled | Infinite | Number(v: real)

  datatype Status =
    | Ok | Implausible | ReadFailed | Unavailable | MalformedValue | NotFinite | OutOfRange
    | TimeUnusable | TimeFuture | Stale

  datatype Trust = Trusted | Untrusted | Recovering

  datatype BankTrust = BankTrust(value: Option<real>, readAt: Option<int>, trust: Trust, reason: Status)

  datatype Policy = Policy(maxAge: int, threshold: nat, recovery: int)

  /** One call of the monitor. `counts` is false outside ownership. */
  datatype Observation = Observation(
    value: Value, readAt: Option<int>, now: int, power: Option<real>, capacity: real,
    valid: bool, fallbackActive: bool, counts: bool)

  function Minute(now: int): int {
    now / MINUTE
  }

  function Abs(x: real): real {
    if x < 0.0 then -x else x
  }

  // ---------------------------------------------------------------- one judgement

  function Parsed(value: Value): (Option<real>, Status) {
    match value
    case NoValue => (None, Unavailable)
    case Garbled => (None, MalformedValue)
    case Infinite => (None, NotFinite)
    case Number(v) => if 0.0 <= v <= 100.0 then (Some(v), Ok) else (None, OutOfRange)
  }

  /** How far the charge may have moved, in points. */
  function Explained(energy: real, capacity: real): real
    requires capacity > 0.0
  {
    energy / capacity * 100.0
  }

  predicate Unexplained(v: real, baseline: real, explained: real) {
    var delta := Abs(v - baseline);
    delta > explained + TOLERANCE || (delta == 0.0 && explained > TOLERANCE)
  }

  function CheckSoc(value: Value, readAt: Option<int>, now: int, maxAge: int,
                    baseline: Option<real>, energy: Option<real>, capacity: real): BankTrust
  {
    var (parsed, status) := Parsed(value);
    var reason :=
      if status != Ok then status
      else if readAt.None? then TimeUnusable
      else if readAt.value > now then TimeFuture
      else if baseline.Some? && energy.Some? && energy.value >= 0.0 && capacity > 0.0
        && Unexplained(parsed.value, baseline.value, Explained(energy.value, capacity)) then Implausible
      else if now - readAt.value > maxAge then Stale
      else Ok;
    BankTrust(parsed, readAt, if reason == Ok then Trusted else Untrusted, reason)
  }

  // ---------------------------------------------------------------- the monitor

  datatype Monitor = Monitor(
    view: BankTrust, failures: nat, minute: Option<int>, minuteFailed: bool, readAt: Option<int>,
    baseline: Option<real>, energy: real, powerAt: Option<int>, power: Option<real>, rejected: Option<real>,
    blocked: bool, since: Option<int>, recoveryRead: Option<int>, recoveryMinute: Option<int>, ready: bool)

  const NEW := Monitor(
    BankTrust(None, None, Untrusted, Unavailable), 0, None, false, None,
    None, 0.0, None, None, None, false, None, None, None, false)

  predicate IsFresh(last: Option<int>, readAt: Option<int>) {
    readAt.Some? && (last.Some? ==> readAt.value > last.value)
  }

  function RecoveryReset(m: Monitor): Monitor {
    m.(since := None, recoveryRead := None, recoveryMinute := None, ready := false)
  }

  function Failed(m: Monitor, counts: bool, p: Policy): Monitor {
    var failures := if counts then m.failures + 1 else m.failures;
    RecoveryReset(m.(failures := failures, blocked := m.blocked || (counts && failures >= p.threshold)))
  }

  /** Watts over microseconds, as kilowatt hours. */
  function Trapezoid(a: real, b: real, span: real): real {
    (a + b) / 2.0 * span / 3_600_000_000_000.0
  }

  /** Energy since the baseline: a trapezoid for each pair of neighbouring power readings. */
  function Integrated(m: Monitor, o: Observation): real {
    if m.powerAt.Some? && m.power.Some? && o.power.Some? then
      var elapsed := if o.now < m.powerAt.value then 0 else o.now - m.powerAt.value;
      m.energy + Trapezoid(Abs(m.power.value), Abs(o.power.value), elapsed as real)
    else m.energy
  }

  function Plain(o: Observation, p: Policy): BankTrust {
    CheckSoc(o.value, o.readAt, o.now, p.maxAge, None, None, 0.0)
  }

  /** A fresh read: integrate, judge against the baseline, and let a repeated candidate
      stand as a recalibration. */
  function FreshJudged(m: Monitor, o: Observation, p: Policy): (Monitor, BankTrust) {
    var energy := Integrated(m, o);
    var first := CheckSoc(o.value, o.readAt, o.now, p.maxAge, m.baseline,
                          if o.power.Some? then Some(energy) else None, o.capacity);
    Settled(m.(energy := energy, powerAt := Some(o.now), power := o.power), first, o, p)
  }

  function Settled(m: Monitor, first: BankTrust, o: Observation, p: Policy): (Monitor, BankTrust) {
    var doubted := first.reason == Implausible && first.value != m.baseline;
    var result := if doubted && first.value == m.rejected then Plain(o, p) else first;
    var moved := result.reason == Ok && result.value != m.baseline;
    (m.(rejected := if doubted && result.reason != Ok then result.value else None,
        baseline := if moved then result.value else m.baseline,
        energy := if moved then 0.0 else m.energy,
        readAt := o.readAt), result)
  }

  /** No new read: the last good one may still be young enough. */
  function RepeatJudged(m: Monitor, o: Observation, p: Policy): (Monitor, BankTrust) {
    var kept := m.(rejected := None);
    var quiet := if o.power.None? then kept.(powerAt := Some(o.now), power := None) else kept;
    var value := if m.view.value.Some? then Number(m.view.value.value) else NoValue;
    var again := CheckSoc(value, m.view.readAt, o.now, p.maxAge, None, None, 0.0);
    (quiet, if again.reason == Ok && m.view.reason != Ok
            then BankTrust(again.value, again.readAt, Untrusted, m.view.reason) else again)
  }

  /** What the judged observation does to failures, blocking and recovery. */
  function Concluded(m: Monitor, o: Observation, newer: bool, judged: BankTrust, p: Policy): Monitor {
    var result := if o.valid then judged else BankTrust(judged.value, judged.readAt, Untrusted, ReadFailed);
    var m := m.(minuteFailed := result.reason != Ok);
    if result.reason != Ok then Failed(m, o.counts, p).(view := result)
    else if !m.blocked then m.(failures := 0, view := result)
    else Recovered(m, o, newer, result, p)
  }

  /** A passing observation while blocked: it extends the recovery or starts it again. */
  function Progressed(m: Monitor, o: Observation, newer: bool, p: Policy): Monitor {
    var minute := Minute(o.now);
    var broken := !newer || (m.recoveryMinute.Some? && m.recoveryMinute.value != minute - 1)
      || (m.recoveryRead.Some? && o.readAt.Some? && o.readAt.value <= m.recoveryRead.value);
    var m := if broken then RecoveryReset(m) else m;
    if newer then
      var since := if m.since.None? then o.now else m.since.value;
      m.(since := Some(since), recoveryRead := o.readAt, recoveryMinute := Some(minute),
         ready := o.now - since >= p.recovery)
    else m
  }

  function Recovered(m: Monitor, o: Observation, newer: bool, result: BankTrust, p: Policy): Monitor {
    var m := Progressed(m, o, newer, p);
    if m.ready && !o.fallbackActive then RecoveryReset(m.(blocked := false, failures := 0, view := result))
    else m.(view := BankTrust(result.value, result.readAt, Recovering, Ok))
  }

  /** A further call in the same minute can only take trust away. */
  function SameMinute(m: Monitor, o: Observation, p: Policy): Monitor {
    var m := if o.fallbackActive && m.view.trust == Trusted
             then m.(view := BankTrust(m.view.value, m.view.readAt, Recovering, Ok)) else m;
    if o.valid then m
    else
      var lost := m.(view := BankTrust(m.view.value, m.view.readAt, Untrusted, ReadFailed));
      if m.minuteFailed then lost else Failed(lost.(minuteFailed := true, rejected := None), o.counts, p)
  }

  function Judged(m: Monitor, o: Observation, newer: bool, p: Policy): (Monitor, BankTrust) {
    if newer then FreshJudged(m, o, p) else RepeatJudged(m, o, p)
  }

  /** The counted call of a minute. */
  function NewMinute(m: Monitor, o: Observation, p: Policy): Monitor {
    var newer := IsFresh(m.readAt, o.readAt);
    var m := m.(minute := Some(Minute(o.now)));
    var (judged, result) := Judged(m, o, newer, p);
    Concluded(judged, o, newer, result, p)
  }

  function Observed(m: Monitor, o: Observation, p: Policy): Monitor {
    var m := if o.fallbackActive then m.(blocked := true) else m;
    if m.minute == Some(Minute(o.now)) then SameMinute(m, o, p) else NewMinute(m, o, p)
  }

  // ---------------------------------------------------------------- history

  /** The monitor after a whole history of calls. */
  function After(p: Policy, h: seq<Observation>): Monitor
    decreases |h|
  {
    if h == [] then NEW else Observed(After(p, h[..|h| - 1]), h[|h| - 1], p)
  }

  /** The first call of its wall minute: the one that is counted. */
  predicate Counted(h: seq<Observation>, k: nat)
    requires k < |h|
  {
    k == 0 || Minute(h[k - 1].now) != Minute(h[k].now)
  }

  /** The newest read time of the counted calls. */
  function LastRead(h: seq<Observation>): Option<int>
    decreases |h|
  {
    if h == [] then None
    else
      var before := LastRead(h[..|h| - 1]);
      var o := h[|h| - 1];
      if Counted(h, |h| - 1) && IsFresh(before, o.readAt) then o.readAt else before
  }

  predicate FreshAt(h: seq<Observation>, k: nat)
    requires k < |h|
  {
    Counted(h, k) && IsFresh(LastRead(h[..k]), h[k].readAt)
  }

  function LastCounted(h: seq<Observation>): (k: nat)
    requires h != []
    ensures k < |h| && Counted(h, k) && forall i :: k < i < |h| ==> !Counted(h, i)
    decreases |h|
  {
    if Counted(h, |h| - 1) then |h| - 1
    else
      assert h[..|h| - 1] != [];
      var k := LastCounted(h[..|h| - 1]);
      assert forall i :: 0 <= i < |h| - 1 ==> Counted(h, i) == Counted(h[..|h| - 1], i);
      k
  }

  /** A percentage, read no later than now and no longer ago than the policy allows. */
  predicate Passes(p: Policy, o: Observation) {
    && o.valid
    && o.value.Number? && 0.0 <= o.value.v <= 100.0
    && o.readAt.Some? && o.readAt.value <= o.now && o.now - o.readAt.value <= p.maxAge
  }

  /** From `start` on, no call lost validation, no wall minute is skipped, and every
      minute's counted call is a newer read that passes. */
  predicate Continuous(p: Policy, h: seq<Observation>, start: nat) {
    && start < |h| && Counted(h, start)
    && (forall k :: start <= k < |h| ==> h[k].valid)
    && (forall k :: start < k < |h| ==> NextMinute(h, k))
    && (forall k :: start <= k < |h| && Counted(h, k) ==> FreshAt(h, k) && Passes(p, h[k]))
  }

  predicate NextMinute(h: seq<Observation>, k: nat)
    requires 0 < k < |h|
  {
    0 <= Minute(h[k].now) - Minute(h[k - 1].now) <= 1
  }

  /** Recovery under way began at a counted call and has been continuous since. */
  ghost predicate RecoveryIsContinuous(p: Policy, h: seq<Observation>, m: Monitor) {
    m.since.Some? ==>
      && m.blocked && !m.minuteFailed && h != []
      && m.recoveryMinute == m.minute
      && m.recoveryRead == m.readAt
      && (exists start: nat :: Continuous(p, h, start) && m.since == Some(h[start].now))
      && m.ready == (h[LastCounted(h)].now - m.since.value >= p.recovery)
  }

  ghost predicate Inv(p: Policy, h: seq<Observation>, m: Monitor) {
    && m.minute == (if h == [] then None else Some(Minute(h[|h| - 1].now)))
    && m.readAt == LastRead(h)
    && RecoveryIsContinuous(p, h, m)
    && (m.since.None? ==> m.recoveryRead.None? && m.recoveryMinute.None? && !m.ready)
  }

  lemma EarlierCallsKeep(h: seq<Observation>, o: Observation, k: nat)
    requires k < |h|
    ensures Counted(h + [o], k) == Counted(h, k) && FreshAt(h + [o], k) == FreshAt(h, k)
  {
    assert (h + [o])[..k] == h[..k];
  }

  lemma ContinuousExtends(p: Policy, h: seq<Observation>, start: nat, o: Observation)
    requires Continuous(p, h, start) && o.valid && NextMinute(h + [o], |h|)
    requires Counted(h + [o], |h|) ==> FreshAt(h + [o], |h|) && Passes(p, o)
    ensures Continuous(p, h + [o], start)
  {
    var g := h + [o];
    forall k | start <= k < |g| && Counted(g, k) ensures FreshAt(g, k) && Passes(p, g[k]) {
      if k < |h| {
        EarlierCallsKeep(h, o, k);
      }
    }
    EarlierCallsKeep(h, o, start);
    forall k | start < k < |g| ensures NextMinute(g, k) {
      if k < |h| {
        assert NextMinute(h, k);
      }
    }
  }

  /** A judgement moves only what it measures, and accepts only what it may. */
  lemma JudgementIsLocal(m: Monitor, o: Observation, newer: bool, p: Policy)
    requires newer ==> o.readAt.Some?
    ensures
      var (j, r) := Judged(m, o, newer, p);
      && (j.view, j.failures, j.minute, j.minuteFailed, j.blocked)
        == (m.view, m.failures, m.minute, m.minuteFailed, m.blocked)
      && (j.since, j.recoveryRead, j.recoveryMinute, j.ready) == (m.since, m.recoveryRead, m.recoveryMinute, m.ready)
      && j.readAt == (if newer then o.readAt else m.readAt)
      && (j.rejected.Some? ==> newer && o.value == Number(j.rejected.value))
      && (r.reason == Ok <==> r.trust == Trusted) && r.trust != Recovering
      && (r.reason == Ok ==>
          && r.value.Some? && 0.0 <= r.value.value <= 100.0
          && r.readAt.Some? && 0 <= o.now - r.readAt.value <= p.maxAge
          && (if newer then o.value == Number(r.value.value) && r.readAt == o.readAt
              else m.view.reason == Ok && r.value == m.view.value && r.readAt == m.view.readAt))
  {
  }

  /** One call, without its history: how recovery can be under way after it. */
  predicate Advances(p: Policy, m: Monitor, o: Observation, v: Monitor) {
    var counted := m.minute != Some(Minute(o.now));
    && v.minute == Some(Minute(o.now))
    && v.readAt == (if counted && IsFresh(m.readAt, o.readAt) then o.readAt else m.readAt)
    && (v.since.None? ==> v.recoveryRead.None? && v.recoveryMinute.None? && !v.ready)
    && (v.since.Some? ==> v.blocked && !v.minuteFailed && o.valid)
    && (v.since.Some? && !counted ==>
        (v.since, v.recoveryRead, v.recoveryMinute, v.ready) == (m.since, m.recoveryRead, m.recoveryMinute, m.ready))
    && (v.since.Some? && counted ==>
        && IsFresh(m.readAt, o.readAt) && Passes(p, o)
        && v.recoveryRead == o.readAt && v.recoveryMinute == Some(Minute(o.now))
        && v.ready == (o.now - v.since.value >= p.recovery)
        && (v.since == Some(o.now) || (v.since == m.since && m.recoveryMinute == Some(Minute(o.now) - 1))))
    && (m.blocked && !v.blocked ==>
        && counted && IsFresh(m.readAt, o.readAt) && Passes(p, o) && !o.fallbackActive
        && (0 >= p.recovery || (
            && m.since.Some? && o.now - m.since.value >= p.recovery
            && m.recoveryMinute == Some(Minute(o.now) - 1))))
  }

  lemma CallAdvances(p: Policy, m: Monitor, o: Observation)
    requires m.since.None? ==> m.recoveryRead.None? && m.recoveryMinute.None? && !m.ready
    requires m.since.Some? ==> m.blocked && !m.minuteFailed && m.recoveryMinute.Some?
    ensures Advances(p, m, o, Observed(m, o, p))
  {
    var newer := IsFresh(m.readAt, o.readAt);
    var f := if o.fallbackActive then m.(blocked := true) else m;
    if m.minute != Some(Minute(o.now)) {
      var c := f.(minute := Some(Minute(o.now)));
      var (judged, result) := Judged(c, o, newer, p);
      JudgementIsLocal(c, o, newer, p);
      ConclusionAdvances(p, m, judged, o, newer, result);
    }
  }

  lemma ConclusionAdvances(p: Policy, m: Monitor, j: Monitor, o: Observation, newer: bool, result: BankTrust)
    requires m.since.None? ==> m.recoveryRead.None? && m.recoveryMinute.None? && !m.ready
    requires m.since.Some? ==> m.blocked && !m.minuteFailed && m.recoveryMinute.Some?
    requires newer == IsFresh(m.readAt, o.readAt) && m.minute != Some(Minute(o.now)) == j.minute
    requires j.readAt == if newer then o.readAt else m.readAt
    requires (j.since, j.recoveryRead, j.recoveryMinute, j.ready)
      == (m.since, m.recoveryRead, m.recoveryMinute, m.ready)
    requires (m.blocked ==> j.blocked) && (o.fallbackActive ==> j.blocked)
    requires newer && result.reason == Ok && o.valid ==> Passes(p, o)
    ensures Advances(p, m, o, Concluded(j, o, newer, result, p))
  {
  }

  lemma StepKeepsInv(p: Policy, h: seq<Observation>, o: Observation, m: Monitor, v: Monitor)
    requires Inv(p, h, m) && Advances(p, m, o, v)
    ensures Inv(p, h + [o], v)
  {
    var g := h + [o];
    assert g[..|h|] == h;
    assert Counted(g, |h|) == (m.minute != Some(Minute(o.now)));
    if v.since.Some? {
      if !Counted(g, |h|) || v.since != Some(o.now) {
        var start: nat :| Continuous(p, h, start) && m.since == Some(h[start].now);
        ContinuousExtends(p, h, start, o);
        assert g[start] == h[start];
      } else {
        assert Continuous(p, g, |h|) && g[|h|] == o;
      }
      if !Counted(g, |h|) {
        SameLastCounted(h, o);
        assert g[LastCounted(h)] == h[LastCounted(h)];
      }
    }
  }

  lemma SameLastCounted(h: seq<Observation>, o: Observation)
    requires h != [] && !Counted(h + [o], |h|)
    ensures LastCounted(h + [o]) == LastCounted(h)
  {
    assert (h + [o])[..|h|] == h;
  }

  lemma {:induction false} HistoryKeepsInv(p: Policy, h: seq<Observation>)
    ensures Inv(p, h, After(p, h))
    decreases |h|
  {
    if h != [] {
      var before, o := h[..|h| - 1], h[|h| - 1];
      assert before + [o] == h;
      HistoryKeepsInv(p, before);
      CallAdvances(p, After(p, before), o);
      StepKeepsInv(p, before, o, After(p, before), After(p, h));
    }
  }

  /** Whenever recovery is ready, every wall minute from its start to the last counted call
      brought a newer passing read with validation intact, for at least the policy's span. */
  lemma ReadyMeansContinuousRecovery(p: Policy, h: seq<Observation>)
    requires After(p, h).ready
    ensures h != []
    ensures exists start: nat ::
      Continuous(p, h, start) && h[LastCounted(h)].now - h[start].now >= p.recovery
  {
    HistoryKeepsInv(p, h);
    var m := After(p, h);
    var start: nat :| Continuous(p, h, start) && m.since == Some(h[start].now);
    assert h[LastCounted(h)].now - h[start].now >= p.recovery;
  }

  /** A block is lifted only by a counted call that completes such a recovery while no
      fallback is active. */
  lemma BlockLiftsOnlyAfterRecovery(p: Policy, h: seq<Observation>, o: Observation)
    requires After(p, h).blocked && !After(p, h + [o]).blocked
    ensures Counted(h + [o], |h|) && !o.fallbackActive
    ensures exists start: nat :: Continuous(p, h + [o], start) && o.now - (h + [o])[start].now >= p.recovery
  {
    assert (h + [o])[..|h|] == h;
    HistoryKeepsInv(p, h);
    CallAdvances(p, After(p, h), o);
    LiftCompletesRecovery(p, h, o, After(p, h), After(p, h + [o]));
  }

  lemma LiftCompletesRecovery(p: Policy, h: seq<Observation>, o: Observation, m: Monitor, v: Monitor)
    requires Inv(p, h, m) && Advances(p, m, o, v) && m.blocked && !v.blocked
    ensures Counted(h + [o], |h|) && !o.fallbackActive
    ensures exists start: nat :: Continuous(p, h + [o], start) && o.now - (h + [o])[start].now >= p.recovery
  {
    var g := h + [o];
    assert g[..|h|] == h && g[|h|] == o;
    assert Counted(g, |h|) && FreshAt(g, |h|);
    if 0 >= p.recovery {
      assert Continuous(p, g, |h|);
    } else {
      var start: nat :| Continuous(p, h, start) && m.since == Some(h[start].now);
      ContinuousExtends(p, h, start, o);
      assert g[start] == h[start];
    }
  }

  // ---------------------------------------------------------------- trust

  /** The published value is the reading of a fresh counted call. */
  predicate FromRead(h: seq<Observation>, j: nat, view: BankTrust) {
    j < |h| && FreshAt(h, j) && view.value.Some? && h[j].value == Number(view.value.value) && h[j].readAt == view.readAt
  }

  ghost predicate TrustIsEarned(p: Policy, h: seq<Observation>, m: Monitor) {
    && (m.view.reason == Ok <==> m.view.trust != Untrusted)
    && (m.view.reason == Ok ==> h != [] && exists j: nat :: FromRead(h, j, m.view))
    && (m.view.trust == Trusted ==> Sound(p, h, m))
  }

  predicate Sound(p: Policy, h: seq<Observation>, m: Monitor)
    requires h != []
  {
    && !m.blocked
    && m.view.value.Some? && 0.0 <= m.view.value.value <= 100.0
    && m.view.readAt.Some? && 0 <= h[LastCounted(h)].now - m.view.readAt.value <= p.maxAge
    && forall k :: LastCounted(h) <= k < |h| ==> h[k].valid && !h[k].fallbackActive
  }

  /** One call, without its history: where an unfailed view comes from. */
  predicate Shows(p: Policy, m: Monitor, o: Observation, v: Monitor) {
    var counted := m.minute != Some(Minute(o.now));
    && v.minute == Some(Minute(o.now))
    && (v.view.reason == Ok <==> v.view.trust != Untrusted)
    && (v.view.reason == Ok ==>
        || (m.view.reason == Ok && v.view.value == m.view.value && v.view.readAt == m.view.readAt)
        || (counted && IsFresh(m.readAt, o.readAt) && v.view.value.Some?
            && o.value == Number(v.view.value.value) && v.view.readAt == o.readAt))
    && (v.view.trust == Trusted ==>
        && !v.blocked && o.valid && !o.fallbackActive
        && (!counted ==> m.view == v.view)
        && (counted ==>
            && v.view.value.Some? && 0.0 <= v.view.value.value <= 100.0
            && v.view.readAt.Some? && 0 <= o.now - v.view.readAt.value <= p.maxAge))
  }

  lemma CallShows(p: Policy, m: Monitor, o: Observation)
    requires m.view.reason == Ok <==> m.view.trust != Untrusted
    requires m.view.trust == Trusted ==> !m.blocked
    requires m.since.None? ==> !m.ready
    ensures Shows(p, m, o, Observed(m, o, p))
  {
    var newer := IsFresh(m.readAt, o.readAt);
    var f := if o.fallbackActive then m.(blocked := true) else m;
    if m.minute != Some(Minute(o.now)) {
      var c := f.(minute := Some(Minute(o.now)));
      var (judged, result) := Judged(c, o, newer, p);
      JudgementIsLocal(c, o, newer, p);
      ConclusionShows(p, m, judged, o, newer, result);
    }
  }

  lemma ConclusionShows(p: Policy, m: Monitor, j: Monitor, o: Observation, newer: bool, result: BankTrust)
    requires newer == IsFresh(m.readAt, o.readAt) && m.minute != Some(Minute(o.now)) == j.minute
    requires o.fallbackActive ==> j.blocked
    requires result.reason == Ok <==> result.trust == Trusted
    requires result.trust != Recovering
    requires result.reason == Ok ==>
      && result.value.Some? && 0.0 <= result.value.value <= 100.0
      && result.readAt.Some? && 0 <= o.now - result.readAt.value <= p.maxAge
      && (if newer then o.value == Number(result.value.value) && result.readAt == o.readAt
          else m.view.reason == Ok && result.value == m.view.value && result.readAt == m.view.readAt)
    ensures Shows(p, m, o, Concluded(j, o, newer, result, p))
  {
  }

  lemma StepKeepsTrust(p: Policy, h: seq<Observation>, o: Observation, m: Monitor, v: Monitor)
    requires Inv(p, h, m) && TrustIsEarned(p, h, m) && Shows(p, m, o, v)
    ensures TrustIsEarned(p, h + [o], v)
  {
    var g := h + [o];
    assert g[..|h|] == h;
    if v.view.reason == Ok {
      if m.view.reason == Ok && v.view.value == m.view.value && v.view.readAt == m.view.readAt {
        var j: nat :| FromRead(h, j, m.view);
        EarlierCallsKeep(h, o, j);
        assert FromRead(g, j, v.view);
      } else {
        assert g[|h|] == o && FromRead(g, |h|, v.view);
      }
    }
    if v.view.trust == Trusted && !Counted(g, |h|) {
      SameLastCounted(h, o);
    }
  }

  /** Trust is never held while blocked, and never for anything but an in-range reading
      that was fresh evidence and not over age at the last counted minute. */
  lemma {:induction false} TrustedMeansSound(p: Policy, h: seq<Observation>)
    ensures TrustIsEarned(p, h, After(p, h))
    decreases |h|
  {
    if h != [] {
      var before, o := h[..|h| - 1], h[|h| - 1];
      TrustedMeansSound(p, before);
      HistoryKeepsInv(p, before);
      CallShows(p, After(p, before), o);
      StepKeepsTrust(p, before, o, After(p, before), After(p, h));
      assert before + [o] == h;
    }
  }

  /** Nothing contradicts the value: no baseline to compare with, a change that the energy
      explains, or the second reading of the same new value. */
  predicate Plausible(m: Monitor, o: Observation)
    requires o.value.Number?
  {
    || m.baseline.None? || o.power.None? || o.capacity <= 0.0
    || !Unexplained(o.value.v, m.baseline.value, Explained(Integrated(m, o), o.capacity))
    || (m.baseline != Some(o.value.v) && m.rejected == Some(o.value.v))
  }

  /** With nothing blocked, a fresh counted call is trusted exactly when it passes and its
      value is plausible. */
  lemma TrustedExactlyWhen(p: Policy, m: Monitor, o: Observation)
    requires m.energy >= 0.0 && !m.blocked && !o.fallbackActive
    requires m.minute != Some(Minute(o.now)) && IsFresh(m.readAt, o.readAt)
    ensures Observed(m, o, p).view.trust == Trusted <==> Passes(p, o) && Plausible(m, o)
  {
    AddsEnergy(m, o);
    var c := m.(minute := Some(Minute(o.now)));
    if o.value.Number? && o.capacity > 0.0 && m.baseline.Some? {
      FreshJudgedExactly(p, c, o, Explained(Integrated(m, o), o.capacity));
    }
    assert (FreshJudged(c, o, p).1.reason == Ok && o.valid) == (Passes(p, o) && Plausible(m, o));
  }

  lemma FreshJudgedExactly(p: Policy, m: Monitor, o: Observation, explained: real)
    requires o.value.Number? && o.capacity > 0.0 && m.baseline.Some? && Integrated(m, o) >= 0.0
    requires explained == Explained(Integrated(m, o), o.capacity)
    ensures o.valid ==> (FreshJudged(m, o, p).1.reason == Ok <==> Passes(p, o) && Plausible(m, o))
  {
  }

  // ---------------------------------------------------------------- baseline

  /** A recalibration candidate is what the last counted call read, freshly. */
  ghost predicate CandidateIsLast(h: seq<Observation>, m: Monitor) {
    m.rejected.Some? ==>
      h != [] && FreshAt(h, LastCounted(h)) && h[LastCounted(h)].value == Number(m.rejected.value)
  }

  /** One call, without its history: where a candidate comes from. */
  predicate Proposes(m: Monitor, o: Observation, v: Monitor) {
    v.rejected.Some? ==>
      if m.minute == Some(Minute(o.now)) then v.rejected == m.rejected
      else IsFresh(m.readAt, o.readAt) && o.value == Number(v.rejected.value)
  }

  lemma CallProposes(p: Policy, m: Monitor, o: Observation)
    ensures Proposes(m, o, Observed(m, o, p))
  {
    if m.minute != Some(Minute(o.now)) {
      var c := (if o.fallbackActive then m.(blocked := true) else m).(minute := Some(Minute(o.now)));
      var newer := IsFresh(m.readAt, o.readAt);
      var (judged, result) := Judged(c, o, newer, p);
      JudgementIsLocal(c, o, newer, p);
      ConclusionKeeps(p, judged, o, newer, result);
      assert Observed(m, o, p).rejected == judged.rejected;
    }
  }

  lemma ConclusionKeeps(p: Policy, j: Monitor, o: Observation, newer: bool, result: BankTrust)
    ensures
      var v := Concluded(j, o, newer, result, p);
      v.rejected == j.rejected && v.energy == j.energy && v.baseline == j.baseline && v.readAt == j.readAt
  {
  }

  lemma StepKeepsCandidate(p: Policy, h: seq<Observation>, o: Observation, m: Monitor, v: Monitor)
    requires Inv(p, h, m) && CandidateIsLast(h, m) && Proposes(m, o, v)
    ensures CandidateIsLast(h + [o], v)
  {
    var g := h + [o];
    assert g[..|h|] == h;
    if Counted(g, |h|) {
      assert LastCounted(g) == |h|;
    } else {
      SameLastCounted(h, o);
      EarlierCallsKeep(h, o, LastCounted(h));
    }
  }

  lemma {:induction false} CandidateHistory(p: Policy, h: seq<Observation>)
    ensures CandidateIsLast(h, After(p, h))
    decreases |h|
  {
    if h != [] {
      var before, o := h[..|h| - 1], h[|h| - 1];
      CandidateHistory(p, before);
      HistoryKeepsInv(p, before);
      CallProposes(p, After(p, before), o);
      StepKeepsCandidate(p, before, o, After(p, before), After(p, h));
      assert before + [o] == h;
    }
  }

  /** The baseline left what the integrated energy and two points explain. */
  predicate Jumps(m: Monitor, o: Observation, v: Monitor) {
    && o.power.Some? && o.capacity > 0.0
    && m.baseline.Some? && v.baseline.Some?
    && Abs(v.baseline.value - m.baseline.value) > Explained(Integrated(m, o), o.capacity) + TOLERANCE
  }

  /** Two counted calls in a row read the new baseline, each as fresh evidence. */
  predicate Agrees(h: seq<Observation>, o: Observation, v: Monitor) {
    && h != [] && Counted(h + [o], |h|) && FreshAt(h + [o], |h|) && FreshAt(h, LastCounted(h))
    && v.baseline.Some? && o.value == Number(v.baseline.value) == h[LastCounted(h)].value
  }

  /** With power and capacity known, the baseline only jumps to a value that two counted
      calls in a row have read. */
  lemma BaselineJumpsOnlyOnAgreement(p: Policy, h: seq<Observation>, o: Observation)
    requires Jumps(After(p, h), o, After(p, h + [o]))
    ensures Agrees(h, o, After(p, h + [o]))
  {
    AfterAppend(p, h, o);
    HistoryKeepsInv(p, h);
    CandidateHistory(p, h);
    EnergyIsNotNegative(p, h);
    JumpNeedsCandidate(p, After(p, h), o);
    CandidateMeansAgreement(p, h, o, After(p, h), After(p, h + [o]));
  }

  /** One call, without its history: what a jump has behind it. */
  predicate TakesCandidate(m: Monitor, o: Observation, v: Monitor) {
    && m.minute != Some(Minute(o.now)) && IsFresh(m.readAt, o.readAt)
    && v.baseline.Some? && o.value == Number(v.baseline.value) && m.rejected == v.baseline
  }

  lemma CandidateMeansAgreement(p: Policy, h: seq<Observation>, o: Observation, m: Monitor, v: Monitor)
    requires Inv(p, h, m) && CandidateIsLast(h, m) && TakesCandidate(m, o, v)
    ensures Agrees(h, o, v)
  {
    assert (h + [o])[..|h|] == h;
  }

  lemma JumpNeedsCandidate(p: Policy, m: Monitor, o: Observation)
    requires m.energy >= 0.0 && Jumps(m, o, Observed(m, o, p))
    ensures TakesCandidate(m, o, Observed(m, o, p))
  {
    var energy := Integrated(m, o);
    var explained := Explained(energy, o.capacity);
    AddsEnergy(m, o);
    ExplainsSomething(energy, o.capacity);
    if m.minute != Some(Minute(o.now)) {
      var c := (if o.fallbackActive then m.(blocked := true) else m).(minute := Some(Minute(o.now)));
      var newer := IsFresh(m.readAt, o.readAt);
      var (judged, result) := Judged(c, o, newer, p);
      JudgementIsLocal(c, o, newer, p);
      ConclusionKeeps(p, judged, o, newer, result);
      if newer {
        JumpNeedsAgreement(p, c, o, energy, explained);
      }
    }
  }

  lemma JumpNeedsAgreement(p: Policy, m: Monitor, o: Observation, energy: real, explained: real)
    requires o.power.Some? && o.capacity > 0.0
    requires energy == Integrated(m, o) && energy >= 0.0
    requires explained == Explained(energy, o.capacity) && explained >= 0.0
    ensures
      var v := FreshJudged(m, o, p).0;
      m.baseline.Some? && v.baseline.Some? && Abs(v.baseline.value - m.baseline.value) > explained + TOLERANCE ==>
        o.value == Number(v.baseline.value) && m.rejected == v.baseline
  {
  }

  lemma ExplainsSomething(energy: real, capacity: real)
    requires energy >= 0.0 && capacity > 0.0
    ensures Explained(energy, capacity) >= 0.0
  {
    assert energy / capacity >= 0.0;
  }

  lemma TrapezoidIsNotNegative(a: real, b: real, span: real)
    requires a >= 0.0 && b >= 0.0 && span >= 0.0
    ensures Trapezoid(a, b, span) >= 0.0
  {
    assert (a + b) / 2.0 * span >= 0.0;
  }

  lemma AddsEnergy(m: Monitor, o: Observation)
    ensures Integrated(m, o) >= m.energy
  {
    if m.powerAt.Some? && m.power.Some? && o.power.Some? {
      var elapsed := if o.now < m.powerAt.value then 0 else o.now - m.powerAt.value;
      TrapezoidIsNotNegative(Abs(m.power.value), Abs(o.power.value), elapsed as real);
    }
  }

  lemma {:induction false} EnergyIsNotNegative(p: Policy, h: seq<Observation>)
    ensures After(p, h).energy >= 0.0
    decreases |h|
  {
    if h != [] {
      EnergyIsNotNegative(p, h[..|h| - 1]);
      AddsEnergy(After(p, h[..|h| - 1]), h[|h| - 1]);
      EnergyOfCall(p, After(p, h[..|h| - 1]), h[|h| - 1]);
    }
  }

  lemma EnergyOfCall(p: Policy, m: Monitor, o: Observation)
    ensures
      var e := Observed(m, o, p).energy;
      e == m.energy || e == Integrated(m, o) || e == 0.0
  {
    if m.minute != Some(Minute(o.now)) {
      var c := (if o.fallbackActive then m.(blocked := true) else m).(minute := Some(Minute(o.now)));
      var newer := IsFresh(m.readAt, o.readAt);
      var (judged, result) := Judged(c, o, newer, p);
      JudgementIsLocal(c, o, newer, p);
      ConclusionKeeps(p, judged, o, newer, result);
      assert Observed(m, o, p).energy == judged.energy;
    }
  }

  // ---------------------------------------------------------------- failures

  /** Calls s to t fall into one wall minute, of which s is the first. */
  predicate OneMinute(h: seq<Observation>, s: nat, t: nat)
    requires s <= t < |h|
  {
    Counted(h, s) && forall k :: s < k <= t ==> !Counted(h, k)
  }

  /** One call, without its history: what it may add to the failures. */
  predicate Charges(m: Monitor, o: Observation, v: Monitor) {
    && v.minute == Some(Minute(o.now))
    && (m.minute != v.minute ==> v.failures <= m.failures + (if v.minuteFailed then 1 else 0))
    && (m.minute == v.minute ==>
        && (m.minuteFailed ==> v.minuteFailed)
        && v.failures <= m.failures + (if v.minuteFailed && !m.minuteFailed then 1 else 0))
  }

  lemma CallCharges(p: Policy, m: Monitor, o: Observation)
    ensures Charges(m, o, Observed(m, o, p))
  {
    if m.minute != Some(Minute(o.now)) {
      var c := (if o.fallbackActive then m.(blocked := true) else m).(minute := Some(Minute(o.now)));
      var newer := IsFresh(m.readAt, o.readAt);
      var (judged, result) := Judged(c, o, newer, p);
      JudgementIsLocal(c, o, newer, p);
      ConclusionCharges(p, m, judged, o, newer, result);
    }
  }

  lemma ConclusionCharges(p: Policy, m: Monitor, j: Monitor, o: Observation, newer: bool, result: BankTrust)
    requires j.minute == Some(Minute(o.now)) != m.minute && j.failures == m.failures
    ensures Charges(m, o, Concluded(j, o, newer, result, p))
  {
  }

  /** However many calls a wall minute takes, it adds at most one failure. */
  lemma {:induction false} AtMostOneFailureAMinute(p: Policy, h: seq<Observation>, s: nat, t: nat)
    requires s <= t < |h| && OneMinute(h, s, t)
    ensures
      var before, v := After(p, h[..s]), After(p, h[..t + 1]);
      v.failures <= before.failures + (if v.minuteFailed then 1 else 0)
    decreases t - s
  {
    HistoryKeepsInv(p, h[..t]);
    CallCharges(p, After(p, h[..t]), h[t]);
    AfterOneMore(p, h, t);
    if s < t {
      AtMostOneFailureAMinute(p, h, s, t - 1);
    }
    MinuteAddsOne(h, s, t, After(p, h[..s]), After(p, h[..t]), After(p, h[..t + 1]));
  }

  lemma AfterOneMore(p: Policy, h: seq<Observation>, t: nat)
    requires t < |h|
    ensures After(p, h[..t + 1]) == Observed(After(p, h[..t]), h[t], p)
  {
    assert h[..t + 1][..t] == h[..t];
  }

  lemma MinuteAddsOne(h: seq<Observation>, s: nat, t: nat, before: Monitor, m: Monitor, v: Monitor)
    requires s <= t < |h| && OneMinute(h, s, t) && Charges(m, h[t], v)
    requires m.minute == if t == 0 then None else Some(Minute(h[t - 1].now))
    requires if s == t then m == before else m.failures <= before.failures + (if m.minuteFailed then 1 else 0)
    ensures v.failures <= before.failures + (if v.minuteFailed then 1 else 0)
  {
    if s < t {
      assert !Counted(h, t);
    }
  }

  lemma AfterAppend(p: Policy, h: seq<Observation>, o: Observation)
    ensures After(p, h + [o]) == Observed(After(p, h), o, p)
  {
    assert (h + [o])[..|h|] == h;
  }
}
