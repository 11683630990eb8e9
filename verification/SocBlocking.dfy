/** When a bank's state of charge is blocked, and when the block is lifted: told from the
    calls and from what was published after each of them. */
module SocBlocking {
  import opened Basics
  import opened SocTrust

  /** What the monitor published after call k. */
  function Published(p: Policy, h: seq<Observation>, k: nat): BankTrust
    requires k < |h|
  {
    After(p, h[..k + 1]).view
  }

  /** The first failure of its wall minute, in a call that counts. */
  predicate IsFailure(p: Policy, h: seq<Observation>, k: nat)
    requires k < |h|
  {
    && h[k].counts && Published(p, h, k).reason != Ok
    && (!Counted(h, k) ==> Published(p, h, k - 1).reason == Ok)
  }

  /** A wall minute whose first call passed without a block left, or lifted it. */
  predicate IsCleared(p: Policy, h: seq<Observation>, k: nat)
    requires k < |h|
  {
    Counted(h, k) && Published(p, h, k).trust == Trusted
  }

  /** The failed minutes since the bank was last clear. */
  function FailedMinutes(p: Policy, h: seq<Observation>): nat
    decreases |h|
  {
    if h == [] || IsCleared(p, h, |h| - 1) then 0
    else FailedMinutes(p, h[..|h| - 1]) + if IsFailure(p, h, |h| - 1) then 1 else 0
  }

  /** A fallback was active since the bank was last clear. */
  predicate FallbackSince(p: Policy, h: seq<Observation>)
    decreases |h|
  {
    h != [] && !IsCleared(p, h, |h| - 1) && (h[|h| - 1].fallbackActive || FallbackSince(p, h[..|h| - 1]))
  }

  /** Enough failed minutes, or a fallback. */
  predicate BlockIsDue(p: Policy, h: seq<Observation>) {
    FallbackSince(p, h) || (FailedMinutes(p, h) > 0 && FailedMinutes(p, h) >= p.threshold)
  }

  // ---------------------------------------------------------------- one call

  predicate Regular(m: Monitor) {
    && (m.view.reason == Ok <==> m.view.trust != Untrusted)
    && (m.view.trust == Trusted ==> !m.blocked)
    && (m.minute.Some? ==> (m.minuteFailed <==> m.view.reason != Ok))
    && (m.since.None? ==> m.recoveryRead.None? && m.recoveryMinute.None? && !m.ready)
    && (m.since.Some? ==>
        && m.minute.Some? && m.blocked && !m.minuteFailed
        && m.recoveryMinute == m.minute && m.recoveryRead == m.readAt)
  }

  /** One call, without its history: failures and blocking. */
  predicate Blocks(p: Policy, m: Monitor, o: Observation, v: Monitor) {
    var counted := m.minute != Some(Minute(o.now));
    var failed := o.counts && v.view.reason != Ok && (counted || m.view.reason == Ok);
    var cleared := counted && v.view.trust == Trusted;
    && v.failures == (if cleared then 0 else if failed then m.failures + 1 else m.failures)
    && v.blocked == (!cleared && (m.blocked || o.fallbackActive || (failed && v.failures >= p.threshold)))
  }

  /** The start of a recovery that this call continues or begins. */
  function StartOf(m: Monitor, o: Observation): int {
    if m.since.Some? && m.recoveryMinute == Some(Minute(o.now) - 1) then m.since.value else o.now
  }

  /** One call, without its history: recovery. */
  predicate Recovers(p: Policy, m: Monitor, o: Observation, v: Monitor) {
    var counted, newer := m.minute != Some(Minute(o.now)), IsFresh(m.readAt, o.readAt);
    var passed := v.view.reason == Ok;
    && v.since == (if !passed || !v.blocked then None else if !counted then m.since
                   else if newer then Some(StartOf(m, o)) else None)
    && v.ready == (v.since.Some? && if counted then o.now - v.since.value >= p.recovery else m.ready)
    && (m.blocked || o.fallbackActive ==>
          (!v.blocked <==> counted && newer && passed && !o.fallbackActive && o.now - StartOf(m, o) >= p.recovery))
  }

  lemma CallBlocks(p: Policy, m: Monitor, o: Observation)
    requires Regular(m)
    ensures var v := Observed(m, o, p); Blocks(p, m, o, v) && Recovers(p, m, o, v) && Regular(v)
  {
    var newer := IsFresh(m.readAt, o.readAt);
    var f := if o.fallbackActive then m.(blocked := true) else m;
    if m.minute != Some(Minute(o.now)) {
      var c := f.(minute := Some(Minute(o.now)));
      var (judged, result) := Judged(c, o, newer, p);
      JudgementIsLocal(c, o, newer, p);
      ConclusionBlocks(p, m, judged, o, newer, result);
    }
  }

  lemma ConclusionBlocks(p: Policy, m: Monitor, j: Monitor, o: Observation, newer: bool, result: BankTrust)
    requires Regular(m) && newer == IsFresh(m.readAt, o.readAt) && m.minute != Some(Minute(o.now)) == j.minute
    requires j.readAt == if newer then o.readAt else m.readAt
    requires j.failures == m.failures && j.blocked == (m.blocked || o.fallbackActive)
    requires (j.since, j.recoveryRead, j.recoveryMinute, j.ready)
      == (m.since, m.recoveryRead, m.recoveryMinute, m.ready)
    requires (result.reason == Ok <==> result.trust == Trusted) && result.trust != Recovering
    ensures
      var v := Concluded(j, o, newer, result, p);
      Blocks(p, m, o, v) && Recovers(p, m, o, v) && Regular(v)
  {
  }

  // ---------------------------------------------------------------- blocking

  lemma {:induction false} StaysRegular(p: Policy, h: seq<Observation>)
    ensures
      var m := After(p, h);
      Regular(m) && m.minute == (if h == [] then None else Some(Minute(h[|h| - 1].now))) && m.readAt == LastRead(h)
    decreases |h|
  {
    if h != [] {
      StaysRegular(p, h[..|h| - 1]);
      CallBlocks(p, After(p, h[..|h| - 1]), h[|h| - 1]);
      HistoryKeepsInv(p, h);
    }
  }

  lemma PublishedLast(p: Policy, h: seq<Observation>)
    requires h != []
    ensures Published(p, h, |h| - 1) == After(p, h).view
    ensures |h| > 1 ==> Published(p, h, |h| - 2) == After(p, h[..|h| - 1]).view
  {
    assert h[..|h|] == h;
  }

  /** Over every history: the failures are the failed wall minutes since the bank was last
      clear, and it is blocked exactly when they reached the policy's threshold, or a
      fallback was active, since then. */
  lemma {:induction false} BlockedExactlyWhenDue(p: Policy, h: seq<Observation>)
    ensures After(p, h).failures == FailedMinutes(p, h)
    ensures After(p, h).blocked <==> BlockIsDue(p, h)
    decreases |h|
  {
    if h != [] {
      var before := h[..|h| - 1];
      BlockedExactlyWhenDue(p, before);
      StaysRegular(p, before);
      PublishedLast(p, h);
      CallBlocks(p, After(p, before), h[|h| - 1]);
    }
  }

  /** Calls that start in different minutes, each with a failure, and nothing clear between. */
  predicate FailInARow(p: Policy, h: seq<Observation>, ks: seq<nat>) {
    && (forall i :: 0 <= i < |ks| ==> ks[i] < |h| && IsFailure(p, h, ks[i]))
    && (forall i, j :: 0 <= i < j < |ks| ==> ks[i] < ks[j])
    && (ks != [] ==> forall k :: ks[0] <= k < |h| ==> !IsCleared(p, h, k))
  }

  lemma OfPrefix(p: Policy, h: seq<Observation>, n: nat, k: nat)
    requires k < n <= |h|
    ensures IsFailure(p, h, k) == IsFailure(p, h[..n], k) && IsCleared(p, h, k) == IsCleared(p, h[..n], k)
  {
    var before := h[..n];
    assert before[..k + 1] == h[..k + 1];
    assert k > 0 ==> before[..k] == h[..k];
  }

  /** The failed ones of the first n calls, since the last clear one. */
  function CountSince(failed: set<nat>, clear: set<nat>, n: nat): nat {
    if n == 0 || n - 1 in clear then 0
    else CountSince(failed, clear, n - 1) + if n - 1 in failed then 1 else 0
  }

  predicate Row(failed: set<nat>, clear: set<nat>, n: nat, ks: seq<nat>) {
    && (forall i :: 0 <= i < |ks| ==> ks[i] < n && ks[i] in failed)
    && (forall i, j :: 0 <= i < j < |ks| ==> ks[i] < ks[j])
    && (ks != [] ==> forall k :: ks[0] <= k < n ==> k !in clear)
  }

  lemma {:induction false} RowIsCounted(failed: set<nat>, clear: set<nat>, n: nat, ks: seq<nat>)
    requires Row(failed, clear, n, ks)
    ensures CountSince(failed, clear, n) >= |ks|
    decreases n
  {
    if ks != [] {
      assert ks[0] < n;
      var last := ks[|ks| - 1];
      RowIsCounted(failed, clear, n - 1, if last == n - 1 then ks[..|ks| - 1] else ks);
    }
  }

  lemma {:induction false} MinutesAreCounted(
      p: Policy, h: seq<Observation>, n: nat, failed: set<nat>, clear: set<nat>)
    requires n <= |h| && forall k: nat :: k < |h| ==> (k in failed <==> IsFailure(p, h, k))
    requires forall k: nat :: k < |h| ==> (k in clear <==> IsCleared(p, h, k))
    ensures FailedMinutes(p, h[..n]) == CountSince(failed, clear, n)
    decreases n
  {
    if n > 0 {
      MinutesAreCounted(p, h, n - 1, failed, clear);
      OfPrefix(p, h, n, n - 1);
      assert h[..n][..n - 1] == h[..n - 1];
    }
  }

  lemma FailuresAreCounted(p: Policy, h: seq<Observation>, ks: seq<nat>)
    requires FailInARow(p, h, ks)
    ensures FailedMinutes(p, h) >= |ks|
  {
    var failed := set k: nat | k < |h| && IsFailure(p, h, k);
    var clear := set k: nat | k < |h| && IsCleared(p, h, k);
    MinutesAreCounted(p, h, |h|, failed, clear);
    assert h[..|h|] == h;
    RowIsCounted(failed, clear, |h|, ks);
  }

  /** Failed minutes up to the threshold, with none clear between, block the bank, and the
      fallback is requested until a recovery is ready: at once on a failed call. */
  lemma ThresholdRequestsFallback(p: Policy, h: seq<Observation>, ks: seq<nat>)
    requires FailInARow(p, h, ks) && |ks| > 0 && |ks| >= p.threshold
    ensures After(p, h).blocked
    ensures Published(p, h, |h| - 1).reason != Ok ==> !After(p, h).ready
  {
    FailuresAreCounted(p, h, ks);
    BlockedExactlyWhenDue(p, h);
    StaysRegular(p, h);
    PublishedLast(p, h);
  }

  // ---------------------------------------------------------------- recovery

  /** Call k leaves the bank blocked and passed, on a newer read where it is the counted one. */
  predicate StillRecovering(p: Policy, h: seq<Observation>, k: nat)
    requires k < |h|
  {
    After(p, h[..k + 1]).blocked && Published(p, h, k).reason == Ok && (Counted(h, k) ==> FreshAt(h, k))
  }

  /** Recovery since call `start`: no failed call, and no wall minute skipped. */
  predicate Unbroken(p: Policy, h: seq<Observation>, start: nat) {
    && start < |h| && Counted(h, start)
    && (forall k :: start <= k < |h| ==> StillRecovering(p, h, k))
    && (forall k :: start < k < |h| ==> NextMinute(h, k))
  }

  /** An unbroken recovery that lasted the policy's span at the last counted call. */
  ghost predicate SpanIsMet(p: Policy, h: seq<Observation>) {
    h != [] && exists start: nat :: Unbroken(p, h, start) && h[LastCounted(h)].now - h[start].now >= p.recovery
  }

  lemma StillOfPrefix(p: Policy, h: seq<Observation>, o: Observation, k: nat)
    requires k < |h|
    ensures StillRecovering(p, h + [o], k) == StillRecovering(p, h, k) && Counted(h + [o], k) == Counted(h, k)
  {
    assert (h + [o])[..k + 1] == h[..k + 1];
    EarlierCallsKeep(h, o, k);
  }

  lemma UnbrokenGrows(p: Policy, h: seq<Observation>, o: Observation, start: nat)
    requires start < |h|
    ensures Unbroken(p, h + [o], start) <==>
      Unbroken(p, h, start) && StillRecovering(p, h + [o], |h|) && NextMinute(h + [o], |h|)
  {
    var g := h + [o];
    forall k: nat | k < |h|
      ensures StillRecovering(p, g, k) == StillRecovering(p, h, k) && Counted(g, k) == Counted(h, k)
    {
      StillOfPrefix(p, h, o, k);
    }
    forall k: nat | 0 < k < |h| ensures NextMinute(g, k) == NextMinute(h, k) {
    }
    if Unbroken(p, g, start) {
      forall k | start <= k < |h| ensures StillRecovering(p, h, k) {
        assert StillRecovering(p, g, k);
      }
      forall k | start < k < |h| ensures NextMinute(h, k) {
        assert NextMinute(g, k);
      }
    }
  }

  /** The calls a recovery can be told from. */
  ghost function Starts(p: Policy, h: seq<Observation>): set<nat> {
    set start: nat | start < |h| && Unbroken(p, h, start)
  }

  ghost predicate IsFirst(starts: set<nat>, start: nat) {
    start in starts && forall s :: s in starts ==> start <= s
  }

  ghost predicate BeganAt(starts: set<nat>, h: seq<Observation>, start: nat, since: Option<int>) {
    start < |h| && IsFirst(starts, start) && since == Some(h[start].now)
  }

  /** The recovery under way began at the first of them. */
  ghost predicate SinceTells(p: Policy, h: seq<Observation>, starts: set<nat>, m: Monitor) {
    && (m.since.None? ==> starts == {})
    && (m.since.Some? ==> exists start: nat :: BeganAt(starts, h, start, m.since))
    && (m.since.Some? ==> h != [] && m.ready == (h[LastCounted(h)].now - m.since.value >= p.recovery))
  }

  lemma {:induction false} MinutesRise(p: Policy, h: seq<Observation>, start: nat, s: nat)
    requires Unbroken(p, h, start) && start <= s < |h|
    ensures Minute(h[start].now) <= Minute(h[s].now)
    ensures start < s && Counted(h, s) ==> h[start].now <= h[s].now
    decreases s
  {
    if start < s {
      MinutesRise(p, h, start, s - 1);
      assert NextMinute(h, s);
    }
  }

  lemma CallTells(p: Policy, h: seq<Observation>, o: Observation)
    requires SinceTells(p, h, Starts(p, h), After(p, h))
    ensures SinceTells(p, h + [o], Starts(p, h + [o]), After(p, h + [o]))
  {
    var g, m := h + [o], After(p, h);
    var v, before, after := After(p, g), Starts(p, h), Starts(p, g);
    AfterAppend(p, h, o);
    StaysRegular(p, h);
    CallBlocks(p, m, o);
    PublishedLast(p, g);
    assert g[..|h|] == h && g[..|g|] == g;
    forall s: nat | s < |h|
      ensures s in after <==> s in before && StillRecovering(p, g, |h|) && NextMinute(g, |h|)
    {
      UnbrokenGrows(p, h, o, s);
    }
    assert |h| in after <==> Counted(g, |h|) && StillRecovering(p, g, |h|);
    if h != [] && !Counted(g, |h|) {
      SameLastCounted(h, o);
    }
    var still := StillRecovering(p, g, |h|);
    assert still <==> v.blocked && v.view.reason == Ok
                      && (m.minute != Some(Minute(o.now)) ==> IsFresh(m.readAt, o.readAt));
    SinceFollows(p, h, o, m, v, before, after, still);
  }

  /** One call, told by the calls a recovery can be told from before it and after it. */
  lemma SinceFollows(p: Policy, h: seq<Observation>, o: Observation, m: Monitor, v: Monitor,
                     before: set<nat>, after: set<nat>, still: bool)
    requires SinceTells(p, h, before, m) && Recovers(p, m, o, v) && Regular(m)
    requires m.minute == if h == [] then None else Some(Minute(h[|h| - 1].now))
    requires still <==>
      && v.blocked && v.view.reason == Ok
      && (m.minute != Some(Minute(o.now)) ==> IsFresh(m.readAt, o.readAt))
    requires forall s: nat :: s < |h| ==> (s in after <==> s in before && still && NextMinute(h + [o], |h|))
    requires |h| in after <==> Counted(h + [o], |h|) && still
    requires (forall s :: s in before ==> s < |h|) && (forall s :: s in after ==> s <= |h|)
    requires LastCounted(h + [o]) == if Counted(h + [o], |h|) then |h| else LastCounted(h)
    ensures SinceTells(p, h + [o], after, v)
  {
    var g := h + [o];
    assert forall k :: 0 <= k < |h| ==> g[k] == h[k];
    if !still {
      assert after == {};
    } else if !Counted(g, |h|) {
      assert after == before;
      if m.since.Some? {
        var start: nat :| BeganAt(before, h, start, m.since);
        assert BeganAt(after, g, start, v.since);
      }
    } else if m.since.Some? && NextMinute(g, |h|) {
      ContinuesFrom(h, o, m);
      var start: nat :| BeganAt(before, h, start, m.since);
      assert BeganAt(after, g, start, v.since);
    } else {
      ContinuesFrom(h, o, m);
      assert BeganAt(after, g, |h|, v.since);
    }
  }

  /** The counted call of the next minute continues a recovery, any other begins one. */
  lemma ContinuesFrom(h: seq<Observation>, o: Observation, m: Monitor)
    requires Regular(m) && m.minute == (if h == [] then None else Some(Minute(h[|h| - 1].now)))
    requires Counted(h + [o], |h|)
    ensures StartOf(m, o) == if m.since.Some? && NextMinute(h + [o], |h|) then m.since.value else o.now
  {
  }

  lemma {:induction false} HistoryTells(p: Policy, h: seq<Observation>)
    ensures SinceTells(p, h, Starts(p, h), After(p, h))
    decreases |h|
  {
    if h != [] {
      HistoryTells(p, h[..|h| - 1]);
      CallTells(p, h[..|h| - 1], h[|h| - 1]);
      assert h[..|h| - 1] + [h[|h| - 1]] == h;
    } else {
      assert Starts(p, h) == {};
    }
  }

  /** Over every history: recovery is ready exactly when an unbroken recovery has lasted the
      policy's span. */
  lemma ReadyExactlyWhen(p: Policy, h: seq<Observation>)
    ensures After(p, h).ready <==> SpanIsMet(p, h)
  {
    HistoryTells(p, h);
    StaysRegular(p, h);
    SpanIsSince(p, h, Starts(p, h), After(p, h));
  }

  lemma SpanIsSince(p: Policy, h: seq<Observation>, starts: set<nat>, m: Monitor)
    requires starts == Starts(p, h) && SinceTells(p, h, starts, m) && (m.since.None? ==> !m.ready)
    ensures m.ready <==> SpanIsMet(p, h)
  {
    if m.since.Some? {
      var first: nat :| BeganAt(starts, h, first, m.since);
      assert Unbroken(p, h, first);
      forall start: nat | Unbroken(p, h, start) ensures h[first].now <= h[start].now {
        assert start in starts;
        MinutesRise(p, h, first, start);
      }
    } else {
      forall start: nat ensures !Unbroken(p, h, start) {
        assert start !in starts;
      }
    }
  }

  /** The calls before this one, and it, are a recovery of the policy's span. */
  ghost predicate Completes(p: Policy, h: seq<Observation>, o: Observation) {
    0 >= p.recovery || exists start: nat :: CompletesFrom(p, h, o, start)
  }

  predicate CompletesFrom(p: Policy, h: seq<Observation>, o: Observation, start: nat) {
    h != [] && NextMinute(h + [o], |h|) && Unbroken(p, h, start) && o.now - h[start].now >= p.recovery
  }

  /** Over every history: a blocked bank is cleared by exactly the counted call that passes
      on a newer read, with no fallback active, and completes a recovery of the policy's
      span. */
  lemma BlockLiftsExactlyWhen(p: Policy, h: seq<Observation>, o: Observation)
    requires After(p, h).blocked || o.fallbackActive
    ensures
      var g := h + [o];
      !After(p, g).blocked <==>
        && Counted(g, |h|) && FreshAt(g, |h|) && Published(p, g, |h|).reason == Ok
        && !o.fallbackActive && Completes(p, h, o)
  {
    var g := h + [o];
    assert g[..|h|] == h;
    AfterAppend(p, h, o);
    PublishedLast(p, g);
    HistoryTells(p, h);
    StaysRegular(p, h);
    CallBlocks(p, After(p, h), o);
    if Counted(g, |h|) {
      StartCompletes(p, h, o, After(p, h));
    }
  }

  lemma StartCompletes(p: Policy, h: seq<Observation>, o: Observation, m: Monitor)
    requires SinceTells(p, h, Starts(p, h), m) && Regular(m) && Counted(h + [o], |h|)
    requires m.minute == if h == [] then None else Some(Minute(h[|h| - 1].now))
    ensures Completes(p, h, o) <==> o.now - StartOf(m, o) >= p.recovery
  {
    if m.since.None? {
      NothingToComplete(p, h, o);
    } else if !NextMinute(h + [o], |h|) {
      NothingToComplete(p, h, o);
      assert m.recoveryMinute != Some(Minute(o.now) - 1);
    } else {
      var first: nat :| BeganAt(Starts(p, h), h, first, m.since);
      MinutesRise(p, h, first, |h| - 1);
      LaterMinute(h[|h| - 1].now, o.now);
      FirstCompletes(p, h, o, first);
      assert StartOf(m, o) == h[first].now;
    }
  }

  lemma NothingToComplete(p: Policy, h: seq<Observation>, o: Observation)
    requires h != [] && NextMinute(h + [o], |h|) ==> Starts(p, h) == {}
    ensures Completes(p, h, o) <==> 0 >= p.recovery
  {
    forall start: nat ensures !CompletesFrom(p, h, o, start) {
      assert CompletesFrom(p, h, o, start) ==> start in Starts(p, h);
    }
  }

  lemma LaterMinute(a: int, b: int)
    requires Minute(a) < Minute(b)
    ensures forall x: int :: Minute(x) <= Minute(a) ==> x <= b
  {
  }

  lemma FirstCompletes(p: Policy, h: seq<Observation>, o: Observation, first: nat)
    requires IsFirst(Starts(p, h), first) && h[first].now <= o.now && NextMinute(h + [o], |h|)
    ensures Completes(p, h, o) <==> o.now - h[first].now >= p.recovery
  {
    if o.now - h[first].now >= p.recovery {
      assert CompletesFrom(p, h, o, first);
    }
    forall start: nat | CompletesFrom(p, h, o, start) ensures o.now - h[first].now >= p.recovery {
      assert start in Starts(p, h);
      MinutesRise(p, h, first, start);
    }
  }

  // ---------------------------------------------------------------- which calls pass

  /** What is known of the previous call's reading is still good. */
  predicate StillYoung(p: Policy, view: BankTrust, now: int) {
    && view.reason == Ok && view.value.Some? && 0.0 <= view.value.value <= 100.0
    && view.readAt.Some? && view.readAt.value <= now && now - view.readAt.value <= p.maxAge
  }

  /** A call passes exactly when: as the counted one with a newer read, that read is in
      range, in age and plausible; without one, the published reading passed and is still
      young; as a further one, it found no failure. Validation is needed in each case. */
  lemma PassesExactlyWhen(p: Policy, m: Monitor, o: Observation)
    requires m.energy >= 0.0 && Regular(m)
    ensures
      var counted := m.minute != Some(Minute(o.now));
      Observed(m, o, p).view.reason == Ok <==>
        if counted && IsFresh(m.readAt, o.readAt) then Passes(p, o) && Plausible(m, o)
        else o.valid && if counted then StillYoung(p, m.view, o.now) else m.view.reason == Ok
  {
    AddsEnergy(m, o);
    if m.minute != Some(Minute(o.now)) {
      var f := if o.fallbackActive then m.(blocked := true) else m;
      var c := f.(minute := Some(Minute(o.now)));
      var newer := IsFresh(m.readAt, o.readAt);
      if newer && o.value.Number? && o.capacity > 0.0 && m.baseline.Some? {
        FreshJudgedExactly(p, c, o, Explained(Integrated(m, o), o.capacity));
      }
      var (judged, result) := Judged(c, o, newer, p);
      ConclusionPasses(p, judged, o, newer, result);
    }
  }

  lemma ConclusionPasses(p: Policy, j: Monitor, o: Observation, newer: bool, result: BankTrust)
    ensures Concluded(j, o, newer, result, p).view.reason == Ok <==> o.valid && result.reason == Ok
  {
  }
}
