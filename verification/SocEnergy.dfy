/** The baseline of a state of charge and the energy integrated since: what each call of the
    monitor makes of them, and what they are after any history. */
module SocEnergy {
  import opened Basics
  import opened SocTrust

  /** Kilowatt hours between two power samples, the clock never counting backwards. */
  function Between(a: real, b: real, from: int, to: int): real {
    var size := (if a < 0.0 then -a else a) + (if b < 0.0 then -b else b);
    size / 2.0 * (if to < from then 0.0 else (to - from) as real) / 3_600_000_000_000.0
  }

  // ---------------------------------------------------------------- one fresh call

  /** The energy a fresh call is judged against. */
  function Reaches(m: Monitor, o: Observation): real {
    m.energy + if m.powerAt.Some? && m.power.Some? && o.power.Some?
               then Between(m.power.value, o.power.value, m.powerAt.value, o.now) else 0.0
  }

  lemma ReachesIsIntegrated(m: Monitor, o: Observation)
    ensures Integrated(m, o) == Reaches(m, o)
  {
  }

  /** A percentage that was read, and not in the future. */
  predicate IsReading(o: Observation) {
    o.value.Number? && 0.0 <= o.value.v <= 100.0 && o.readAt.Some? && o.readAt.value <= o.now
  }

  predicate IsYoung(p: Policy, o: Observation)
    requires o.readAt.Some?
  {
    o.now - o.readAt.value <= p.maxAge
  }

  /** There is a baseline to judge by, and energy and capacity to judge with. */
  predicate IsJudged(m: Monitor, o: Observation) {
    m.baseline.Some? && o.power.Some? && o.capacity > 0.0
  }

  /** The value moved more than two points further than the energy explains. */
  predicate IsFar(m: Monitor, o: Observation, percent: real)
    requires o.value.Number?
  {
    IsJudged(m, o) && (o.value.v > m.baseline.value + percent + 2.0 || o.value.v < m.baseline.value - percent - 2.0)
  }

  /** The value did not move though the energy explains more than two points. */
  predicate IsStuck(m: Monitor, o: Observation, percent: real)
    requires o.value.Number?
  {
    IsJudged(m, o) && o.value.v == m.baseline.value && percent > 2.0
  }

  /** The points that energy is worth; of no account without a capacity. */
  function Percent(energy: real, capacity: real): real {
    if capacity > 0.0 then energy / capacity * 100.0 else 0.0
  }

  predicate IsAccepted(p: Policy, m: Monitor, o: Observation, percent: real) {
    && IsReading(o) && IsYoung(p, o) && !IsStuck(m, o, percent)
    && (!IsFar(m, o, percent) || m.rejected == Some(o.value.v))
  }

  /** The first call of a minute, with a newer read than any counted before. */
  predicate IsFreshCall(m: Monitor, o: Observation) {
    && m.minute != Some(Minute(o.now)) && o.readAt.Some?
    && (m.readAt.Some? ==> m.readAt.value < o.readAt.value)
  }

  lemma FarOrStuckIsUnexplained(v: real, baseline: real, percent: real)
    requires percent >= 0.0
    ensures Unexplained(v, baseline, percent) <==>
      || v > baseline + percent + 2.0 || v < baseline - percent - 2.0
      || (v == baseline && percent > 2.0)
  {
  }

  /** The first judgement of a fresh call. */
  lemma FirstJudgement(p: Policy, m: Monitor, o: Observation, energy: real, percent: real)
    requires o.readAt.Some? && energy >= 0.0 && percent == Percent(energy, o.capacity) && percent >= 0.0
    ensures
      var first := CheckSoc(o.value, o.readAt, o.now, p.maxAge, m.baseline,
                            if o.power.Some? then Some(energy) else None, o.capacity);
      && (first.reason == Implausible <==> IsReading(o) && (IsFar(m, o, percent) || IsStuck(m, o, percent)))
      && (IsReading(o) ==> first.value == Some(o.value.v))
      && (first.reason == Ok <==>
            IsReading(o) && IsYoung(p, o) && !IsFar(m, o, percent) && !IsStuck(m, o, percent))
  {
    if IsReading(o) && IsJudged(m, o) {
      FarOrStuckIsUnexplained(o.value.v, m.baseline.value, percent);
    }
  }

  /** What a fresh call makes of the judgement it ends with. */
  lemma JudgedCallSettles(p: Policy, m: Monitor, o: Observation, energy: real, percent: real)
    requires o.readAt.Some? && energy == Integrated(m, o) && energy >= 0.0
    requires percent == Percent(energy, o.capacity) && percent >= 0.0
    ensures
      var (j, result) := FreshJudged(m, o, p);
      var accepted := IsAccepted(p, m, o, percent);
      && (result.reason == Ok <==> accepted)
      && (accepted ==> result.value == Some(o.value.v))
      && j.baseline == (if accepted then Some(o.value.v) else m.baseline)
      && j.energy == (if accepted && m.baseline != Some(o.value.v) then 0.0 else energy)
      && j.rejected == (if IsReading(o) && IsFar(m, o, percent) && !accepted then Some(o.value.v) else None)
      && j.powerAt == Some(o.now) && j.power == o.power && j.readAt == o.readAt
  {
    FirstJudgement(p, m, o, energy, percent);
  }

  lemma PercentIsNotNegative(energy: real, capacity: real)
    requires energy >= 0.0
    ensures Percent(energy, capacity) >= 0.0
  {
    if capacity > 0.0 {
      assert energy / capacity >= 0.0;
    }
  }

  /** A fresh call takes a reading as the new baseline exactly when it is in time, moved no
      further than the energy explains, or twice in a row to the same value, and not stuck
      while energy flowed. A new baseline starts the energy over; a far reading that is not
      taken is the candidate the next call may confirm. */
  lemma FreshCallSettles(p: Policy, m: Monitor, o: Observation)
    requires IsFreshCall(m, o) && m.energy >= 0.0
    ensures
      var v := Observed(m, o, p);
      var energy := Reaches(m, o);
      var percent := Percent(energy, o.capacity);
      var accepted := IsAccepted(p, m, o, percent);
      && v.baseline == (if accepted then Some(o.value.v) else m.baseline)
      && v.energy == (if accepted && m.baseline != Some(o.value.v) then 0.0 else energy)
      && v.rejected == (if IsReading(o) && IsFar(m, o, percent) && !accepted then Some(o.value.v) else None)
      && v.powerAt == Some(o.now) && v.power == o.power && v.readAt == o.readAt
      && (v.view.reason == Ok <==> accepted && o.valid)
  {
    var energy := Reaches(m, o);
    ReachesIsIntegrated(m, o);
    AddsEnergy(m, o);
    PercentIsNotNegative(energy, o.capacity);
    var c := (if o.fallbackActive then m.(blocked := true) else m).(minute := Some(Minute(o.now)));
    JudgedCallSettles(p, c, o, energy, Percent(energy, o.capacity));
    var (j, result) := FreshJudged(c, o, p);
    ConclusionLeaves(p, j, o, true, result);
  }

  lemma ConclusionLeaves(p: Policy, j: Monitor, o: Observation, newer: bool, result: BankTrust)
    ensures
      var v := Concluded(j, o, newer, result, p);
      && (v.baseline, v.energy, v.rejected, v.readAt) == (j.baseline, j.energy, j.rejected, j.readAt)
      && (v.powerAt, v.power) == (j.powerAt, j.power)
      && (v.view.reason == Ok <==> result.reason == Ok && o.valid)
  {
  }

  /** A counted call without a newer read drops the candidate and, without a power, the last
      sample; nothing else of the baseline moves. A further call of the minute moves none. */
  lemma OtherCallsLeave(p: Policy, m: Monitor, o: Observation)
    requires !IsFreshCall(m, o)
    ensures
      var v := Observed(m, o, p);
      var counted := m.minute != Some(Minute(o.now));
      && (v.baseline, v.energy, v.readAt) == (m.baseline, m.energy, m.readAt)
      && (v.powerAt, v.power) == (if counted && o.power.None? then (Some(o.now), None) else (m.powerAt, m.power))
      && v.rejected == (if counted || (!o.valid && !m.minuteFailed) then None else m.rejected)
  {
    if m.minute != Some(Minute(o.now)) {
      var c := (if o.fallbackActive then m.(blocked := true) else m).(minute := Some(Minute(o.now)));
      var (j, result) := RepeatJudged(c, o, p);
      ConclusionLeaves(p, j, o, false, result);
    }
  }

  /** A judgement without a baseline names what is wrong with the reading, and shows a value
      exactly where it is a percentage. */
  lemma ReasonNamesTheFault(value: Value, readAt: Option<int>, now: int, maxAge: int)
    ensures
      var view := CheckSoc(value, readAt, now, maxAge, None, None, 0.0);
      var percentage := value.Number? && 0.0 <= value.v <= 100.0;
      && (view.reason == Unavailable <==> value.NoValue?)
      && (view.reason == MalformedValue <==> value.Garbled?)
      && (view.reason == NotFinite <==> value.Infinite?)
      && (view.reason == OutOfRange <==> value.Number? && !percentage)
      && (view.reason == TimeUnusable <==> percentage && readAt.None?)
      && (view.reason == TimeFuture <==> percentage && readAt.Some? && readAt.value > now)
      && (view.reason == Stale <==> percentage && readAt.Some? && readAt.value <= now && now - readAt.value > maxAge)
      && view.value == (if percentage then Some(value.v) else None) && view.readAt == readAt
      && (view.trust == Trusted <==> view.reason == Ok) && (view.trust == Untrusted <==> view.reason != Ok)
  {
  }

  /** Without a newer read the view stays as good as it was, until its read is over age: a
      fault is not outlived by its age, and a good read is not made to fail by it sooner. */
  lemma RepeatKeepsTheView(p: Policy, m: Monitor, o: Observation)
    requires m.view.value.Some? && 0.0 <= m.view.value.value <= 100.0
    requires m.view.readAt.Some? && m.view.readAt.value <= o.now
    ensures
      var view := RepeatJudged(m, o, p).1;
      && view.value == m.view.value && view.readAt == m.view.readAt
      && view.reason == (if o.now - m.view.readAt.value > p.maxAge then Stale else m.view.reason)
      && (view.trust == Trusted <==> view.reason == Ok)
  {
  }

  // ---------------------------------------------------------------- every history

  datatype Sample = Sample(at: int, power: Option<real>)

  /** The last power sample: every fresh call takes one, and a counted call that has none
      leaves a gap. */
  function LastSample(h: seq<Observation>): Option<Sample>
    decreases |h|
  {
    if h == [] then None
    else
      var o := h[|h| - 1];
      if FreshAt(h, |h| - 1) then Some(Sample(o.now, o.power))
      else if Counted(h, |h| - 1) && o.power.None? then Some(Sample(o.now, None))
      else LastSample(h[..|h| - 1])
  }

  /** The energy since the sample before, of a fresh call that has one. */
  function Segment(h: seq<Observation>): real
    requires h != []
  {
    var before, o := LastSample(h[..|h| - 1]), h[|h| - 1];
    if FreshAt(h, |h| - 1) && before.Some? && before.value.power.Some? && o.power.Some?
      then Between(before.value.power.value, o.power.value, before.value.at, o.now)
    else 0.0
  }

  /** The sum of those since the baseline last moved. */
  function EnergySince(p: Policy, h: seq<Observation>): real
    decreases |h|
  {
    if h == [] then 0.0
    else if After(p, h).baseline != After(p, h[..|h| - 1]).baseline then 0.0
    else EnergySince(p, h[..|h| - 1]) + Segment(h)
  }

  /** The monitor keeps these two of its history. */
  predicate Keeps(p: Policy, h: seq<Observation>, m: Monitor) {
    && m.energy == EnergySince(p, h)
    && (m.powerAt.Some? <==> LastSample(h).Some?)
    && (m.powerAt.Some? ==> LastSample(h) == Some(Sample(m.powerAt.value, m.power)))
  }

  lemma StepKeeps(p: Policy, h: seq<Observation>, m: Monitor, o: Observation)
    requires h != [] && h[|h| - 1] == o && m == After(p, h[..|h| - 1]) && Keeps(p, h[..|h| - 1], m)
    requires m.energy >= 0.0 && (IsFreshCall(m, o) <==> FreshAt(h, |h| - 1))
    requires Counted(h, |h| - 1) <==> m.minute != Some(Minute(o.now))
    ensures Keeps(p, h, Observed(m, o, p))
  {
    var v := Observed(m, o, p);
    assert After(p, h) == v;
    if IsFreshCall(m, o) {
      FreshCallSettles(p, m, o);
    } else {
      OtherCallsLeave(p, m, o);
    }
  }

  /** After every history the energy is the sum of the trapezoids between neighbouring
      samples since the baseline last moved. */
  lemma {:induction false} EnergyIsTheIntegral(p: Policy, h: seq<Observation>)
    ensures Keeps(p, h, After(p, h))
    decreases |h|
  {
    if h != [] {
      var before, o := h[..|h| - 1], h[|h| - 1];
      EnergyIsTheIntegral(p, before);
      EnergyIsNotNegative(p, before);
      HistoryKeepsInv(p, before);
      CallIsFreshExactlyWhen(p, h);
      StepKeeps(p, h, After(p, before), o);
    }
  }

  lemma CallIsFreshExactlyWhen(p: Policy, h: seq<Observation>)
    requires h != [] && Inv(p, h[..|h| - 1], After(p, h[..|h| - 1]))
    ensures
      var m, o := After(p, h[..|h| - 1]), h[|h| - 1];
      && (IsFreshCall(m, o) <==> FreshAt(h, |h| - 1))
      && (Counted(h, |h| - 1) <==> m.minute != Some(Minute(o.now)))
  {
  }
}
