/** The monitor as it runs, one bank at a time. */
module SocMonitoring {
  import opened Basics
  import opened SocBlocking
  import opened SocTrust

  class SocMonitor {
    const policy: Policy
    var view: BankTrust
    var failures: nat
    var minute: Option<int>
    var minuteFailed: bool
    var readAt: Option<int>
    var baseline: Option<real>
    var energy: real
    var powerAt: Option<int>
    var power: Option<real>
    var rejected: Option<real>
    var blocked: bool
    var since: Option<int>
    var recoveryRead: Option<int>
    var recoveryMinute: Option<int>
    var ready: bool
    ghost var history: seq<Observation>

    ghost function State(): Monitor
      reads this
    {
      Monitor(view, failures, minute, minuteFailed, readAt, baseline, energy, powerAt, power, rejected,
              blocked, since, recoveryRead, recoveryMinute, ready)
    }

    /** The fields are what the whole history of calls makes of them. */
    ghost predicate Valid()
      reads this
    {
      State() == After(policy, history)
    }

    constructor (p: Policy)
      ensures Valid() && policy == p && history == []
    {
      policy := p;
      view, failures, minute, minuteFailed, readAt := NEW.view, 0, None, false, None;
      baseline, energy, powerAt, power, rejected := None, 0.0, None, None, None;
      blocked, since, recoveryRead, recoveryMinute, ready := false, None, None, None, false;
      history := [];
    }

    function FallbackRequested(): bool
      reads this
    {
      blocked && !ready
    }

    function IncreasesAllowed(): bool
      reads this
    {
      view.trust == Trusted
    }

    method ResetRecovery()
      modifies this
      ensures State() == RecoveryReset(old(State())) && history == old(history)
    {
      since, recoveryRead, recoveryMinute, ready := None, None, None, false;
    }

    method Fail(counts: bool)
      modifies this
      ensures State() == Failed(old(State()), counts, policy) && history == old(history)
    {
      if counts {
        failures := failures + 1;
        blocked := blocked || failures >= policy.threshold;
      }
      ResetRecovery();
    }

    method Integrate(o: Observation)
      modifies this
      ensures State() == old(State()).(energy := Integrated(old(State()), o), powerAt := Some(o.now), power := o.power)
      ensures history == old(history)
    {
      if powerAt.Some? && power.Some? && o.power.Some? {
        var elapsed := if o.now < powerAt.value then 0 else o.now - powerAt.value;
        energy := energy + Trapezoid(Abs(power.value), Abs(o.power.value), elapsed as real);
      }
      powerAt, power := Some(o.now), o.power;
    }

    method JudgeFresh(o: Observation) returns (result: BankTrust)
      modifies this
      ensures (State(), result) == FreshJudged(old(State()), o, policy) && history == old(history)
    {
      Integrate(o);
      var first := CheckSoc(o.value, o.readAt, o.now, policy.maxAge, baseline,
                            if o.power.Some? then Some(energy) else None, o.capacity);
      result := Settle(first, o);
    }

    method Settle(first: BankTrust, o: Observation) returns (result: BankTrust)
      modifies this
      ensures (State(), result) == Settled(old(State()), first, o, policy) && history == old(history)
    {
      result := first;
      if result.reason == Implausible && result.value != baseline {
        if result.value == rejected {
          result := CheckSoc(o.value, o.readAt, o.now, policy.maxAge, None, None, 0.0);
        }
        rejected := if result.reason != Ok then result.value else None;
      } else {
        rejected := None;
      }
      if result.reason == Ok && result.value != baseline {
        baseline, energy := result.value, 0.0;
      }
      readAt := o.readAt;
    }

    method JudgeRepeat(o: Observation) returns (result: BankTrust)
      modifies this
      ensures (State(), result) == RepeatJudged(old(State()), o, policy) && history == old(history)
    {
      rejected := None;
      if o.power.None? {
        powerAt, power := Some(o.now), None;
      }
      var value := if view.value.Some? then Number(view.value.value) else NoValue;
      result := CheckSoc(value, view.readAt, o.now, policy.maxAge, None, None, 0.0);
      if result.reason == Ok && view.reason != Ok {
        result := BankTrust(result.value, result.readAt, Untrusted, view.reason);
      }
    }

    method Conclude(o: Observation, newer: bool, judged: BankTrust)
      modifies this
      ensures State() == Concluded(old(State()), o, newer, judged, policy) && history == old(history)
    {
      var result := judged;
      if !o.valid {
        result := BankTrust(result.value, result.readAt, Untrusted, ReadFailed);
      }
      minuteFailed := result.reason != Ok;
      if result.reason != Ok {
        Fail(o.counts);
        view := result;
      } else if blocked {
        Recover(o, newer, result);
      } else {
        failures, view := 0, result;
      }
    }

    method Progress(o: Observation, newer: bool)
      modifies this
      ensures State() == Progressed(old(State()), o, newer, policy) && history == old(history)
    {
      var m := Minute(o.now);
      if !newer || (recoveryMinute.Some? && recoveryMinute.value != m - 1)
        || (recoveryRead.Some? && o.readAt.Some? && o.readAt.value <= recoveryRead.value)
      {
        ResetRecovery();
      }
      if newer {
        if since.None? {
          since := Some(o.now);
        }
        recoveryRead, recoveryMinute := o.readAt, Some(m);
        ready := o.now - since.value >= policy.recovery;
      }
    }

    method Recover(o: Observation, newer: bool, judged: BankTrust)
      modifies this
      ensures State() == Recovered(old(State()), o, newer, judged, policy)
      ensures history == old(history)
    {
      Progress(o, newer);
      if ready && !o.fallbackActive {
        blocked, failures := false, 0;
        ResetRecovery();
        view := judged;
      } else {
        view := BankTrust(judged.value, judged.readAt, Recovering, Ok);
      }
    }

    method RepeatMinute(o: Observation)
      modifies this
      ensures State() == SameMinute(old(State()), o, policy) && history == old(history)
    {
      if o.fallbackActive && view.trust == Trusted {
        view := BankTrust(view.value, view.readAt, Recovering, Ok);
      }
      if !o.valid {
        view := BankTrust(view.value, view.readAt, Untrusted, ReadFailed);
        if !minuteFailed {
          minuteFailed, rejected := true, None;
          Fail(o.counts);
        }
      }
    }

    method CountMinute(o: Observation)
      modifies this
      ensures State() == NewMinute(old(State()), o, policy) && history == old(history)
    {
      var newer := IsFresh(readAt, o.readAt);
      minute := Some(Minute(o.now));
      var judged: BankTrust;
      if newer {
        judged := JudgeFresh(o);
      } else {
        judged := JudgeRepeat(o);
      }
      Conclude(o, newer, judged);
    }

    method ObserveOnce(o: Observation)
      modifies this
      ensures State() == Observed(old(State()), o, policy) && history == old(history)
    {
      if o.fallbackActive {
        blocked := true;
      }
      if minute == Some(Minute(o.now)) {
        RepeatMinute(o);
      } else {
        CountMinute(o);
      }
    }

    method Observe(o: Observation) returns (result: BankTrust)
      requires Valid()
      modifies this
      ensures Valid() && history == old(history) + [o] && result == view
      ensures TrustIsEarned(policy, history, State()) && (FallbackRequested() ==> !IncreasesAllowed())
      ensures failures == FailedMinutes(policy, history)
      ensures FallbackRequested() <==> BlockIsDue(policy, history) && !SpanIsMet(policy, history)
    {
      ghost var before := history;
      ObserveOnce(o);
      result := view;
      history := history + [o];
      AfterAppend(policy, before, o);
      TrustedMeansSound(policy, history);
      BlockedExactlyWhenDue(policy, history);
      ReadyExactlyWhen(policy, history);
    }
  }
}
