/** Runs of requests and guard re-applies under constant allowances. */
module RecordedRuns {
  import opened Basics
  import opened ChargeClamp
  import opened ClampedWriting
  import opened RecordedWriting

  /** The allowance of the connection behind a bank, if it has one. */
  function AllowanceFor(t: Topology, allowances: map<nat, real>, bank: nat): Option<real> {
    if bank < |t.banks| then AllowanceOf(allowances, t.banks[bank].connection) else None
  }

  /** A request of the plan, or the guard's re-apply of the last one. */
  datatype Step = Ask(call: Call) | Reapply(again: Again)

  function StepAllowance(t: Topology, x: Step, allowances: map<nat, real>): Option<real> {
    match x
    case Ask(call) => AllowanceFor(t, allowances, call.bank)
    case Reapply(again) =>
      if again.inverter < |t.inverters| then AllowanceFor(t, allowances, t.inverters[again.inverter].bank) else None
  }

  /** The writes a step would send. */
  function StepSends(t: Topology, s: State, x: Step, allowances: map<nat, real>): seq<Write>
    requires t.Sane()
  {
    match x
    case Ask(call) => Sends(t, s, call, StepAllowance(t, x, allowances))
    case Reapply(again) => AgainSends(t, s, again, StepAllowance(t, x, allowances))
  }

  function Stepped(t: Topology, s: State, x: Step, allowances: map<nat, real>): State
    requires t.Sane()
  {
    match x
    case Ask(call) => Called(t, s, call, StepAllowance(t, x, allowances))
    case Reapply(again) => Reapplied(t, s, again, StepAllowance(t, x, allowances))
  }

  function Run(t: Topology, s: State, steps: seq<Step>, allowances: map<nat, real>): State
    requires t.Sane()
    decreases |steps|
  {
    if steps == [] then s else Run(t, Stepped(t, s, steps[0], allowances), steps[1..], allowances)
  }

  /** A run is its steps, one after the other. */
  lemma {:induction false} RunTakesEachStep(
      t: Topology, s: State, steps: seq<Step>, last: Step, allowances: map<nat, real>)
    requires t.Sane()
    ensures Run(t, s, steps + [last], allowances) == Stepped(t, Run(t, s, steps, allowances), last, allowances)
    decreases |steps|
  {
    if steps == [] {
      assert [last][1..] == [];
    } else {
      assert (steps + [last])[1..] == steps[1..] + [last];
      RunTakesEachStep(t, Stepped(t, s, steps[0], allowances), steps[1..], last, allowances);
    }
  }

  /** A re-apply lowers its inverter, or finds room for it beside what the others carry. */
  predicate FindsRoom(t: Topology, s: State, again: Again, allowanceKw: Option<real>)
    requires t.Sane()
  {
    forall w :: w in AgainSends(t, s, again, allowanceKw) ==>
      w.amps <= Held(s.device, w.id) || HasRoom(t, s.device, w.id, w.amps, allowanceKw)
  }

  /** What a step relies on when it begins. */
  predicate StepRelies(t: Topology, s: State, x: Step, allowances: map<nat, real>)
    requires t.Sane()
  {
    match x
    case Ask(call) => Relies(t, s, call)
    case Reapply(again) => FindsRoom(t, s, again, StepAllowance(t, x, allowances))
  }

  predicate ReliedOn(t: Topology, s: State, steps: seq<Step>, allowances: map<nat, real>)
    requires t.Sane()
    decreases |steps|
  {
    steps == [] || (
      && StepRelies(t, s, steps[0], allowances)
      && ReliedOn(t, Stepped(t, s, steps[0], allowances), steps[1..], allowances))
  }

  /** Every connection with an allowance draws at most that, every bank at most its limit. */
  predicate InBounds(t: Topology, device: Amps, allowances: map<nat, real>)
    requires t.Sane()
  {
    && (forall c :: c in allowances ==> Power(t, device, c) <= Current(allowances[c]))
    && (forall b :: 0 <= b < |t.banks| ==> BankCurrent(t, device, b) <= t.banks[b].limitA)
  }

  lemma {:induction false} NothingDraws(t: Topology, a: Amps, c: nat, b: nat, n: nat)
    requires t.Sane() && n <= |t.inverters| && forall i {:trigger Held(a, i)} :: 0 <= i < n ==> Held(a, i) == 0.0
    ensures PowerKw(t, a, c, n) == 0.0 && BankSum(t, a, b, n) == 0.0
  {
    if n > 0 {
      NothingDraws(t, a, c, b, n - 1);
    }
  }

  lemma EmptyIsInBounds(t: Topology, allowances: map<nat, real>)
    requires t.Sane()
    ensures InBounds(t, map[], allowances)
  {
    forall c | c in allowances ensures Power(t, map[], c) <= Current(allowances[c]) {
      NothingDraws(t, map[], c, 0, |t.inverters|);
    }
    forall b | 0 <= b < |t.banks| ensures BankCurrent(t, map[], b) <= t.banks[b].limitA {
      NothingDraws(t, map[], 0, b, |t.inverters|);
    }
  }

  /** Writes of one connection leave every other one alone. */
  lemma ElsewhereIsUntouched(t: Topology, device: Amps, sent: seq<Write>, c: nat, d: nat)
    requires t.Sane() && c != d && forall w :: w in sent ==> IsWriteOf(t, w, c)
    ensures Power(t, Applied(device, sent), d) == Power(t, device, d)
    ensures forall b :: 0 <= b < |t.banks| && t.banks[b].connection == d ==>
      BankCurrent(t, Applied(device, sent), b) == BankCurrent(t, device, b)
  {
    var now := Applied(device, sent);
    forall i {:trigger Held(now, i)} | 0 <= i < |t.inverters| && t.ConnectionOf(i) == d
      ensures Held(now, i) == Held(device, i)
    {
      AppliedValue(device, sent, i);
    }
    SameConnection(t, now, device, d, |t.inverters|);
  }

  lemma WithinKeepsBounds(t: Topology, device: Amps, sent: seq<Write>, c: nat, allowances: map<nat, real>)
    requires t.Sane() && InBounds(t, device, allowances) && forall w :: w in sent ==> IsWriteOf(t, w, c)
    requires Within(t, device, Applied(device, sent), c, AllowanceOf(allowances, c))
    ensures InBounds(t, Applied(device, sent), allowances)
  {
    var now := Applied(device, sent);
    forall d | d in allowances ensures Power(t, now, d) <= Current(allowances[d]) {
      if d != c {
        ElsewhereIsUntouched(t, device, sent, c, d);
      }
    }
    forall b | 0 <= b < |t.banks| ensures BankCurrent(t, now, b) <= t.banks[b].limitA {
      if t.banks[b].connection != c {
        ElsewhereIsUntouched(t, device, sent, c, t.banks[b].connection);
      }
    }
  }

  /** From within bounds, every state of a call it may rely on is within bounds. */
  lemma CallKeepsBounds(t: Topology, s: State, call: Call, allowances: map<nat, real>, k: nat)
    requires t.Sane() && Proper(t, s) && Relies(t, s, call) && InBounds(t, s.device, allowances)
    requires k <= |Sends(t, s, call, AllowanceFor(t, allowances, call.bank))|
    ensures InBounds(t, Applied(s.device, Sends(t, s, call, AllowanceFor(t, allowances, call.bank))[..k]), allowances)
  {
    var allowance := AllowanceFor(t, allowances, call.bank);
    var sent := Sends(t, s, call, allowance);
    if call.permits && call.bank < |t.banks| {
      CallIsSafe(t, Asked(s, call), s.written, s.device, call.inverter, call.bank, call.charge, allowance, k);
      CallSends(t, Asked(s, call), s.written, call.inverter, call.bank, call.charge, allowance);
      assert forall w :: w in sent[..k] ==> w in sent;
      WithinKeepsBounds(t, s.device, sent[..k], t.banks[call.bank].connection, allowances);
    } else {
      UnknownBankSendsNothing(t, s, call, allowance);
    }
  }

  /** A re-apply keeps its connection and bank within bounds exactly when it finds room. */
  lemma ReapplyIsSafeExactlyWhen(t: Topology, s: State, again: Again, allowanceKw: Option<real>)
    requires t.Sane()
    ensures
      var sent := AgainSends(t, s, again, allowanceKw);
      FindsRoom(t, s, again, allowanceKw) <==>
        (sent == [] || Within(t, s.device, Applied(s.device, sent), t.ConnectionOf(again.inverter), allowanceKw))
  {
    var sent := AgainSends(t, s, again, allowanceKw);
    if sent != [] {
      assert sent == [sent[0]] && sent[1..] == [];
      assert Applied(s.device, sent) == s.device[again.inverter := sent[0].amps];
      OneWriteIsWithinExactlyWhen(t, s.device, again.inverter, sent[0].amps, allowanceKw);
      assert sent[0] in sent;
    }
  }

  lemma StepKeepsBounds(t: Topology, s: State, x: Step, allowances: map<nat, real>, k: nat)
    requires t.Sane() && Proper(t, s) && StepRelies(t, s, x, allowances) && InBounds(t, s.device, allowances)
    requires k <= |StepSends(t, s, x, allowances)|
    ensures InBounds(t, Applied(s.device, StepSends(t, s, x, allowances)[..k]), allowances)
  {
    match x
    case Ask(call) => CallKeepsBounds(t, s, call, allowances, k);
    case Reapply(again) =>
      var allowance := StepAllowance(t, x, allowances);
      var sent := AgainSends(t, s, again, allowance);
      ReapplyIsSafeExactlyWhen(t, s, again, allowance);
      if k > 0 {
        assert sent[..k] == sent;
        WithinKeepsBounds(t, s.device, sent, t.ConnectionOf(again.inverter), allowances);
      }
  }

  lemma StepKeepsProper(t: Topology, s: State, x: Step, allowances: map<nat, real>)
    requires t.Sane() && Proper(t, s)
    ensures Proper(t, Stepped(t, s, x, allowances))
  {
    match x
    case Ask(call) => CallKeepsProper(t, s, call, StepAllowance(t, x, allowances));
    case Reapply(again) => AgainKeepsProper(t, s, again, StepAllowance(t, x, allowances));
  }

  /** How many of a step's writes reach the device. */
  function StepLanded(x: Step, n: nat): (k: nat)
    ensures k <= n
  {
    match x
    case Ask(call) => Landed(call, n)
    case Reapply(again) => if again.fails && !again.landed then 0 else n
  }

  lemma StepDevice(t: Topology, s: State, x: Step, allowances: map<nat, real>)
    requires t.Sane()
    ensures
      var sent := StepSends(t, s, x, allowances);
      Stepped(t, s, x, allowances).device == Applied(s.device, sent[..StepLanded(x, |sent|)])
  {
    var sent := StepSends(t, s, x, allowances);
    assert sent[..|sent|] == sent;
  }

  /** Under constant allowances, no state between any two writes of a run exceeds them, nor
      a bank's limit, as long as each call finds a record it may rely on and each re-apply
      finds room. */
  lemma {:induction false} RunStaysInBounds(
      t: Topology, s: State, steps: seq<Step>, allowances: map<nat, real>, m: nat, k: nat)
    requires t.Sane() && Proper(t, s) && InBounds(t, s.device, allowances) && ReliedOn(t, s, steps, allowances)
    requires m < |steps| && k <= |StepSends(t, Run(t, s, steps[..m], allowances), steps[m], allowances)|
    ensures
      var at := Run(t, s, steps[..m], allowances);
      InBounds(t, Applied(at.device, StepSends(t, at, steps[m], allowances)[..k]), allowances)
    decreases |steps|
  {
    if m == 0 {
      StepKeepsBounds(t, s, steps[0], allowances, k);
    } else {
      var next := Stepped(t, s, steps[0], allowances);
      StepKeepsProper(t, s, steps[0], allowances);
      StepDevice(t, s, steps[0], allowances);
      StepKeepsBounds(t, s, steps[0], allowances, StepLanded(steps[0], |StepSends(t, s, steps[0], allowances)|));
      assert steps[..m][0] == steps[0] && steps[..m][1..] == steps[1..][..m - 1];
      RunStaysInBounds(t, next, steps[1..], allowances, m - 1, k);
    }
  }

  // ---------------------------------------------------------------- from nothing written

  /** The intent names its inverter's own bank. */
  predicate NamesOwnBank(t: Topology, call: Call) {
    call.inverter < |t.inverters| && t.inverters[call.inverter].bank == call.bank
  }

  /** No write that raises has reached the device. */
  predicate IsHonest(t: Topology, x: Step) {
    match x
    case Ask(call) => NamesOwnBank(t, call) && !call.landed
    case Reapply(again) => !again.landed
  }

  /** Every re-apply of the run finds room when its turn comes. */
  predicate RoomThroughout(t: Topology, s: State, steps: seq<Step>, allowances: map<nat, real>)
    requires t.Sane()
    decreases |steps|
  {
    steps == [] || (
      && (steps[0].Reapply? ==> StepRelies(t, s, steps[0], allowances))
      && RoomThroughout(t, Stepped(t, s, steps[0], allowances), steps[1..], allowances))
  }

  lemma {:induction false} TrueRecordIsReliedOn(t: Topology, s: State, steps: seq<Step>, allowances: map<nat, real>)
    requires t.Sane() && s.written == s.device && RoomThroughout(t, s, steps, allowances)
    requires forall n :: 0 <= n < |steps| ==> IsHonest(t, steps[n])
    ensures ReliedOn(t, s, steps, allowances)
    decreases |steps|
  {
    if steps != [] {
      TrueRecordIsReliedOn(t, Stepped(t, s, steps[0], allowances), steps[1..], allowances);
    }
  }

  /** From nothing written, while no write that raises has landed and every re-apply finds
      room, a connection never exceeds a constant allowance: not after any step, nor between
      its writes. */
  lemma NeverExceeds(t: Topology, steps: seq<Step>, allowances: map<nat, real>, m: nat, k: nat)
    requires t.Sane() && RoomThroughout(t, EMPTY, steps, allowances)
    requires forall n :: 0 <= n < |steps| ==> IsHonest(t, steps[n])
    requires m < |steps| && k <= |StepSends(t, Run(t, EMPTY, steps[..m], allowances), steps[m], allowances)|
    ensures
      var at := Run(t, EMPTY, steps[..m], allowances);
      InBounds(t, Applied(at.device, StepSends(t, at, steps[m], allowances)[..k]), allowances)
  {
    EmptyIsInBounds(t, allowances);
    TrueRecordIsReliedOn(t, EMPTY, steps, allowances);
    RunStaysInBounds(t, EMPTY, steps, allowances, m, k);
  }

  // ---------------------------------------------------------------- when re-applies find room

  /** Everyone on the connection carries what the requests leave them. */
  predicate Settled(t: Topology, s: State, c: nat, allowanceKw: Option<real>)
    requires t.Sane()
  {
    forall i {:trigger Held(s.device, i)} :: 0 <= i < |t.inverters| && t.ConnectionOf(i) == c ==>
      Fits(t, s.requested, allowanceKw, i, Held(s.device, i))
  }

  /** A call that completes over a true record settles its connection. */
  lemma CompletedCallSettles(t: Topology, s: State, call: Call, allowanceKw: Option<real>)
    requires t.Sane() && Proper(t, s) && s.written == s.device
    requires call.permits && NamesOwnBank(t, call) && call.stop >= |Sends(t, s, call, allowanceKw)|
    ensures Settled(t, Called(t, s, call, allowanceKw), t.ConnectionOf(call.inverter), allowanceKw)
  {
    var requested, c := Asked(s, call), t.ConnectionOf(call.inverter);
    var p := Planned(t, requested, s.written, call.inverter, call.bank, call.charge, allowanceKw);
    var sent := Sends(t, s, call, allowanceKw);
    var after := Called(t, s, call, allowanceKw);
    assert sent[..|sent|] == sent;
    PlanIsSound(t, requested, s.written, call.inverter, call.bank, call.charge, allowanceKw);
    OrderKeeps(p, s.written);
    SentKeeps(Ordered(p, s.written), s.written, call.inverter);
    forall i {:trigger Held(after.device, i)} | 0 <= i < |t.inverters| && t.ConnectionOf(i) == c
      ensures Fits(t, requested, allowanceKw, i, Held(after.device, i))
    {
      SentOrResidentFits(t, requested, allowanceKw, c, s.device, p, sent, call.inverter, i);
    }
  }

  /** After all writes of a sound plan, each inverter carries a write of it, what the record
      already said, or nothing. */
  lemma SentOrResidentFits(
      t: Topology, requested: Amps, allowanceKw: Option<real>, c: nat, device: Amps, p: seq<Write>, sent: seq<Write>,
      inverter: nat, i: nat)
    requires t.Sane() && PlanFits(t, requested, allowanceKw, c, p) && PlanCovers(t, device, c, p)
    requires forall w :: w in sent <==> w in p && IsSent(w, device, inverter)
    requires i < |t.inverters| && t.ConnectionOf(i) == c
    ensures Fits(t, requested, allowanceKw, i, Held(Applied(device, sent), i))
  {
    AppliedValue(device, sent, i);
    if Writes(sent, i) {
      var w :| w in sent && w.id == i && Held(Applied(device, sent), i) == Current(w.amps);
      assert w in p;
    } else if Held(device, i) == 0.0 {
      ZeroFits(t, requested, allowanceKw, i);
    } else {
      var w :| w in p && w.id == i;
      assert w !in sent;
    }
  }

  /** On a settled connection a re-apply finds room. */
  lemma SettledLeavesRoom(t: Topology, s: State, again: Again, allowanceKw: Option<real>)
    requires t.Sane() && again.inverter < |t.inverters|
    requires Settled(t, s, t.ConnectionOf(again.inverter), allowanceKw)
    ensures FindsRoom(t, s, again, allowanceKw)
  {
    var i, b := again.inverter, t.inverters[again.inverter].bank;
    forall w | w in AgainSends(t, s, again, allowanceKw)
      ensures w.amps <= Held(s.device, w.id) || HasRoom(t, s.device, w.id, w.amps, allowanceKw)
    {
      assert OthersFit(t, s.requested, allowanceKw, s.device, i);
      OneClampIsWithin(t, s.requested, s.device, i, b, Held(s.requested, i), allowanceKw, w.amps);
      OneWriteIsWithinExactlyWhen(t, s.device, i, w.amps, allowanceKw);
    }
  }

  lemma OneMoreFits(
      t: Topology, requested: Amps, device: Amps, i: nat, amps: real, c: nat, allowanceKw: Option<real>)
    requires t.Sane() && i < |t.inverters| && amps >= 0.0 && Fits(t, requested, allowanceKw, i, amps)
    requires forall k {:trigger Held(device, k)} :: 0 <= k < |t.inverters| && t.ConnectionOf(k) == c ==>
      Fits(t, requested, allowanceKw, k, Held(device, k))
    ensures forall k {:trigger Held(device[i := amps], k)} :: 0 <= k < |t.inverters| && t.ConnectionOf(k) == c ==>
      Fits(t, requested, allowanceKw, k, Held(device[i := amps], k))
  {
    forall k {:trigger Held(device[i := amps], k)} | 0 <= k < |t.inverters| && t.ConnectionOf(k) == c
      ensures Fits(t, requested, allowanceKw, k, Held(device[i := amps], k))
    {
      assert k != i ==> Held(device[i := amps], k) == Held(device, k);
    }
  }

  /** And leaves it settled. */
  lemma ReapplyStaysSettled(t: Topology, s: State, again: Again, allowanceKw: Option<real>)
    requires t.Sane() && again.inverter < |t.inverters|
    requires Settled(t, s, t.ConnectionOf(again.inverter), allowanceKw)
    ensures Settled(t, Reapplied(t, s, again, allowanceKw), t.ConnectionOf(again.inverter), allowanceKw)
  {
    var i, b := again.inverter, t.inverters[again.inverter].bank;
    var clamp := Clamp(t, i, b, Held(s.requested, i), allowanceKw, s.requested);
    ReappliedIs(t, s, again, allowanceKw);
    if clamp.Some? {
      ClampFits(t, s.requested, i, b, Held(s.requested, i), allowanceKw, clamp.value);
      OneMoreFits(t, s.requested, s.device, i, clamp.value, t.ConnectionOf(i), allowanceKw);
    }
  }

  /** Any re-applies of a connection that follow a completed call on it find room. */
  lemma {:induction false} ReappliesAfterACompletedCall(
      t: Topology, s: State, agains: seq<Step>, allowances: map<nat, real>, c: nat)
    requires t.Sane() && Settled(t, s, c, AllowanceOf(allowances, c))
    requires forall n :: 0 <= n < |agains| ==>
      agains[n].Reapply? && agains[n].again.inverter < |t.inverters| && t.ConnectionOf(agains[n].again.inverter) == c
    ensures RoomThroughout(t, s, agains, allowances)
    decreases |agains|
  {
    if agains != [] {
      SettledLeavesRoom(t, s, agains[0].again, AllowanceOf(allowances, c));
      ReapplyStaysSettled(t, s, agains[0].again, AllowanceOf(allowances, c));
      ReappliesAfterACompletedCall(t, Stepped(t, s, agains[0], allowances), agains[1..], allowances, c);
    }
  }
}
