/** The writer that keeps a record of what it wrote. A write that raises may have reached the
    device all the same, so the record can be wrong about what is resident.

    The device is what draws current; the record decides what is planned, in which order,
    and what is skipped as unchanged. */
module RecordedWriting {
  import opened Basics
  import opened ChargeClamp
  import opened ClampedWriting

  // ---------------------------------------------------------------- what is sent

  lemma {:induction false} SentKeeps(p: seq<Write>, written: Amps, inverter: nat)
    ensures forall w :: w in Sent(p, written, inverter) <==> w in p && IsSent(w, written, inverter)
  {
    if p != [] {
      SentKeeps(p[1..], written, inverter);
      assert p == [p[0]] + p[1..];
    }
  }

  lemma Regroup(a: seq<Write>, b: seq<Write>, c: seq<Write>)
    ensures a + (b + c) == a + b + c
  {
  }

  lemma {:induction false} SentSplits(p: seq<Write>, q: seq<Write>, written: Amps, inverter: nat)
    ensures Sent(p + q, written, inverter) == Sent(p, written, inverter) + Sent(q, written, inverter)
  {
    if p == [] {
      assert p + q == q;
    } else {
      SentSplits(p[1..], q, written, inverter);
      assert (p + q)[0] == p[0] && (p + q)[1..] == p[1..] + q;
      var first := if IsSent(p[0], written, inverter) then [p[0]] else [];
      Regroup(first, Sent(p[1..], written, inverter), Sent(q, written, inverter));
    }
  }

  lemma {:induction false} SentIsDistinct(p: seq<Write>, written: Amps, inverter: nat)
    requires Distinct(p)
    ensures Distinct(Sent(p, written, inverter))
  {
    if p != [] {
      var rest := p[1..];
      assert p == [p[0]] + rest;
      SentIsDistinct(rest, written, inverter);
      SentKeeps(rest, written, inverter);
      NewIsDistinct(p[0], rest, Sent(rest, written, inverter));
    }
  }

  /** What a call sends, and that it stays on its connection. */
  lemma CallSends(
      t: Topology, requested: Amps, written: Amps, inverter: nat, bank: nat, charge: real, allowanceKw: Option<real>)
    requires t.Sane() && bank < |t.banks|
    ensures
      var sent := CallWrites(t, requested, written, inverter, bank, charge, allowanceKw);
      Distinct(sent) && forall w :: w in sent ==> IsWriteOf(t, w, t.banks[bank].connection)
  {
    var p := Planned(t, requested, written, inverter, bank, charge, allowanceKw);
    PlanStaysOnConnection(t, requested, written, inverter, bank, charge, allowanceKw);
    OrderIsDistinct(p, written);
    OrderKeeps(p, written);
    SentIsDistinct(Ordered(p, written), written, inverter);
    SentKeeps(Ordered(p, written), written, inverter);
  }

  // ---------------------------------------------------------------- a record that can be wrong

  /** What the record must get right about a connection: it never says less than the device
      carries, and where it says more of one inverter, no other one carries anything. */
  predicate Faithful(t: Topology, written: Amps, device: Amps, c: nat)
    requires t.Sane()
  {
    forall i, j :: 0 <= i < |t.inverters| && 0 <= j < |t.inverters| && IsPair(t, c, i, j) ==>
      Trusts(written, device, i, j)
  }

  predicate IsPair(t: Topology, c: nat, i: nat, j: nat)
    requires t.Sane() && i < |t.inverters| && j < |t.inverters|
  {
    i != j && t.ConnectionOf(i) == c && t.ConnectionOf(j) == c
  }

  predicate Trusts(written: Amps, device: Amps, i: nat, j: nat) {
    && Held(device, i) <= Held(written, i)
    && (Held(device, i) < Held(written, i) ==> Held(device, j) == 0.0)
  }

  /** Resident after the first k writes. */
  predicate IsPrefixState(before: Amps, sent: seq<Write>, k: nat, now: Amps) {
    k <= |sent| && now == Applied(before, sent[..k])
  }

  /** One write has raised an inverter: whatever carries current and was not written fits. */
  lemma UnsentFits(
      t: Topology, requested: Amps, allowanceKw: Option<real>, c: nat, written: Amps, device: Amps,
      p: seq<Write>, inverter: nat, k: nat, up: Write, i: nat)
    requires t.Sane() && PlanFits(t, requested, allowanceKw, c, p) && PlanCovers(t, written, c, p)
    requires i < |t.inverters| && up.id < |t.inverters| && IsPair(t, c, i, up.id) && Faithful(t, written, device, c)
    requires k <= |Sent(Ordered(p, written), written, inverter)|
    requires up in Sent(Ordered(p, written), written, inverter)[..k] && up.amps > Held(device, up.id)
    requires !Writes(Sent(Ordered(p, written), written, inverter)[..k], i) && Held(device, i) > 0.0
    ensures Fits(t, requested, allowanceKw, i, Held(device, i))
  {
    var lower, raise := Reductions(p, written), Increases(p, written);
    OrderKeeps(p, written);
    SentSplits(lower, raise, written, inverter);
    SentKeeps(lower, written, inverter);
    assert IsPair(t, c, up.id, i);
    assert Trusts(written, device, i, up.id) && Trusts(written, device, up.id, i);
    assert up.amps > Held(written, up.id);
    ReductionsWereSent(Sent(lower, written, inverter), Sent(raise, written, inverter), k, up);
    var w :| w in p && w.id == i;
    assert w.amps < Held(written, i) ==> w in Sent(lower, written, inverter);
    LessFits(t, requested, allowanceKw, i, Held(device, i), w.amps);
  }

  lemma OthersFitOnceRaised(
      t: Topology, requested: Amps, allowanceKw: Option<real>, c: nat, written: Amps, device: Amps,
      p: seq<Write>, inverter: nat, k: nat, raised: nat, i: nat)
    requires t.Sane() && PlanFits(t, requested, allowanceKw, c, p) && PlanCovers(t, written, c, p)
    requires Faithful(t, written, device, c) && k <= |Sent(Ordered(p, written), written, inverter)|
    requires i < |t.inverters| && t.ConnectionOf(i) == c && raised < |t.inverters| && t.ConnectionOf(raised) == c
    requires
      var now := Applied(device, Sent(Ordered(p, written), written, inverter)[..k]);
      Held(now, raised) > Held(device, raised)
    ensures Fits(t, requested, allowanceKw, i,
                 Held(Applied(device, Sent(Ordered(p, written), written, inverter)[..k]), i))
  {
    var sent := Sent(Ordered(p, written), written, inverter);
    var done := sent[..k];
    var now := Applied(device, done);
    OrderKeeps(p, written);
    SentKeeps(Ordered(p, written), written, inverter);
    assert forall w :: w in done ==> w in sent;
    AppliedValue(device, done, raised);
    AppliedValue(device, done, i);
    var up :| up in done && up.id == raised && Held(now, raised) == Current(up.amps);
    if Writes(done, i) {
      var w :| w in done && w.id == i && Held(now, i) == Current(w.amps);
      assert w in p;
    } else if Held(device, i) == 0.0 {
      ZeroFits(t, requested, allowanceKw, i);
    } else {
      UnsentFits(t, requested, allowanceKw, c, written, device, p, inverter, k, up, i);
    }
  }

  lemma ReductionsWereSent(first: seq<Write>, second: seq<Write>, k: nat, w: Write)
    requires k <= |first + second| && w in (first + second)[..k] && w !in first
    ensures forall v :: v in first ==> v in (first + second)[..k]
  {
    var m :| 0 <= m < k && (first + second)[m] == w;
    forall n | 0 <= n < |first| ensures (first + second)[n] != w {
      assert first[n] in first;
    }
    assert first == (first + second)[..k][..|first|];
  }

  /** From a faithful record, the connection draws at most what it drew before or its
      allowance, and each bank likewise, after any number of the writes of a plan. */
  lemma FaithfulPlanIsSafe(
      t: Topology, requested: Amps, allowanceKw: Option<real>, c: nat, written: Amps, device: Amps,
      p: seq<Write>, inverter: nat, k: nat)
    requires t.Sane() && PlanFits(t, requested, allowanceKw, c, p) && PlanCovers(t, written, c, p)
    requires Faithful(t, written, device, c) && forall w :: w in p ==> IsWriteOf(t, w, c)
    requires k <= |Sent(Ordered(p, written), written, inverter)|
    ensures Within(t, device, Applied(device, Sent(Ordered(p, written), written, inverter)[..k]), c, allowanceKw)
  {
    var sent := Sent(Ordered(p, written), written, inverter);
    var now := Applied(device, sent[..k]);
    OrderKeeps(p, written);
    SentKeeps(Ordered(p, written), written, inverter);
    if raised: nat :| raised < |t.inverters| && Held(now, raised) > Held(device, raised) {
      AppliedValue(device, sent[..k], raised);
      var up :| up in sent[..k] && up.id == raised;
      assert up in sent;
      assert t.ConnectionOf(raised) == c;
      forall i {:trigger Held(now, i)} | 0 <= i < |t.inverters| && t.ConnectionOf(i) == c
        ensures Fits(t, requested, allowanceKw, i, Held(now, i))
      {
        OthersFitOnceRaised(t, requested, allowanceKw, c, written, device, p, inverter, k, raised, i);
      }
      FittingIsWithin(t, requested, device, now, c, allowanceKw);
    } else {
      LowerIsWithin(t, device, now, c, allowanceKw);
    }
  }

  /** The allowance holds in every state of a call, wherever it stops. */
  lemma CallIsSafe(
      t: Topology, requested: Amps, written: Amps, device: Amps, inverter: nat, bank: nat, charge: real,
      allowanceKw: Option<real>, k: nat)
    requires t.Sane() && AllSettable(t, written) && bank < |t.banks| && Accounted(t, written, inverter, bank)
    requires Faithful(t, written, device, t.banks[bank].connection)
    requires k <= |CallWrites(t, requested, written, inverter, bank, charge, allowanceKw)|
    ensures
      var sent := CallWrites(t, requested, written, inverter, bank, charge, allowanceKw);
      Within(t, device, Applied(device, sent[..k]), t.banks[bank].connection, allowanceKw)
  {
    var p := Planned(t, requested, written, inverter, bank, charge, allowanceKw);
    PlanIsSound(t, requested, written, inverter, bank, charge, allowanceKw);
    PlanStaysOnConnection(t, requested, written, inverter, bank, charge, allowanceKw);
    FaithfulPlanIsSafe(t, requested, allowanceKw, t.banks[bank].connection, written, device, p, inverter, k);
  }

  // ---------------------------------------------------------------- one request

  /** What was last asked of each inverter, what the record says, and what is resident. */
  datatype State = State(requested: Amps, written: Amps, device: Amps)

  /** One request. Its write number `stop` raises, having landed or not; a stop past the
      last write is none. */
  datatype Call = Call(inverter: nat, bank: nat, charge: real, permits: bool, stop: nat, landed: bool)

  const EMPTY := State(map[], map[], map[])

  function Asked(s: State, call: Call): Amps {
    s.requested[call.inverter := Current(call.charge)]
  }

  /** The writes a call would send. */
  function Sends(t: Topology, s: State, call: Call, allowanceKw: Option<real>): seq<Write>
    requires t.Sane()
  {
    if !call.permits then []
    else CallWrites(t, Asked(s, call), s.written, call.inverter, call.bank, call.charge, allowanceKw)
  }

  /** How many of them reach the device, and how many the record. */
  function Landed(call: Call, n: nat): (k: nat)
    ensures k <= n
  {
    if call.stop >= n then n else if call.landed then call.stop + 1 else call.stop
  }

  function Recorded(call: Call, n: nat): (k: nat)
    ensures k <= n
  {
    if call.stop >= n then n else call.stop
  }

  function Called(t: Topology, s: State, call: Call, allowanceKw: Option<real>): State
    requires t.Sane()
  {
    var sent := Sends(t, s, call, allowanceKw);
    State(Asked(s, call), Applied(s.written, sent[..Recorded(call, |sent|)]),
          Applied(s.device, sent[..Landed(call, |sent|)]))
  }

  /** The guard's re-apply of what was last asked of an inverter, through its own bank. */
  datatype Again = Again(inverter: nat, permits: bool, fails: bool, landed: bool)

  function AgainSends(t: Topology, s: State, again: Again, allowanceKw: Option<real>): (sent: seq<Write>)
    requires t.Sane()
    ensures |sent| <= 1
  {
    var i := again.inverter;
    if !again.permits || i >= |t.inverters| then []
    else
      var clamp := Clamp(t, i, t.inverters[i].bank, Held(s.requested, i), allowanceKw, s.requested);
      if clamp.None? then [] else [Write(i, clamp.value)]
  }

  function Reapplied(t: Topology, s: State, again: Again, allowanceKw: Option<real>): State
    requires t.Sane()
  {
    var sent := AgainSends(t, s, again, allowanceKw);
    State(s.requested, if again.fails then s.written else Applied(s.written, sent),
          if again.fails && !again.landed then s.device else Applied(s.device, sent))
  }

  predicate NonNegativeRecord(written: Amps) {
    forall i :: i in written ==> written[i] >= 0.0
  }

  /** The record as its writer leaves it: commands it gave to inverters that take them. */
  predicate Proper(t: Topology, s: State) {
    AllSettable(t, s.written) && NonNegativeRecord(s.written)
  }

  /** What the writer relies on when a call begins. */
  predicate Relies(t: Topology, s: State, call: Call)
    requires t.Sane()
  {
    call.permits && call.bank < |t.banks| ==>
      && Accounted(t, s.written, call.inverter, call.bank)
      && Faithful(t, s.written, s.device, t.banks[call.bank].connection)
  }

  lemma UnknownBankSendsNothing(t: Topology, s: State, call: Call, allowanceKw: Option<real>)
    requires t.Sane() && (!call.permits || call.bank >= |t.banks|)
    ensures Sends(t, s, call, allowanceKw) == []
  {
    if call.permits {
      assert Planned(t, Asked(s, call), s.written, call.inverter, call.bank, call.charge, allowanceKw) == [];
    }
  }

  lemma CallKeepsProper(t: Topology, s: State, call: Call, allowanceKw: Option<real>)
    requires t.Sane() && Proper(t, s)
    ensures Proper(t, Called(t, s, call, allowanceKw))
  {
    var sent := Sends(t, s, call, allowanceKw);
    if call.permits && call.bank < |t.banks| {
      CallSends(t, Asked(s, call), s.written, call.inverter, call.bank, call.charge, allowanceKw);
    } else {
      UnknownBankSendsNothing(t, s, call, allowanceKw);
    }
    var done := sent[..Recorded(call, |sent|)];
    assert forall w :: w in done ==> w in sent;
    AppliedKeepsSettable(t, s.written, done);
    AppliedStaysNonNegative(s.written, done);
  }

  lemma ReappliedIs(t: Topology, s: State, again: Again, allowanceKw: Option<real>)
    requires t.Sane() && again.inverter < |t.inverters|
    ensures
      var i := again.inverter;
      var clamp := Clamp(t, i, t.inverters[i].bank, Held(s.requested, i), allowanceKw, s.requested);
      var sent := again.permits && clamp.Some?;
      Reapplied(t, s, again, allowanceKw) ==
        State(s.requested, if sent && !again.fails then s.written[i := clamp.value] else s.written,
              if sent && (!again.fails || again.landed) then s.device[i := clamp.value] else s.device)
  {
    forall a: Amps, w: Write ensures Applied(a, [w]) == a[w.id := w.amps] {
      assert [w][1..] == [];
    }
  }

  lemma AgainKeepsProper(t: Topology, s: State, again: Again, allowanceKw: Option<real>)
    requires t.Sane() && Proper(t, s)
    ensures Proper(t, Reapplied(t, s, again, allowanceKw))
  {
    var sent := AgainSends(t, s, again, allowanceKw);
    AppliedKeepsSettable(t, s.written, sent);
    AppliedStaysNonNegative(s.written, sent);
  }

  lemma {:induction false} AppliedStaysNonNegative(a: Amps, p: seq<Write>)
    requires NonNegativeRecord(a) && forall w :: w in p ==> w.amps >= 0.0
    ensures NonNegativeRecord(Applied(a, p))
    decreases |p|
  {
    if p != [] {
      AppliedStaysNonNegative(a[p[0].id := p[0].amps], p[1..]);
    }
  }

  // ---------------------------------------------------------------- one write alone

  /** Beside what the others carry there is room for this current. */
  predicate HasRoom(t: Topology, device: Amps, i: nat, amps: real, allowanceKw: Option<real>)
    requires t.Sane() && i < |t.inverters|
  {
    var others, b := device - {i}, t.inverters[i].bank;
    && (allowanceKw.Some? ==>
          Power(t, others, t.ConnectionOf(i)) + Kw(amps, t.KwPerAmp(i)) <= Current(allowanceKw.value))
    && BankCurrent(t, others, b) + amps <= t.banks[b].limitA
  }

  lemma {:induction false} OneAlone(t: Topology, device: Amps, i: nat, x: real, c: nat, b: nat, n: nat)
    requires t.Sane() && n <= |t.inverters| && i < |t.inverters| && x >= 0.0
    requires t.ConnectionOf(i) == c && t.inverters[i].bank == b
    ensures PowerKw(t, device[i := x], c, n)
      == PowerKw(t, device - {i}, c, n) + if i < n then Kw(x, t.KwPerAmp(i)) else 0.0
    ensures BankSum(t, device[i := x], b, n) == BankSum(t, device - {i}, b, n) + if i < n then x else 0.0
  {
    if n > 0 {
      OneAlone(t, device, i, x, c, b, n - 1);
      assert n - 1 != i ==> Held(device[i := x], n - 1) == Held(device - {i}, n - 1);
      assert Held(device - {i}, i) == 0.0 && Kw(0.0, t.KwPerAmp(i)) == 0.0;
    }
  }

  lemma {:induction false} OtherBanksStay(t: Topology, device: Amps, i: nat, x: real, b: nat, n: nat)
    requires n <= |t.inverters| && i < |t.inverters| && t.inverters[i].bank != b
    ensures BankSum(t, device[i := x], b, n) == BankSum(t, device, b, n)
  {
    if n > 0 {
      OtherBanksStay(t, device, i, x, b, n - 1);
    }
  }

  lemma SameAsSet(t: Topology, device: Amps, i: nat, c: nat, b: nat)
    requires t.Sane() && i < |t.inverters| && t.ConnectionOf(i) == c && t.inverters[i].bank == b
    ensures Power(t, device, c) == Power(t, device - {i}, c) + Kw(Held(device, i), t.KwPerAmp(i))
    ensures BankCurrent(t, device, b) == BankCurrent(t, device - {i}, b) + Held(device, i)
  {
    var same := device[i := Held(device, i)];
    forall k {:trigger Held(device, k)} | 0 <= k < |t.inverters| && t.ConnectionOf(k) == c
      ensures Held(device, k) == Held(same, k)
    {
    }
    SameConnection(t, device, same, c, |t.inverters|);
    OneAlone(t, device, i, Held(device, i), c, b, |t.inverters|);
  }

  lemma MoreCostsMore(x: real, y: real, k: real)
    requires x < y && k > 0.0
    ensures Kw(x, k) < Kw(y, k)
  {
  }

  /** One write alone keeps its connection and bank within bounds exactly when it does not
      raise its inverter, or there is room for it beside the others. */
  lemma OneWriteIsWithinExactlyWhen(t: Topology, device: Amps, i: nat, amps: real, allowanceKw: Option<real>)
    requires t.Sane() && i < |t.inverters| && amps >= 0.0
    ensures Within(t, device, device[i := amps], t.ConnectionOf(i), allowanceKw)
      <==> amps <= Held(device, i) || HasRoom(t, device, i, amps, allowanceKw)
  {
    var c, b, now, n := t.ConnectionOf(i), t.inverters[i].bank, device[i := amps], |t.inverters|;
    OneAlone(t, device, i, amps, c, b, n);
    SameAsSet(t, device, i, c, b);
    forall other | 0 <= other < |t.banks| && other != b
      ensures BankCurrent(t, now, other) == BankCurrent(t, device, other)
    {
      OtherBanksStay(t, device, i, amps, other, n);
    }
    if amps <= Held(device, i) {
      LowerIsWithin(t, device, now, c, allowanceKw);
    } else {
      MoreCostsMore(Held(device, i), amps, t.KwPerAmp(i));
    }
  }

  // ---------------------------------------------------------------- the object

  lemma {:induction false} AppliedElsewhere(a: Amps, p: seq<Write>, i: nat)
    requires !Writes(p, i)
    ensures (i in Applied(a, p) <==> i in a) && (i in a ==> Applied(a, p)[i] == a[i])
    decreases |p|
  {
    if p != [] {
      assert p[0] in p;
      AppliedElsewhere(a[p[0].id := p[0].amps], p[1..], i);
    }
  }

  /** Whether a planned write is sent does not depend on the ones before it. */
  lemma SentOneMore(order: seq<Write>, written: Amps, inverter: nat, k: nat)
    requires Distinct(order) && k < |order|
    ensures
      var before := Sent(order[..k], written, inverter);
      && Sent(order[..k + 1], written, inverter)
           == before + (if IsSent(order[k], written, inverter) then [order[k]] else [])
      && IsSent(order[k], Applied(written, before), inverter) == IsSent(order[k], written, inverter)
  {
    var before := Sent(order[..k], written, inverter);
    assert order[..k + 1] == order[..k] + [order[k]];
    SentSplits(order[..k], [order[k]], written, inverter);
    SentKeeps(order[..k], written, inverter);
    forall w | w in before ensures w.id != order[k].id {
      var m :| 0 <= m < k && order[..k][m] == w;
    }
    AppliedElsewhere(written, before, order[k].id);
  }

  lemma SentPrefix(order: seq<Write>, written: Amps, inverter: nat, k: nat)
    requires k <= |order|
    ensures
      var n := |Sent(order[..k], written, inverter)|;
      && n <= |Sent(order, written, inverter)|
      && Sent(order, written, inverter)[..n] == Sent(order[..k], written, inverter)
  {
    assert order == order[..k] + order[k..];
    SentSplits(order[..k], order[k..], written, inverter);
  }

  /** The first k planned writes are dealt with: n of them were sent, and reached both. */
  predicate Dealt(
      order: seq<Write>, before: State, inverter: nat, k: nat, n: nat, written: Amps, device: Amps)
  {
    var sent := Sent(order, before.written, inverter);
    && k <= |order| && n <= |sent| && sent[..n] == Sent(order[..k], before.written, inverter)
    && written == Applied(before.written, sent[..n]) && device == Applied(before.device, sent[..n])
  }

  lemma DealtOneMore(
      order: seq<Write>, before: State, inverter: nat, k: nat, n: nat, written: Amps, device: Amps)
    requires Distinct(order) && k < |order| && Dealt(order, before, inverter, k, n, written, device)
    ensures
      var w, sent := order[k], Sent(order, before.written, inverter);
      if IsSent(w, written, inverter) then
        && n < |sent| && Dealt(order, before, inverter, k + 1, n + 1, written[w.id := w.amps], device[w.id := w.amps])
        && device[w.id := w.amps] == Applied(before.device, sent[..n + 1])
      else Dealt(order, before, inverter, k + 1, n, written, device)
  {
    var w, sent := order[k], Sent(order, before.written, inverter);
    SentOneMore(order, before.written, inverter, k);
    SentPrefix(order, before.written, inverter, k + 1);
    if IsSent(w, written, inverter) {
      assert sent[..n + 1] == sent[..n] + [w] && sent[n] == w;
      AppliedOneMore(before.written, sent, n);
      AppliedOneMore(before.device, sent, n);
    }
  }

  /** Charge commands behind one boundary: the device, and the writer's record of it. */
  class ClampedWriter {
    const t: Topology
    var requested: Amps
    var writtenA: Amps
    var device: Amps
    ghost var trace: seq<Amps>

    ghost function View(): State
      reads this
    {
      State(requested, writtenA, device)
    }

    ghost predicate Valid()
      reads this
    {
      t.Sane() && Proper(t, View())
    }

    constructor (t: Topology)
      requires t.Sane()
      ensures Valid() && this.t == t && View() == EMPTY && trace == []
    {
      this.t := t;
      requested, writtenA, device := map[], map[], map[];
      trace := [];
    }

    /** One request. Whatever the record is worth, the new state is that of the call; where
        it can be relied on, every state passed through is within bounds. */
    method AsyncWrite(call: Call, allowanceKw: Option<real>) returns (raised: bool)
      requires Valid()
      modifies this
      ensures Valid() && View() == Called(t, old(View()), call, allowanceKw)
      ensures raised == (call.stop < |Sends(t, old(View()), call, allowanceKw)|)
      ensures old(trace) <= trace && (trace == old(trace) || device == trace[|trace| - 1])
      ensures Relies(t, old(View()), call) && call.bank < |t.banks| ==> forall s :: s in trace[|old(trace)|..] ==>
        Within(t, old(device), s, t.banks[call.bank].connection, allowanceKw)
    {
      ghost var start := View();
      CallKeepsProper(t, start, call, allowanceKw);
      requested := requested[call.inverter := Current(call.charge)];
      if !call.permits {
        return false;
      }
      var planned := Planned(t, requested, writtenA, call.inverter, call.bank, call.charge, allowanceKw);
      var order := Ordered(planned, writtenA);
      OrderOfPlan(call, allowanceKw);
      raised := WriteOrdered(order, call.inverter, call.stop, call.landed);
      if Relies(t, start, call) && call.bank < |t.banks| {
        forall s | s in trace[|old(trace)|..]
          ensures Within(t, old(device), s, t.banks[call.bank].connection, allowanceKw)
        {
          var k: nat :| IsPrefixState(old(device), Sent(order, start.written, call.inverter), k, s);
          CallIsSafe(t, requested, start.written, start.device, call.inverter, call.bank, call.charge, allowanceKw, k);
        }
      }
    }

    lemma OrderOfPlan(call: Call, allowanceKw: Option<real>)
      requires t.Sane()
      ensures
        var planned := Planned(t, requested, writtenA, call.inverter, call.bank, call.charge, allowanceKw);
        Distinct(Ordered(planned, writtenA))
    {
      var p := Planned(t, requested, writtenA, call.inverter, call.bank, call.charge, allowanceKw);
      if call.bank < |t.banks| {
        PlanStaysOnConnection(t, requested, writtenA, call.inverter, call.bank, call.charge, allowanceKw);
      }
      OrderIsDistinct(p, writtenA);
    }

    /** Write a plan in its order, skipping what would change nothing on record, until a
        write raises. */
    method WriteOrdered(order: seq<Write>, inverter: nat, stop: nat, landed: bool) returns (raised: bool)
      requires Distinct(order)
      modifies this`writtenA, this`device, this`trace
      ensures
        var sent := Sent(order, old(writtenA), inverter);
        && raised == (stop < |sent|)
        && writtenA == Applied(old(writtenA), sent[..if raised then stop else |sent|])
        && device == Applied(old(device), sent[..if !raised then |sent| else if landed then stop + 1 else stop])
      ensures old(trace) <= trace && (trace == old(trace) || device == trace[|trace| - 1])
      ensures PrefixStates(old(device), Sent(order, old(writtenA), inverter), trace[|old(trace)|..])
    {
      ghost var before, sent := View(), Sent(order, writtenA, inverter);
      var n := 0;
      for k := 0 to |order|
        invariant n <= stop && Dealt(order, before, inverter, k, n, writtenA, device)
        invariant old(trace) <= trace && (trace == old(trace) || device == trace[|trace| - 1])
        invariant PrefixStates(old(device), sent, trace[|old(trace)|..])
      {
        var w := order[k];
        DealtOneMore(order, before, inverter, k, n, writtenA, device);
        if w.id == inverter || w.id !in writtenA || w.amps != writtenA[w.id] {
          if n == stop {
            if landed {
              device := device[w.id := w.amps];
            }
            LogState(sent, old(device), old(trace), if landed then n + 1 else n);
            return true;
          }
          device := device[w.id := w.amps];
          writtenA := writtenA[w.id := w.amps];
          LogState(sent, old(device), old(trace), n + 1);
          n := n + 1;
        }
      }
      assert order[..|order|] == order && sent[..|sent|] == sent;
      raised := false;
    }

    ghost method LogState(sent: seq<Write>, before: Amps, start: seq<Amps>, k: nat)
      requires start <= trace && PrefixStates(before, sent, trace[|start|..]) && IsPrefixState(before, sent, k, device)
      modifies this`trace
      ensures trace == old(trace) + [device] && start <= trace && PrefixStates(before, sent, trace[|start|..])
    {
      trace := trace + [device];
      assert trace[|start|..] == old(trace)[|start|..] + [device];
    }

    /** The guard's own re-apply of one inverter: nothing else moves, so it keeps the
        connection within bounds when it lowers, or when everyone else already fits. */
    method AsyncWriteLocked(inverter: nat, bank: nat, charge: real, allowanceKw: Option<real>,
                            permits: bool, fails: bool, landed: bool)
      returns (raised: bool)
      requires Valid() && inverter < |t.inverters|
      modifies this
      ensures Valid() && requested == old(requested)
      ensures
        var clamp := Clamp(t, inverter, bank, charge, allowanceKw, requested);
        && raised == (permits && clamp.Some? && fails)
        && writtenA == (if permits && clamp.Some? && !fails then old(writtenA)[inverter := clamp.value]
                        else old(writtenA))
        && device == (if permits && clamp.Some? && (!fails || landed) then old(device)[inverter := clamp.value]
                      else old(device))
        && (clamp.Some? && (clamp.value <= Held(old(device), inverter)
                            || OthersFit(t, requested, allowanceKw, old(device), inverter)) ==>
            Within(t, old(device), device, t.ConnectionOf(inverter), allowanceKw))
        && (permits && clamp.Some? && (!fails || landed) ==>
            (Within(t, old(device), device, t.ConnectionOf(inverter), allowanceKw) <==>
              || clamp.value <= Held(old(device), inverter)
              || HasRoom(t, old(device), inverter, clamp.value, allowanceKw)))
      ensures bank == t.inverters[inverter].bank && charge == Held(requested, inverter) ==>
        View() == Reapplied(t, old(View()), Again(inverter, permits, fails, landed), allowanceKw)
    {
      ReappliedIs(t, View(), Again(inverter, permits, fails, landed), allowanceKw);
      var clamp := Clamp(t, inverter, bank, charge, allowanceKw, requested);
      if clamp.Some? {
        OneClampIsWithin(t, requested, device, inverter, bank, charge, allowanceKw, clamp.value);
        OneWriteIsWithinExactlyWhen(t, device, inverter, clamp.value, allowanceKw);
      }
      LowerIsWithin(t, device, device, t.ConnectionOf(inverter), allowanceKw);
      raised := permits && clamp.Some? && fails;
      if permits && clamp.Some? {
        if !fails || landed {
          device := device[inverter := clamp.value];
        }
        if !fails {
          writtenA := writtenA[inverter := clamp.value];
        }
      }
    }
  }

  ghost predicate PrefixStates(before: Amps, sent: seq<Write>, states: seq<Amps>) {
    forall s :: s in states ==> exists k: nat :: IsPrefixState(before, sent, k, s)
  }
}
