/** Exactly when the writer keeps its allowance: what a record must get right, whose bank an
    intent must name, and runs that show what happens otherwise. */
module RecordExactness {
  import opened Basics
  import opened ChargeClamp
  import opened ClampedWriting
  import opened RecordedWriting

  // ---------------------------------------------------------------- exactly when

  /** The same inverters behind the same banks and connections, whatever their drivers,
      ceilings and limits. */
  predicate SameWiring(t: Topology, u: Topology) {
    && |u.inverters| == |t.inverters| && |u.banks| == |t.banks|
    && (forall i :: 0 <= i < |t.inverters| ==> u.inverters[i].bank == t.inverters[i].bank)
    && (forall b :: 0 <= b < |t.banks| ==> u.banks[b].connection == t.banks[b].connection)
  }

  /** A topology of one kilowatt an amp, in which each inverter's driver steps by what is
      requested of it and each bank takes exactly what is requested of it. */
  function Tailored(t: Topology, requested: Amps): (u: Topology)
    requires t.Sane()
    ensures u.Sane() && SameWiring(t, u)
    ensures forall i :: 0 <= i < |u.inverters| ==> u.KwPerAmp(i) == 1.0 && u.inverters[i].settable
  {
    Topology(
      seq(|t.inverters|, i requires 0 <= i < |t.inverters| =>
        Inverter(t.inverters[i].bank, true, if Held(requested, i) > 0.0 then Held(requested, i) else 1.0,
                 Held(requested, i))),
      seq(|t.banks|, b requires 0 <= b < |t.banks| =>
        Bank(t.banks[b].connection, 1000.0, 1.0, BankCurrent(t, requested, b))))
  }

  lemma {:induction false} SameBankSums(t: Topology, u: Topology, a: Amps, b: nat, n: nat)
    requires SameWiring(t, u) && n <= |t.inverters|
    ensures BankSum(u, a, b, n) == BankSum(t, a, b, n)
  {
    if n > 0 {
      SameBankSums(t, u, a, b, n - 1);
    }
  }

  lemma OwnStepIsExact(inv: Inverter, own: real)
    requires inv.settable && inv.step == (if own > 0.0 then own else 1.0) && inv.ceilingA == own >= 0.0
    ensures Setpoint(inv, own) == Some(own)
  {
    if own > 0.0 {
      assert inv.step == own && own / own == 1.0;
    }
    assert Steps(1.0, own) == own && Steps(0.0, 1.0) == 0.0;
  }

  /** With the allowance at exactly what is requested, every inverter is commanded exactly
      its request. */
  lemma TailoredClamp(t: Topology, requested: Amps, i: nat)
    requires t.Sane() && i < |t.inverters|
    ensures
      var u := Tailored(t, requested);
      Clamp(u, i, u.inverters[i].bank, Held(requested, i), Some(Power(u, requested, u.ConnectionOf(i))), requested)
        == Some(Held(requested, i))
  {
    var u, own := Tailored(t, requested), Held(requested, i);
    var b, c := u.inverters[i].bank, u.ConnectionOf(i);
    OwnStepIsExact(u.inverters[i], own);
    if own > 0.0 {
      OwnIsInBank(u, requested, i, |u.inverters|);
      OwnIsInConnection(u, requested, i, |u.inverters|);
      SameBankSums(t, u, requested, b, |u.inverters|);
      LimitCoversRequests(u.banks[b].limitA, own, BankCurrent(u, requested, b), BankShare(u, requested, i));
      AllowanceCoversRequests(u, requested, i, Power(u, requested, c));
    }
  }

  lemma TailoredPeersGrow(t: Topology, requested: Amps, written: Amps, skip: nat, c: nat, i: nat)
    requires t.Sane() && i < |t.inverters|
    ensures
      var u := Tailored(t, requested);
      var allowance := Some(Power(u, requested, c));
      var before := Peers(u, requested, written, skip, c, allowance, i);
      Peers(u, requested, written, skip, c, allowance, i + 1) ==
        if i != skip && i in written && u.ConnectionOf(i) == c then before + [Write(i, Held(requested, i))] else before
  {
    if Tailored(t, requested).ConnectionOf(i) == c {
      TailoredClamp(t, requested, i);
    }
  }

  lemma {:induction false} TailoredPeers(
      t: Topology, requested: Amps, written: Amps, skip: nat, c: nat, n: nat)
    requires t.Sane() && n <= |t.inverters|
    ensures
      var u := Tailored(t, requested);
      var peers := Peers(u, requested, written, skip, c, Some(Power(u, requested, c)), n);
      && (forall w :: w in peers ==> w.id < n && w.id in written && w.id != skip && w.amps == Held(requested, w.id))
      && (forall i :: 0 <= i < n && i != skip && i in written && u.ConnectionOf(i) == c ==> Writes(peers, i))
  {
    if n > 0 {
      var u := Tailored(t, requested);
      var i, allowance := n - 1, Some(Power(u, requested, c));
      TailoredPeers(t, requested, written, skip, c, i);
      var before := Peers(u, requested, written, skip, c, allowance, i);
      var peers := Peers(u, requested, written, skip, c, allowance, n);
      TailoredPeersGrow(t, requested, written, skip, c, i);
      forall j | 0 <= j < n && j != skip && j in written && u.ConnectionOf(j) == c ensures Writes(peers, j) {
        if j < i {
          var w :| w in before && w.id == j;
          assert w in peers;
        } else {
          assert Write(i, Held(requested, i)) in peers;
        }
      }
    }
  }

  /** The device's current of each inverter, present or not. */
  function Resident(device: Amps, n: nat): (r: Amps)
    ensures forall i :: 0 <= i < n ==> Held(r, i) == Held(device, i)
  {
    map i | 0 <= i < n :: Held(device, i)
  }

  lemma {:induction false} PowerOfUpdate(t: Topology, a: Amps, i: nat, x: real, c: nat, n: nat)
    requires t.Sane() && n <= |t.inverters| && i < |t.inverters| && x >= 0.0
    requires t.KwPerAmp(i) == 1.0 && t.ConnectionOf(i) == c
    ensures PowerKw(t, a[i := x], c, n) == PowerKw(t, a, c, n) + if i < n then x - Held(a, i) else 0.0
  {
    if n > 0 {
      PowerOfUpdate(t, a, i, x, c, n - 1);
    }
  }

  /** The power of a state in which two inverters differ from the device's. */
  lemma PowerOfTwo(u: Topology, device: Amps, i: nat, x: real, j: nat, y: real, c: nat)
    requires u.Sane() && i < |u.inverters| && j < |u.inverters| && IsPair(u, c, i, j) && x >= 0.0 && y >= 0.0
    requires u.KwPerAmp(i) == 1.0 && u.KwPerAmp(j) == 1.0
    ensures Power(u, Resident(device, |u.inverters|)[i := x][j := y], c)
      == Power(u, device, c) + x - Held(device, i) + y - Held(device, j)
  {
    var n := |u.inverters|;
    var r := Resident(device, n);
    PowerOfUpdate(u, r[i := x], j, y, c, n);
    PowerOfUpdate(u, r, i, x, c, n);
    SameConnection(u, r, device, c, n);
  }

  /** The call that asks one inverter of a tailored topology for its tailored current. */
  function TailoredCall(t: Topology, requested: Amps, written: Amps, j: nat): seq<Write>
    requires t.Sane() && j < |t.inverters|
  {
    var u := Tailored(t, requested);
    CallWrites(u, requested, written, j, u.inverters[j].bank, Held(requested, j),
               Some(Power(u, requested, u.ConnectionOf(j))))
  }

  lemma TailoredPlan(t: Topology, requested: Amps, written: Amps, j: nat, p: seq<Write>)
    requires t.Sane() && j < |t.inverters|
    requires
      var u := Tailored(t, requested);
      p == Planned(u, requested, written, j, u.inverters[j].bank, Held(requested, j),
                   Some(Power(u, requested, u.ConnectionOf(j))))
    ensures forall w :: w in p ==> w.amps == Held(requested, w.id) && (w.id == j || w.id in written)
    ensures p != [] && p[|p| - 1] == Write(j, Held(requested, j)) && forall w :: w in p[..|p| - 1] ==> w.id != j
    ensures forall i :: 0 <= i < |t.inverters| && i != j && i in written && t.ConnectionOf(i) == t.ConnectionOf(j) ==>
      Writes(p[..|p| - 1], i)
  {
    var u := Tailored(t, requested);
    TailoredPeers(t, requested, written, j, u.ConnectionOf(j), |t.inverters|);
    TailoredClamp(t, requested, j);
    var c := u.ConnectionOf(j);
    var peers := Peers(u, requested, written, j, c, Some(Power(u, requested, c)), |t.inverters|);
    assert p == peers + [Write(j, Held(requested, j))];
    assert p[..|p| - 1] == peers;
  }

  /** What that call leaves of each inverter: its own at the request, an unchanged one
      alone, any other at the request or alone. */
  lemma TailoredLeaves(t: Topology, requested: Amps, written: Amps, device: Amps, j: nat, k: nat)
    requires t.Sane() && NonNegativeRecord(written) && j < |t.inverters|
    ensures
      var left := Held(Applied(device, TailoredCall(t, requested, written, j)), k);
      && (left == Held(device, k) || left == Held(requested, k))
      && (k == j ==> left == Held(requested, j))
      && (k != j && Held(requested, k) == Held(written, k) ==> left == Held(device, k))
  {
    var u := Tailored(t, requested);
    var p := Planned(u, requested, written, j, u.inverters[j].bank, Held(requested, j),
                     Some(Power(u, requested, u.ConnectionOf(j))));
    var sent := TailoredCall(t, requested, written, j);
    TailoredPlan(t, requested, written, j, p);
    SentOf(p, written, j);
    AppliedValue(device, sent, k);
    assert p[|p| - 1] in p;
    if k == j {
      assert Write(j, Held(requested, j)) in sent;
    }
  }

  lemma SentOf(p: seq<Write>, written: Amps, inverter: nat)
    ensures forall w :: w in Sent(Ordered(p, written), written, inverter) <==> w in p && IsSent(w, written, inverter)
  {
    OrderKeeps(p, written);
    SentKeeps(Ordered(p, written), written, inverter);
  }

  /** The record says less than the device carries: the call that skips the inverter as
      unchanged, or does not plan it at all, raises another one into its room. */
  lemma TooLowOverdraws(t: Topology, written: Amps, device: Amps, c: nat, i: nat, j: nat, requested: Amps)
    requires t.Sane() && NonNegativeRecord(written) && i < |t.inverters| && j < |t.inverters| && IsPair(t, c, i, j)
    requires Held(device, i) > Held(written, i)
    requires requested == Resident(device, |t.inverters|)[i := Held(written, i)][j := Held(device, j) + 1.0]
    ensures
      var u := Tailored(t, requested);
      var now := Applied(device, TailoredCall(t, requested, written, j));
      Power(u, now, c) > Power(u, device, c) && Power(u, now, c) > Power(u, requested, c)
  {
    var n, y := |t.inverters|, Held(device, j) + 1.0;
    var u := Tailored(t, requested);
    var now, end := Applied(device, TailoredCall(t, requested, written, j)), Resident(device, n)[j := y];
    forall k {:trigger Held(now, k)} | 0 <= k < n ensures Held(now, k) == Held(end, k) {
      TailoredLeaves(t, requested, written, device, j, k);
    }
    SameConnection(u, now, end, c, n);
    PowerOfTwo(u, device, i, Held(written, i), j, y, c);
    PowerOfOne(u, device, j, y, c);
  }

  lemma PowerOfOne(u: Topology, device: Amps, j: nat, y: real, c: nat)
    requires u.Sane() && j < |u.inverters| && u.ConnectionOf(j) == c && y >= 0.0 && u.KwPerAmp(j) == 1.0
    ensures Power(u, Resident(device, |u.inverters|)[j := y], c) == Power(u, device, c) + y - Held(device, j)
  {
    var n := |u.inverters|;
    PowerOfUpdate(u, Resident(device, n), j, y, c, n);
    SameConnection(u, Resident(device, n), device, c, n);
  }

  /** The record says more than the device carries while another inverter carries current:
      a raise is then taken for a reduction and sent before that other one's. */
  lemma TooHighOverdraws(t: Topology, written: Amps, device: Amps, c: nat, i: nat, j: nat, requested: Amps)
    returns (k: nat)
    requires t.Sane() && NonNegativeRecord(written) && i < |t.inverters| && j < |t.inverters| && IsPair(t, c, i, j)
    requires Held(device, i) < Held(written, i) && 0.0 < Held(device, j) <= Held(written, j)
    requires requested ==
      Resident(device, |t.inverters|)[i := (Held(device, i) + Held(written, i)) / 2.0][j := 0.0]
    ensures k <= |TailoredCall(t, requested, written, j)|
    ensures
      var u := Tailored(t, requested);
      var now := Applied(device, TailoredCall(t, requested, written, j)[..k]);
      Power(u, now, c) > Power(u, device, c) && Power(u, now, c) > Power(u, requested, c)
  {
    var m := (Held(device, i) + Held(written, i)) / 2.0;
    k := StopsAfterTheRaise(t, written, device, c, i, j, requested, m);
    var u := Tailored(t, requested);
    var now := Applied(device, TailoredCall(t, requested, written, j)[..k]);
    assert u.KwPerAmp(i) == 1.0 && u.KwPerAmp(j) == 1.0 && IsPair(u, c, i, j);
    RaiseBeforeReduction(u, device, now, i, m, j, c);
  }

  predicate SameCurrents(a: Amps, b: Amps, n: nat) {
    forall q :: 0 <= q < n ==> Held(a, q) == Held(b, q)
  }

  /** Stopped before its own write, that call has raised the one inverter and moved no other. */
  lemma StopsAfterTheRaise(
      t: Topology, written: Amps, device: Amps, c: nat, i: nat, j: nat, requested: Amps, m: real) returns (k: nat)
    requires t.Sane() && NonNegativeRecord(written) && i < |t.inverters| && j < |t.inverters| && IsPair(t, c, i, j)
    requires Held(device, i) < Held(written, i) && 0.0 < Held(device, j) <= Held(written, j)
    requires m == (Held(device, i) + Held(written, i)) / 2.0
    requires requested == Resident(device, |t.inverters|)[i := m][j := 0.0]
    ensures k <= |TailoredCall(t, requested, written, j)|
    ensures
      var now := Applied(device, TailoredCall(t, requested, written, j)[..k]);
      SameCurrents(now, Resident(device, |t.inverters|)[i := m], |t.inverters|)
  {
    var n := |t.inverters|;
    var u := Tailored(t, requested);
    var p := Planned(u, requested, written, j, u.inverters[j].bank, Held(requested, j),
                     Some(Power(u, requested, u.ConnectionOf(j))));
    TailoredPlan(t, requested, written, j, p);
    var peers := p[..|p| - 1];
    var first := Sent(Reductions(peers, written), written, j);
    k := |first|;
    OwnReductionIsLast(p, written, j);
    var now, end := Applied(device, first), Resident(device, n)[i := m];
    forall q {:trigger Held(now, q)} | 0 <= q < n ensures Held(now, q) == Held(end, q) {
      ReductionsLeave(t, requested, written, device, i, j, q, peers, m);
    }
  }

  /** One inverter is up and the other is not yet down. */
  lemma RaiseBeforeReduction(u: Topology, device: Amps, now: Amps, i: nat, m: real, j: nat, c: nat)
    requires u.Sane() && i < |u.inverters| && j < |u.inverters| && IsPair(u, c, i, j)
    requires u.KwPerAmp(i) == 1.0 && u.KwPerAmp(j) == 1.0 && m >= 0.0
    requires Held(device, i) < m && 0.0 < Held(device, j)
    requires SameCurrents(now, Resident(device, |u.inverters|)[i := m], |u.inverters|)
    ensures Power(u, now, c) > Power(u, device, c)
    ensures Power(u, now, c) > Power(u, Resident(device, |u.inverters|)[i := m][j := 0.0], c)
  {
    SameConnection(u, now, Resident(device, |u.inverters|)[i := m], c, |u.inverters|);
    PowerOfTwo(u, device, i, m, j, 0.0, c);
    PowerOfOne(u, device, i, m, c);
  }

  /** The request's own write closes the plan, and so its reductions. */
  lemma OwnReductionIsLast(p: seq<Write>, written: Amps, j: nat)
    requires p != [] && p[|p| - 1].id == j && p[|p| - 1].amps < Held(written, j)
    ensures
      var first := Sent(Reductions(p[..|p| - 1], written), written, j);
      var sent := Sent(Ordered(p, written), written, j);
      |first| <= |sent| && sent[..|first|] == first
  {
    var peers, own := p[..|p| - 1], p[|p| - 1];
    assert p == peers + [own];
    ReductionsSplit(peers, [own], written);
    var first, rest := Reductions(peers, written), Reductions([own], written) + Increases(p, written);
    assert Ordered(p, written) == first + rest;
    SentFirst(first, rest, written, j);
  }

  lemma SentFirst(p: seq<Write>, q: seq<Write>, written: Amps, j: nat)
    ensures |Sent(p, written, j)| <= |Sent(p + q, written, j)|
    ensures Sent(p + q, written, j)[..|Sent(p, written, j)|] == Sent(p, written, j)
  {
    SentSplits(p, q, written, j);
  }

  lemma ReductionsOfOne(w: Write, rest: seq<Write>, residents: Amps)
    ensures Reductions([w] + rest, residents)
      == (if w.amps < Held(residents, w.id) then [w] else []) + Reductions(rest, residents)
  {
    assert ([w] + rest)[1..] == rest;
  }

  lemma {:induction false} ReductionsSplit(p: seq<Write>, q: seq<Write>, residents: Amps)
    ensures Reductions(p + q, residents) == Reductions(p, residents) + Reductions(q, residents)
  {
    if p == [] {
      assert p + q == q;
    } else {
      ReductionsSplit(p[1..], q, residents);
      var head := if p[0].amps < Held(residents, p[0].id) then [p[0]] else [];
      assert p + q == [p[0]] + (p[1..] + q);
      ReductionsOfOne(p[0], p[1..] + q, residents);
      Regroup(head, Reductions(p[1..], residents), Reductions(q, residents));
    }
  }

  lemma ReductionsLeave(
      t: Topology, requested: Amps, written: Amps, device: Amps, i: nat, j: nat, q: nat, peers: seq<Write>, m: real)
    requires i != j && Held(device, i) < m < Held(written, i) && i in written && m == Held(requested, i)
    requires q != i && q != j ==> Held(requested, q) == Held(device, q)
    requires Writes(peers, i) && forall w :: w in peers ==> w.amps == Held(requested, w.id) && w.id != j
    ensures
      Held(Applied(device, Sent(Reductions(peers, written), written, j)), q) == if q == i then m else Held(device, q)
  {
    var first := Sent(Reductions(peers, written), written, j);
    OrderKeeps(peers, written);
    SentKeeps(Reductions(peers, written), written, j);
    AppliedValue(device, first, q);
    if q == i {
      var w :| w in peers && w.id == i;
      assert w in first;
    }
  }

  /** One request, made of the same wiring, leaves the connection within bounds after its
      first k writes. */
  predicate CallStays(
      t: Topology, written: Amps, device: Amps, requested: Amps, inverter: nat, bank: nat, charge: real,
      allowanceKw: Option<real>, k: nat)
    requires t.Sane() && bank < |t.banks|
  {
    var sent := CallWrites(t, requested, written, inverter, bank, charge, allowanceKw);
    k <= |sent| ==> Within(t, device, Applied(device, sent[..k]), t.banks[bank].connection, allowanceKw)
  }

  /** A request the writer may meet: on this wiring, through settable drivers, recorded as
      made, and accounted for. */
  predicate MayAsk(
      t: Topology, u: Topology, written: Amps, requested: Amps, c: nat, inverter: nat, bank: nat, charge: real) {
    && u.Sane() && SameWiring(t, u) && AllSettable(u, written)
    && bank < |u.banks| && u.banks[bank].connection == c
    && inverter in requested && requested[inverter] == Current(charge)
    && Accounted(u, written, inverter, bank)
  }

  ghost predicate KeepsAllowance(t: Topology, written: Amps, device: Amps, c: nat) {
    forall u: Topology, requested: Amps, inverter: nat, bank: nat, charge: real, allowanceKw: Option<real>, k: nat ::
      MayAsk(t, u, written, requested, c, inverter, bank, charge) ==>
        CallStays(u, written, device, requested, inverter, bank, charge, allowanceKw, k)
  }

  /** The record is faithful exactly when no request through any drivers, and no stop within
      it, can take the connection beyond both its allowance and what it drew. */
  lemma AllowanceKeptExactlyWhenFaithful(t: Topology, written: Amps, device: Amps, c: nat)
    requires t.Sane() && NonNegativeRecord(written)
    ensures KeepsAllowance(t, written, device, c) <==> Faithful(t, written, device, c)
  {
    if Faithful(t, written, device, c) {
      forall u: Topology, requested: Amps, inverter: nat, bank: nat, charge: real, allowanceKw: Option<real>, k: nat |
        MayAsk(t, u, written, requested, c, inverter, bank, charge)
        ensures CallStays(u, written, device, requested, inverter, bank, charge, allowanceKw, k)
      {
        WiringDecidesFaith(t, u, written, device, c);
        if k <= |CallWrites(u, requested, written, inverter, bank, charge, allowanceKw)| {
          CallIsSafe(u, requested, written, device, inverter, bank, charge, allowanceKw, k);
        }
      }
    } else {
      var i: nat, j: nat :|
        i < |t.inverters| && j < |t.inverters| && IsPair(t, c, i, j) && !Trusts(written, device, i, j);
      UnfaithfulOverdraws(t, written, device, c, i, j);
    }
  }

  lemma WiringDecidesFaith(t: Topology, u: Topology, written: Amps, device: Amps, c: nat)
    requires t.Sane() && u.Sane() && SameWiring(t, u) && Faithful(t, written, device, c)
    ensures Faithful(u, written, device, c)
  {
    forall i, j | 0 <= i < |u.inverters| && 0 <= j < |u.inverters| && IsPair(u, c, i, j)
      ensures Trusts(written, device, i, j)
    {
      assert IsPair(t, c, i, j);
    }
  }

  lemma UnfaithfulOverdraws(t: Topology, written: Amps, device: Amps, c: nat, i: nat, j: nat)
    requires t.Sane() && NonNegativeRecord(written) && i < |t.inverters| && j < |t.inverters| && IsPair(t, c, i, j)
    requires !Trusts(written, device, i, j)
    ensures !KeepsAllowance(t, written, device, c)
  {
    if Held(device, i) > Held(written, i) {
      TooLowIsMet(t, written, device, c, i, j);
    } else if Held(device, j) > Held(written, j) {
      TooLowIsMet(t, written, device, c, j, i);
    } else {
      var requested := Resident(device, |t.inverters|)[i := (Held(device, i) + Held(written, i)) / 2.0][j := 0.0];
      var k := TooHighOverdraws(t, written, device, c, i, j, requested);
      TailoredBreaks(t, written, device, c, j, requested, k);
    }
  }

  lemma TooLowIsMet(t: Topology, written: Amps, device: Amps, c: nat, i: nat, j: nat)
    requires t.Sane() && NonNegativeRecord(written) && i < |t.inverters| && j < |t.inverters| && IsPair(t, c, i, j)
    requires Held(device, i) > Held(written, i)
    ensures !KeepsAllowance(t, written, device, c)
  {
    var requested := Resident(device, |t.inverters|)[i := Held(written, i)][j := Held(device, j) + 1.0];
    var sent := TailoredCall(t, requested, written, j);
    TooLowOverdraws(t, written, device, c, i, j, requested);
    assert sent[..|sent|] == sent;
    TailoredBreaks(t, written, device, c, j, requested, |sent|);
  }

  lemma TailoredBreaks(t: Topology, written: Amps, device: Amps, c: nat, j: nat, requested: Amps, k: nat)
    requires t.Sane() && j < |t.inverters| && t.ConnectionOf(j) == c && j in requested && requested[j] >= 0.0
    requires k <= |TailoredCall(t, requested, written, j)|
    requires
      var u := Tailored(t, requested);
      var now := Applied(device, TailoredCall(t, requested, written, j)[..k]);
      Power(u, now, c) > Power(u, device, c) && Power(u, now, c) > Power(u, requested, c)
    ensures !KeepsAllowance(t, written, device, c)
  {
    var u := Tailored(t, requested);
    var bank, charge := u.inverters[j].bank, Held(requested, j);
    assert MayAsk(t, u, written, requested, c, j, bank, charge);
    assert !CallStays(u, written, device, requested, j, bank, charge, Some(Power(u, requested, c)), k);
  }

  // ---------------------------------------------------------------- whose bank is named

  /** Some other inverter on record shares the connection of the named bank. */
  predicate HasPeer(t: Topology, written: Amps, inverter: nat, bank: nat)
    requires t.Sane() && bank < |t.banks|
  {
    exists j :: 0 <= j < |t.inverters| && IsPeer(t, written, inverter, bank, j)
  }

  predicate IsPeer(t: Topology, written: Amps, inverter: nat, bank: nat, j: nat)
    requires t.Sane() && bank < |t.banks| && j < |t.inverters|
  {
    j != inverter && j in written && t.ConnectionOf(j) == t.banks[bank].connection
  }

  predicate MayName(t: Topology, u: Topology, written: Amps, requested: Amps, inverter: nat, bank: nat, charge: real) {
    && u.Sane() && SameWiring(t, u) && AllSettable(u, written)
    && bank < |u.banks| && inverter in requested && requested[inverter] == Current(charge)
  }

  ghost predicate IntentKeepsAllowance(t: Topology, written: Amps, inverter: nat, bank: nat) {
    forall u: Topology, requested: Amps, charge: real, allowanceKw: Option<real>, k: nat ::
      MayName(t, u, written, requested, inverter, bank, charge) ==>
        CallStays(u, written, written, requested, inverter, bank, charge, allowanceKw, k)
  }

  /** With a true record, intents for an inverter under a bank keep within bounds exactly
      when they are accounted for, or when there is nobody else to raise. */
  lemma IntentKeptExactlyWhenAccounted(t: Topology, written: Amps, inverter: nat, bank: nat)
    requires t.Sane() && NonNegativeRecord(written) && bank < |t.banks|
    ensures IntentKeepsAllowance(t, written, inverter, bank) <==>
      Accounted(t, written, inverter, bank) || !HasPeer(t, written, inverter, bank)
  {
    if Accounted(t, written, inverter, bank) || !HasPeer(t, written, inverter, bank) {
      forall u: Topology, requested: Amps, charge: real, allowanceKw: Option<real>, k: nat |
        MayName(t, u, written, requested, inverter, bank, charge)
        ensures CallStays(u, written, written, requested, inverter, bank, charge, allowanceKw, k)
      {
        if k <= |CallWrites(u, requested, written, inverter, bank, charge, allowanceKw)| {
          if Accounted(t, written, inverter, bank) {
            CallIsSafe(u, requested, written, written, inverter, bank, charge, allowanceKw, k);
          } else {
            NothingIsSent(t, u, requested, written, inverter, bank, charge, allowanceKw);
            LowerIsWithin(u, written, written, u.banks[bank].connection, allowanceKw);
          }
        }
      }
    } else {
      var j: nat :| j < |t.inverters| && IsPeer(t, written, inverter, bank, j);
      var requested := Resident(written, |t.inverters|)[inverter := 0.0][j := Held(written, j) + 1.0];
      UnaccountedOverdraws(t, written, inverter, bank, j, requested);
    }
  }

  lemma NothingIsSent(
      t: Topology, u: Topology, requested: Amps, written: Amps, inverter: nat, bank: nat, charge: real,
      allowanceKw: Option<real>)
    requires t.Sane() && u.Sane() && SameWiring(t, u) && bank < |t.banks|
    requires !Accounted(t, written, inverter, bank) && !HasPeer(t, written, inverter, bank)
    ensures CallWrites(u, requested, written, inverter, bank, charge, allowanceKw) == []
  {
    var c := u.banks[bank].connection;
    var peers := Peers(u, requested, written, inverter, c, allowanceKw, |u.inverters|);
    PeersAreDistinct(u, requested, written, inverter, c, allowanceKw, |u.inverters|);
    forall w | w in peers ensures IsPeer(t, written, inverter, bank, w.id) {
    }
    EmptyOrNot(peers);
    assert Planned(u, requested, written, inverter, bank, charge, allowanceKw) == [];
  }

  lemma EmptyOrNot(p: seq<Write>)
    ensures p == [] || exists w :: w in p
  {
    if p != [] {
      assert p[0] in p;
    }
  }

  lemma UnaccountedOverdraws(t: Topology, written: Amps, inverter: nat, bank: nat, j: nat, requested: Amps)
    requires t.Sane() && NonNegativeRecord(written) && bank < |t.banks| && !Accounted(t, written, inverter, bank)
    requires j < |t.inverters| && IsPeer(t, written, inverter, bank, j)
    requires requested == Resident(written, |t.inverters|)[inverter := 0.0][j := Held(written, j) + 1.0]
    ensures !IntentKeepsAllowance(t, written, inverter, bank)
  {
    var n, c, u, y := |t.inverters|, t.banks[bank].connection, Tailored(t, requested), Held(written, j) + 1.0;
    var allowance := Some(Power(u, requested, c));
    var sent := CallWrites(u, requested, written, inverter, bank, 0.0, allowance);
    var now, end := Applied(written, sent), Resident(written, n)[j := y];
    forall k {:trigger Held(now, k)} | 0 <= k < n ensures Held(now, k) == Held(end, k) {
      UnaccountedLeaves(t, written, inverter, bank, j, requested, k);
    }
    SameConnection(u, now, end, c, n);
    PowerOfTwo(u, written, inverter, 0.0, j, y, c);
    PowerOfOne(u, written, j, y, c);
    assert sent[..|sent|] == sent;
    assert MayName(t, u, written, requested, inverter, bank, 0.0);
    assert !CallStays(u, written, written, requested, inverter, bank, 0.0, allowance, |sent|);
  }

  /** Such an intent plans its peers alone. */
  lemma UnaccountedPlan(t: Topology, requested: Amps, written: Amps, inverter: nat, bank: nat, j: nat, p: seq<Write>)
    requires t.Sane() && bank < |t.banks| && !Accounted(t, written, inverter, bank)
    requires j < |t.inverters| && IsPeer(t, written, inverter, bank, j)
    requires
      var u := Tailored(t, requested);
      p == Planned(u, requested, written, inverter, bank, 0.0, Some(Power(u, requested, t.banks[bank].connection)))
    ensures forall w :: w in p ==> w.id in written && w.id != inverter && w.amps == Held(requested, w.id)
    ensures Writes(p, j)
  {
    var u, c := Tailored(t, requested), t.banks[bank].connection;
    TailoredPeers(t, requested, written, inverter, c, |t.inverters|);
    assert p == Peers(u, requested, written, inverter, c, Some(Power(u, requested, c)), |t.inverters|);
  }

  lemma UnaccountedLeaves(t: Topology, written: Amps, inverter: nat, bank: nat, j: nat, requested: Amps, k: nat)
    requires t.Sane() && NonNegativeRecord(written) && bank < |t.banks| && !Accounted(t, written, inverter, bank)
    requires j < |t.inverters| && IsPeer(t, written, inverter, bank, j) && k < |t.inverters|
    requires requested == Resident(written, |t.inverters|)[inverter := 0.0][j := Held(written, j) + 1.0]
    ensures
      var u := Tailored(t, requested);
      var allowance := Some(Power(u, requested, t.banks[bank].connection));
      var sent := CallWrites(u, requested, written, inverter, bank, 0.0, allowance);
      Held(Applied(written, sent), k) == if k == j then Held(written, j) + 1.0 else Held(written, k)
  {
    var u, c := Tailored(t, requested), t.banks[bank].connection;
    var p := Planned(u, requested, written, inverter, bank, 0.0, Some(Power(u, requested, c)));
    UnaccountedPlan(t, requested, written, inverter, bank, j, p);
    SentOf(p, written, inverter);
    AppliedValue(written, Sent(Ordered(p, written), written, inverter), k);
    if k == j {
      var w :| w in p && w.id == j;
      assert w in Sent(Ordered(p, written), written, inverter);
    }
  }

  // ---------------------------------------------------------------- a landed raise

  const PAIR := Topology([Inverter(0, true, 1.0, 100.0), Inverter(1, true, 1.0, 100.0)],
                         [Bank(0, 1000.0, 1.0, 100.0), Bank(0, 1000.0, 1.0, 100.0)])

  lemma PairBanks(a: Amps)
    ensures BankCurrent(PAIR, a, 0) == Held(a, 0) && BankCurrent(PAIR, a, 1) == Held(a, 1)
  {
    assert BankSum(PAIR, a, 0, 0) == 0.0 && BankSum(PAIR, a, 1, 0) == 0.0;
    assert BankSum(PAIR, a, 0, 1) == Held(a, 0) && BankSum(PAIR, a, 1, 1) == 0.0;
  }

  lemma PairPower(a: Amps)
    ensures Power(PAIR, a, 0) == Held(a, 0) + Held(a, 1)
    ensures BankCurrent(PAIR, a, 0) == Held(a, 0) && BankCurrent(PAIR, a, 1) == Held(a, 1)
    ensures ConnectionWatts(PAIR, a, 0, 2, 2) == Held(a, 0) * 1000.0 + Held(a, 1) * 1000.0
  {
    assert PAIR.KwPerAmp(0) == 1.0 && PAIR.KwPerAmp(1) == 1.0;
    assert PowerKw(PAIR, a, 0, 1) == Kw(Held(a, 0), 1.0);
    assert Power(PAIR, a, 0) == PowerKw(PAIR, a, 0, 1) + Kw(Held(a, 1), 1.0);
    PairBanks(a);
    assert ConnectionWatts(PAIR, a, 0, 1, 2) == BankWatts(PAIR, a, 0, 2);
  }

  lemma WholeSteps(inv: Inverter, amps: real, n: nat)
    requires inv == Inverter(inv.bank, true, 1.0, 100.0) && amps == n as real && amps <= 100.0
    ensures Setpoint(inv, amps) == Some(amps)
  {
  }

  lemma PairClamp(requested: Amps, i: nat, share: real, n: nat)
    requires i < 2 && Held(requested, i) == 10.0 && share == n as real <= 10.0
    requires share * (Held(requested, 0) + Held(requested, 1)) == 100.0
    ensures Clamp(PAIR, i, i, 10.0, Some(10.0), requested) == Some(share)
  {
    PairPower(requested);
    var total := ConnectionWatts(PAIR, requested, 0, 2, 2);
    assert BankShare(PAIR, requested, i) == 1.0;
    assert BankWatts(PAIR, requested, i, 2) == 10000.0;
    assert total == 1000.0 * (Held(requested, 0) + Held(requested, 1));
    assert share * total == 10.0 * 10000.0;
    assert ShareKw(PAIR, requested, i, 10.0) == share;
    assert AllowedA(PAIR, requested, i, 10.0) == share;
    WholeSteps(PAIR.inverters[i], share, n);
  }

  /** From nothing written: the first write of one inverter lands and raises, the record
      knows nothing of it, and the next inverter's request is given half of an allowance
      that is already drawn in full. */
  lemma ALandedRaiseOverdraws()
    ensures
      var allowance := Some(10.0);
      var first, second := Call(0, 0, 10.0, true, 0, true), Call(1, 1, 10.0, true, 1, false);
      var once := Called(PAIR, EMPTY, first, allowance);
      var twice := Called(PAIR, once, second, allowance);
      && once.written == map[] && once.device == map[0 := 10.0] && !Faithful(PAIR, once.written, once.device, 0)
      && Accounted(PAIR, once.written, 1, 1) && twice.device == map[0 := 10.0, 1 := 5.0]
      && Power(PAIR, once.device, 0) == 10.0 && Power(PAIR, twice.device, 0) == 15.0
  {
    FirstLands();
    SecondOverdraws();
    PairPower(map[0 := 10.0]);
    PairPower(map[0 := 10.0, 1 := 5.0]);
    assert IsPair(PAIR, 0, 0, 1) && !Trusts(map[], map[0 := 10.0], 0, 1);
  }

  lemma FirstLands()
    ensures Called(PAIR, EMPTY, Call(0, 0, 10.0, true, 0, true), Some(10.0))
      == State(map[0 := 10.0], map[], map[0 := 10.0])
  {
    var requested: Amps := map[0 := 10.0];
    PairClamp(requested, 0, 10.0, 10);
    assert Peers(PAIR, requested, map[], 0, 0, Some(10.0), 1) == [];
    var p := Planned(PAIR, requested, map[], 0, 0, 10.0, Some(10.0));
    assert p == [Write(0, 10.0)];
    OneIsSent(Write(0, 10.0), map[], 0);
    assert [Write(0, 10.0)][1..] == [];
  }

  lemma SecondOverdraws()
    ensures
      var s := State(map[0 := 10.0], map[], map[0 := 10.0]);
      Called(PAIR, s, Call(1, 1, 10.0, true, 1, false), Some(10.0)).device == map[0 := 10.0, 1 := 5.0]
  {
    var requested: Amps := map[0 := 10.0, 1 := 10.0];
    PairClamp(requested, 1, 5.0, 5);
    assert Peers(PAIR, requested, map[], 1, 0, Some(10.0), 1) == [];
    var p := Planned(PAIR, requested, map[], 1, 1, 10.0, Some(10.0));
    assert p == [Write(1, 5.0)];
    OneIsSent(Write(1, 5.0), map[], 1);
    assert [Write(1, 5.0)][1..] == [];
  }

  lemma OneIsSent(w: Write, written: Amps, inverter: nat)
    requires w.id == inverter
    ensures Sent(Ordered([w], written), written, inverter) == [w]
  {
    assert [w][1..] == [];
    assert Reductions([], written) == [] && Increases([], written) == [];
    assert Ordered([w], written) == [w];
  }

  // ---------------------------------------------------------------- a re-apply after a stop

  /** From nothing written: one inverter's request completes, the next one's stops before
      the first is reduced, and the guard's re-apply of the second then raises it into room
      that is not free. Every write is recorded as it lands. */
  lemma AReapplyAfterAStopOverdraws()
    ensures
      var allowance := Some(10.0);
      var first, second := Call(0, 0, 10.0, true, 1, false), Call(1, 1, 10.0, true, 0, false);
      var stopped := Called(PAIR, Called(PAIR, EMPTY, first, allowance), second, allowance);
      var end := Reapplied(PAIR, stopped, Again(1, true, false, false), allowance);
      && stopped.device == stopped.written == map[0 := 10.0]
      && end.device == end.written == map[0 := 10.0, 1 := 5.0]
      && Power(PAIR, stopped.device, 0) == 10.0 && Power(PAIR, end.device, 0) == 15.0
      && !HasRoom(PAIR, stopped.device, 1, 5.0, allowance)
  {
    FirstCompletes();
    SecondStops();
    ThenReapplied();
    NoRoomLeft();
  }

  lemma ThenReapplied()
    ensures
      var s := State(map[0 := 10.0, 1 := 10.0], map[0 := 10.0], map[0 := 10.0]);
      Reapplied(PAIR, s, Again(1, true, false, false), Some(10.0))
        == State(s.requested, map[0 := 10.0, 1 := 5.0], map[0 := 10.0, 1 := 5.0])
  {
    var s := State(map[0 := 10.0, 1 := 10.0], map[0 := 10.0], map[0 := 10.0]);
    PairClamp(s.requested, 1, 5.0, 5);
    ReappliedIs(PAIR, s, Again(1, true, false, false), Some(10.0));
  }

  lemma NoRoomLeft()
    ensures Power(PAIR, map[0 := 10.0], 0) == 10.0 && Power(PAIR, map[0 := 10.0, 1 := 5.0], 0) == 15.0
    ensures !HasRoom(PAIR, map[0 := 10.0], 1, 5.0, Some(10.0))
  {
    var device: Amps := map[0 := 10.0];
    PairPower(device);
    PairPower(device[1 := 5.0]);
    OneWriteIsWithinExactlyWhen(PAIR, device, 1, 5.0, Some(10.0));
  }

  lemma FirstCompletes()
    ensures Called(PAIR, EMPTY, Call(0, 0, 10.0, true, 1, false), Some(10.0))
      == State(map[0 := 10.0], map[0 := 10.0], map[0 := 10.0])
  {
    var requested: Amps := map[0 := 10.0];
    PairClamp(requested, 0, 10.0, 10);
    assert Peers(PAIR, requested, map[], 0, 0, Some(10.0), 1) == [];
    var p := Planned(PAIR, requested, map[], 0, 0, 10.0, Some(10.0));
    assert p == [Write(0, 10.0)];
    OneIsSent(Write(0, 10.0), map[], 0);
    assert [Write(0, 10.0)][1..] == [] && [Write(0, 10.0)][..1] == [Write(0, 10.0)];
  }

  lemma SecondStops()
    ensures
      var s := State(map[0 := 10.0], map[0 := 10.0], map[0 := 10.0]);
      Called(PAIR, s, Call(1, 1, 10.0, true, 0, false), Some(10.0))
        == State(map[0 := 10.0, 1 := 10.0], map[0 := 10.0], map[0 := 10.0])
  {
  }
}
