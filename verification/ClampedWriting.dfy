/** Writing a clamped request: every inverter whose share moves is written again,
    reductions before increases, so the allowance holds between any two writes. */
module ClampedWriting {
  import opened Basics
  import opened ChargeClamp

  datatype Write = Write(id: nat, amps: real)

  /** The other inverters already written on the connection, re-clamped. */
  function Peers(
      t: Topology, requested: Amps, written: Amps, skip: nat, c: nat, allowanceKw: Option<real>, n: nat)
    : seq<Write>
    requires t.Sane() && n <= |t.inverters|
  {
    if n == 0 then []
    else
      var i := n - 1;
      var before := Peers(t, requested, written, skip, c, allowanceKw, i);
      var clamp := Clamp(t, i, t.inverters[i].bank, Held(requested, i), allowanceKw, requested);
      if i != skip && i in written && t.ConnectionOf(i) == c && clamp.Some?
        then before + [Write(i, clamp.value)] else before
  }

  function Planned(
      t: Topology, requested: Amps, written: Amps, inverter: nat, bank: nat, charge: real,
      allowanceKw: Option<real>)
    : seq<Write>
    requires t.Sane()
  {
    var peers := if bank < |t.banks|
      then Peers(t, requested, written, inverter, t.banks[bank].connection, allowanceKw, |t.inverters|)
      else [];
    var own := Clamp(t, inverter, bank, charge, allowanceKw, requested);
    if own.Some? then peers + [Write(inverter, own.value)] else peers
  }

  function Reductions(p: seq<Write>, residents: Amps): seq<Write> {
    if p == [] then []
    else (if p[0].amps < Held(residents, p[0].id) then [p[0]] else []) + Reductions(p[1..], residents)
  }

  function Increases(p: seq<Write>, residents: Amps): seq<Write> {
    if p == [] then []
    else (if p[0].amps < Held(residents, p[0].id) then [] else [p[0]]) + Increases(p[1..], residents)
  }

  /** The stable order of the plan: reductions first. */
  function Ordered(p: seq<Write>, residents: Amps): seq<Write> {
    Reductions(p, residents) + Increases(p, residents)
  }

  function Applied(a: Amps, p: seq<Write>): Amps
    decreases |p|
  {
    if p == [] then a else Applied(a[p[0].id := p[0].amps], p[1..])
  }

  /** A planned write is sent when it is the request's own or changes what is on record. */
  predicate IsSent(w: Write, written: Amps, inverter: nat) {
    w.id == inverter || w.id !in written || w.amps != written[w.id]
  }

  function Sent(p: seq<Write>, written: Amps, inverter: nat): seq<Write> {
    if p == [] then []
    else (if IsSent(p[0], written, inverter) then [p[0]] else []) + Sent(p[1..], written, inverter)
  }

  /** The writes of one request, in the order they are sent. */
  function CallWrites(
      t: Topology, requested: Amps, written: Amps, inverter: nat, bank: nat, charge: real,
      allowanceKw: Option<real>)
    : seq<Write>
    requires t.Sane()
  {
    Sent(Ordered(Planned(t, requested, written, inverter, bank, charge, allowanceKw), written), written, inverter)
  }

  function AllowanceOf(allowances: map<nat, real>, c: nat): Option<real> {
    if c in allowances then Some(allowances[c]) else None
  }

  // ---------------------------------------------------------------- what each write may be

  /** A current that one inverter may carry under this request. */
  predicate Fits(t: Topology, requested: Amps, allowanceKw: Option<real>, i: nat, x: real)
    requires t.Sane() && i < |t.inverters|
  {
    && (allowanceKw.Some? ==> Kw(x, t.KwPerAmp(i)) <= Part(t, requested, i, allowanceKw.value))
    && x <= Fraction(t.banks[t.inverters[i].bank].limitA, Held(requested, i),
                     BankCurrent(t, requested, t.inverters[i].bank))
  }

  lemma LessFits(t: Topology, requested: Amps, allowanceKw: Option<real>, i: nat, x: real, y: real)
    requires t.Sane() && i < |t.inverters| && x <= y && Fits(t, requested, allowanceKw, i, y)
    ensures Fits(t, requested, allowanceKw, i, x)
  {
    KwIsMonotone(x, y, t.KwPerAmp(i));
  }

  lemma ZeroFits(t: Topology, requested: Amps, allowanceKw: Option<real>, i: nat)
    requires t.Sane() && i < |t.inverters|
    ensures Fits(t, requested, allowanceKw, i, 0.0)
  {
    assert Kw(0.0, t.KwPerAmp(i)) == 0.0;
  }

  lemma ClampFits(
      t: Topology, requested: Amps, i: nat, bank: nat, charge: real, allowanceKw: Option<real>, clamp: real)
    requires t.Sane() && Clamp(t, i, bank, charge, allowanceKw, requested) == Some(clamp)
    ensures Fits(t, requested, allowanceKw, i, clamp)
  {
    assert clamp <= Fraction(t.banks[bank].limitA, Held(requested, i), BankCurrent(t, requested, bank)) by {
      ClampWithinBankPart(t, requested, i, bank, charge, allowanceKw, clamp);
    }
    if allowanceKw.Some? {
      ClampCostsItsPart(t, requested, i, bank, charge, allowanceKw.value, clamp, t.KwPerAmp(i),
                        Part(t, requested, i, allowanceKw.value));
    }
  }

  /** Every write of a plan to one connection fits it. */
  predicate PlanFits(t: Topology, requested: Amps, allowanceKw: Option<real>, c: nat, p: seq<Write>)
    requires t.Sane()
  {
    forall w :: w in p && w.id < |t.inverters| && t.ConnectionOf(w.id) == c ==>
      w.amps >= 0.0 && Fits(t, requested, allowanceKw, w.id, w.amps)
  }

  predicate Writes(p: seq<Write>, i: nat) {
    exists w :: w in p && w.id == i
  }

  /** No inverter that carries current on the connection is left out of the plan. */
  predicate PlanCovers(t: Topology, residents: Amps, c: nat, p: seq<Write>)
    requires t.Sane()
  {
    forall i :: 0 <= i < |t.inverters| && t.ConnectionOf(i) == c && Held(residents, i) > 0.0 ==> Writes(p, i)
  }

  lemma {:induction false} PeersFit(
      t: Topology, requested: Amps, written: Amps, skip: nat, c: nat, allowanceKw: Option<real>, n: nat)
    requires t.Sane() && n <= |t.inverters|
    ensures PlanFits(t, requested, allowanceKw, c, Peers(t, requested, written, skip, c, allowanceKw, n))
    ensures forall i ::
      0 <= i < n && i != skip && i in written && t.ConnectionOf(i) == c && t.inverters[i].settable ==>
        Writes(Peers(t, requested, written, skip, c, allowanceKw, n), i)
  {
    if n > 0 {
      var i := n - 1;
      PeersFit(t, requested, written, skip, c, allowanceKw, i);
      var before := Peers(t, requested, written, skip, c, allowanceKw, i);
      var p := Peers(t, requested, written, skip, c, allowanceKw, n);
      var clamp := Clamp(t, i, t.inverters[i].bank, Held(requested, i), allowanceKw, requested);
      if clamp.Some? {
        ClampFits(t, requested, i, t.inverters[i].bank, Held(requested, i), allowanceKw, clamp.value);
      }
      forall j | 0 <= j < n && j != skip && j in written && t.ConnectionOf(j) == c && t.inverters[j].settable
        ensures Writes(p, j)
      {
        if j < i {
          var w :| w in before && w.id == j;
          assert w in p;
        } else {
          assert clamp.Some? && Write(i, clamp.value) in p;
        }
      }
    }
  }

  lemma {:induction false} OrderKeeps(p: seq<Write>, residents: Amps)
    ensures forall w :: w in Reductions(p, residents) <==> w in p && w.amps < Held(residents, w.id)
    ensures forall w :: w in Increases(p, residents) <==> w in p && w.amps >= Held(residents, w.id)
  {
    if p != [] {
      OrderKeeps(p[1..], residents);
      assert p == [p[0]] + p[1..];
    }
  }

  lemma {:induction false} AppliedValue(a: Amps, p: seq<Write>, i: nat)
    ensures
      || (!Writes(p, i) && Held(Applied(a, p), i) == Held(a, i))
      || (exists w :: w in p && w.id == i && Held(Applied(a, p), i) == Current(w.amps))
    decreases |p|
  {
    if p != [] {
      var b := a[p[0].id := p[0].amps];
      AppliedValue(b, p[1..], i);
      if Writes(p[1..], i) {
        var w :| w in p[1..] && w.id == i && Held(Applied(b, p[1..]), i) == Current(w.amps);
        assert w in p;
      } else if p[0].id == i {
        assert p[0] in p && Held(b, i) == Current(p[0].amps);
      } else {
        assert forall w :: w in p ==> w == p[0] || w in p[1..];
      }
    }
  }

  // ---------------------------------------------------------------- every state between writes

  /** The allowance claim for one state, against the state the call began from. */
  predicate Within(t: Topology, before: Amps, now: Amps, c: nat, allowanceKw: Option<real>)
    requires t.Sane()
  {
    && (allowanceKw.Some? ==> Power(t, now, c) <= Max(Power(t, before, c), Current(allowanceKw.value)))
    && (forall b :: 0 <= b < |t.banks| && t.banks[b].connection == c ==>
          BankCurrent(t, now, b) <= Max(BankCurrent(t, before, b), t.banks[b].limitA))
  }

  lemma LowerIsWithin(t: Topology, before: Amps, now: Amps, c: nat, allowanceKw: Option<real>)
    requires t.Sane() && forall i {:trigger Held(now, i)} :: 0 <= i < |t.inverters| ==> Held(now, i) <= Held(before, i)
    ensures Within(t, before, now, c, allowanceKw)
  {
    PowerIsMonotone(t, now, before, c, |t.inverters|);
    forall b | 0 <= b < |t.banks| && t.banks[b].connection == c
      ensures BankCurrent(t, now, b) <= Max(BankCurrent(t, before, b), t.banks[b].limitA)
    {
      BankIsMonotone(t, now, before, b, |t.inverters|);
    }
  }

  lemma FittingIsWithin(
      t: Topology, requested: Amps, before: Amps, now: Amps, c: nat, allowanceKw: Option<real>)
    requires t.Sane()
    requires forall i {:trigger Held(now, i)} :: 0 <= i < |t.inverters| && t.ConnectionOf(i) == c ==>
      Fits(t, requested, allowanceKw, i, Held(now, i))
    ensures Within(t, before, now, c, allowanceKw)
  {
    WithinPartsIsSafe(t, requested, now, c, allowanceKw, |t.banks|);
    forall b | 0 <= b < |t.banks| && t.banks[b].connection == c
      ensures BankCurrent(t, now, b) <= Max(BankCurrent(t, before, b), t.banks[b].limitA)
    {
      WithinPartsIsSafe(t, requested, now, c, allowanceKw, b);
    }
  }

  /** After any number of writes of an ordered plan, the connection draws at most what it
      drew before or its allowance, and each bank likewise against its limit. */
  lemma EveryPrefixIsSafe(
      t: Topology, requested: Amps, allowanceKw: Option<real>, c: nat, before: Amps, p: seq<Write>, k: nat)
    requires t.Sane() && PlanFits(t, requested, allowanceKw, c, p) && PlanCovers(t, before, c, p)
    requires k <= |Ordered(p, before)|
    ensures Within(t, before, Applied(before, Ordered(p, before)[..k]), c, allowanceKw)
  {
    var lower := Reductions(p, before);
    var done := Ordered(p, before)[..k];
    var now := Applied(before, done);
    OrderKeeps(p, before);
    if k <= |lower| {
      assert done == lower[..k];
      forall i {:trigger Held(now, i)} | 0 <= i < |t.inverters| ensures Held(now, i) <= Held(before, i) {
        AppliedValue(before, done, i);
      }
      LowerIsWithin(t, before, now, c, allowanceKw);
    } else {
      forall i {:trigger Held(now, i)} | 0 <= i < |t.inverters| && t.ConnectionOf(i) == c
        ensures Fits(t, requested, allowanceKw, i, Held(now, i))
      {
        AfterReductions(t, requested, allowanceKw, c, before, p, k, i);
      }
      FittingIsWithin(t, requested, before, now, c, allowanceKw);
    }
  }

  lemma AfterReductions(
      t: Topology, requested: Amps, allowanceKw: Option<real>, c: nat, before: Amps, p: seq<Write>, k: nat, i: nat)
    requires t.Sane() && PlanFits(t, requested, allowanceKw, c, p) && PlanCovers(t, before, c, p)
    requires |Reductions(p, before)| <= k <= |Ordered(p, before)|
    requires i < |t.inverters| && t.ConnectionOf(i) == c
    ensures Fits(t, requested, allowanceKw, i, Held(Applied(before, Ordered(p, before)[..k]), i))
  {
    var lower := Reductions(p, before);
    var done := Ordered(p, before)[..k];
    OrderKeeps(p, before);
    AppliedValue(before, done, i);
    if Writes(done, i) {
      var w :| w in done && w.id == i && Held(Applied(before, done), i) == Current(w.amps);
      assert w in p;
    } else if Held(before, i) > 0.0 {
      var w :| w in p && w.id == i;
      assert lower == done[..|lower|];
      assert forall v :: v in lower ==> v in done;
      LessFits(t, requested, allowanceKw, i, Held(before, i), w.amps);
    } else {
      ZeroFits(t, requested, allowanceKw, i);
    }
  }

  // ---------------------------------------------------------------- the plan of one call

  predicate Distinct(p: seq<Write>) {
    forall a, b :: 0 <= a < b < |p| ==> p[a].id != p[b].id
  }

  lemma {:induction false} PeersAreDistinct(
      t: Topology, requested: Amps, written: Amps, skip: nat, c: nat, allowanceKw: Option<real>, n: nat)
    requires t.Sane() && n <= |t.inverters|
    ensures
      var p := Peers(t, requested, written, skip, c, allowanceKw, n);
      && Distinct(p)
      && forall w :: w in p ==>
           w.id < n && w.id != skip && w.id in written && t.ConnectionOf(w.id) == c && w.amps >= 0.0
  {
    if n > 0 {
      PeersAreDistinct(t, requested, written, skip, c, allowanceKw, n - 1);
    }
  }

  lemma NewIsDistinct(w: Write, rest: seq<Write>, part: seq<Write>)
    requires Distinct([w] + rest) && Distinct(part) && forall x :: x in part ==> x in rest
    ensures Distinct([w] + part)
  {
    forall j | 0 <= j < |part| ensures part[j].id != w.id {
      assert part[j] in rest;
      var k :| 0 <= k < |rest| && rest[k] == part[j];
      assert ([w] + rest)[0] == w && ([w] + rest)[k + 1] == part[j];
    }
  }

  lemma {:induction false} SplitKeepsDistinct(p: seq<Write>, residents: Amps)
    requires Distinct(p)
    ensures Distinct(Reductions(p, residents)) && Distinct(Increases(p, residents))
  {
    if p != [] {
      var w, rest := p[0], p[1..];
      assert p == [w] + rest;
      SplitKeepsDistinct(rest, residents);
      OrderKeeps(rest, residents);
      var lower, raise := Reductions(rest, residents), Increases(rest, residents);
      assert forall x :: x in lower + raise ==> x in rest;
      if w.amps < Held(residents, w.id) {
        NewIsDistinct(w, rest, lower);
        assert Increases(p, residents) == raise;
      } else {
        NewIsDistinct(w, rest, raise);
        assert Reductions(p, residents) == lower;
      }
    }
  }

  lemma OrderIsDistinct(p: seq<Write>, residents: Amps)
    requires Distinct(p)
    ensures Distinct(Ordered(p, residents))
  {
    SplitKeepsDistinct(p, residents);
    OrderKeeps(p, residents);
    var lower, raise := Reductions(p, residents), Increases(p, residents);
    forall a, b | 0 <= a < |lower| && 0 <= b < |raise| ensures lower[a].id != raise[b].id {
      assert lower[a] in p && raise[b] in p;
      var x :| 0 <= x < |p| && p[x] == lower[a];
      var y :| 0 <= y < |p| && p[y] == raise[b];
    }
  }

  predicate AllSettable(t: Topology, written: Amps) {
    forall i :: 0 <= i < |t.inverters| && i in written ==> t.inverters[i].settable
  }

  /** The intent's own inverter stays in the plan: it names the bank the inverter belongs to,
      or the inverter is not known to carry anything behind the planned connection. */
  predicate Accounted(t: Topology, written: Amps, inverter: nat, bank: nat)
    requires t.Sane() && bank < |t.banks|
  {
    || inverter >= |t.inverters| || t.inverters[inverter].bank == bank
    || Held(written, inverter) == 0.0 || t.ConnectionOf(inverter) != t.banks[bank].connection
  }

  lemma PlanIsSound(
      t: Topology, requested: Amps, written: Amps, inverter: nat, bank: nat, charge: real, allowanceKw: Option<real>)
    requires t.Sane() && AllSettable(t, written) && bank < |t.banks| && Accounted(t, written, inverter, bank)
    ensures
      var p := Planned(t, requested, written, inverter, bank, charge, allowanceKw);
      var c := t.banks[bank].connection;
      PlanFits(t, requested, allowanceKw, c, p) && PlanCovers(t, written, c, p)
  {
    var c := t.banks[bank].connection;
    var peers := Peers(t, requested, written, inverter, c, allowanceKw, |t.inverters|);
    PeersFit(t, requested, written, inverter, c, allowanceKw, |t.inverters|);
    var own := Clamp(t, inverter, bank, charge, allowanceKw, requested);
    var p := Planned(t, requested, written, inverter, bank, charge, allowanceKw);
    if own.Some? {
      ClampFits(t, requested, inverter, bank, charge, allowanceKw, own.value);
      assert Write(inverter, own.value) in p;
    }
    assert forall w :: w in peers ==> w in p;
    forall i | 0 <= i < |t.inverters| && t.ConnectionOf(i) == c && Held(written, i) > 0.0
      ensures Writes(p, i)
    {
      if i != inverter {
        var w :| w in peers && w.id == i;
        assert w in p;
      }
    }
  }

  /** A command to a settable inverter of the connection. */
  predicate IsWriteOf(t: Topology, w: Write, c: nat)
    requires t.Sane()
  {
    w.amps >= 0.0 && w.id < |t.inverters| && t.inverters[w.id].settable && t.ConnectionOf(w.id) == c
  }

  lemma PlanStaysOnConnection(
      t: Topology, requested: Amps, written: Amps, inverter: nat, bank: nat, charge: real, allowanceKw: Option<real>)
    requires t.Sane() && bank < |t.banks|
    ensures
      var p := Planned(t, requested, written, inverter, bank, charge, allowanceKw);
      Distinct(p) && forall w :: w in p ==> IsWriteOf(t, w, t.banks[bank].connection)
  {
    PeersAreDistinct(t, requested, written, inverter, t.banks[bank].connection, allowanceKw, |t.inverters|);
    PeersAreSettable(t, requested, written, inverter, t.banks[bank].connection, allowanceKw, |t.inverters|);
  }

  /** Everything the record knows to carry current is planned exactly when the intent is
      accounted for. */
  lemma PlanCoversExactlyWhen(
      t: Topology, requested: Amps, written: Amps, inverter: nat, bank: nat, charge: real, allowanceKw: Option<real>)
    requires t.Sane() && AllSettable(t, written) && bank < |t.banks|
    ensures
      PlanCovers(t, written, t.banks[bank].connection,
                 Planned(t, requested, written, inverter, bank, charge, allowanceKw))
      <==> Accounted(t, written, inverter, bank)
  {
    var c := t.banks[bank].connection;
    var p := Planned(t, requested, written, inverter, bank, charge, allowanceKw);
    if Accounted(t, written, inverter, bank) {
      PlanIsSound(t, requested, written, inverter, bank, charge, allowanceKw);
    } else {
      PeersAreDistinct(t, requested, written, inverter, c, allowanceKw, |t.inverters|);
      assert p == Peers(t, requested, written, inverter, c, allowanceKw, |t.inverters|);
      assert t.ConnectionOf(inverter) == c && Held(written, inverter) > 0.0 && !Writes(p, inverter);
    }
  }

  lemma {:induction false} AppliedOneMore(a: Amps, p: seq<Write>, k: nat)
    requires k < |p|
    ensures Applied(a, p[..k + 1]) == Applied(a, p[..k])[p[k].id := p[k].amps]
    decreases k
  {
    assert p[..k + 1][0] == p[0] && p[..k + 1][1..] == p[1..][..k];
    if k == 0 {
      assert p[1..][..0] == [];
    } else {
      assert p[..k][0] == p[0] && p[..k][1..] == p[1..][..k - 1];
      AppliedOneMore(a[p[0].id := p[0].amps], p[1..], k - 1);
    }
  }

  lemma {:induction false} AppliedKeepsSettable(t: Topology, a: Amps, p: seq<Write>)
    requires AllSettable(t, a) && forall w :: w in p && w.id < |t.inverters| ==> t.inverters[w.id].settable
    ensures AllSettable(t, Applied(a, p))
    decreases |p|
  {
    if p != [] {
      AppliedKeepsSettable(t, a[p[0].id := p[0].amps], p[1..]);
    }
  }

  lemma {:induction false} PeersAreSettable(
      t: Topology, requested: Amps, written: Amps, skip: nat, c: nat, allowanceKw: Option<real>, n: nat)
    requires t.Sane() && n <= |t.inverters|
    ensures forall w :: w in Peers(t, requested, written, skip, c, allowanceKw, n) ==>
      w.id < |t.inverters| && t.inverters[w.id].settable
  {
    if n > 0 {
      PeersAreSettable(t, requested, written, skip, c, allowanceKw, n - 1);
    }
  }

  /** An intent whose bank is not its inverter's own takes the inverter's request out of
      the totals while its resident current stays: the peers are then raised into the
      whole allowance, and the connection draws twice as much. */
  lemma MismatchedBankOverdraws()
    ensures
      var t := Topology([Inverter(0, true, 1.0, 100.0), Inverter(1, true, 1.0, 100.0)],
                        [Bank(0, 1000.0, 1.0, 100.0), Bank(0, 1000.0, 1.0, 100.0)]);
      var written: Amps := map[0 := 10.0, 1 := 0.0];
      var requested: Amps := map[0 := 0.0, 1 := 10.0];
      var p := Planned(t, requested, written, 0, 1, 0.0, Some(10.0));
      && t.Sane() && !Accounted(t, written, 0, 1) && Power(t, written, 0) == 10.0
      && p == [Write(1, 10.0)] && Power(t, Applied(written, p), 0) == 20.0
      && !Within(t, written, Applied(written, p), 0, Some(10.0))
  {
    var t := Topology([Inverter(0, true, 1.0, 100.0), Inverter(1, true, 1.0, 100.0)],
                      [Bank(0, 1000.0, 1.0, 100.0), Bank(0, 1000.0, 1.0, 100.0)]);
    var written: Amps := map[0 := 10.0, 1 := 0.0];
    var requested: Amps := map[0 := 0.0, 1 := 10.0];
    assert t.KwPerAmp(0) == 1.0 && t.KwPerAmp(1) == 1.0;
    assert forall a: Amps :: Power(t, a, 0) == PowerKw(t, a, 0, 1) + Kw(Held(a, 1), 1.0);
    assert forall a: Amps :: PowerKw(t, a, 0, 1) == PowerKw(t, a, 0, 0) + Kw(Held(a, 0), 1.0);
    assert BankSum(t, requested, 1, 1) == 0.0 && BankCurrent(t, requested, 1) == 10.0;
    assert BankSum(t, requested, 0, 1) == 0.0 && BankCurrent(t, requested, 0) == 0.0;
    assert ConnectionWatts(t, requested, 0, 1, 2) == 0.0;
    assert ConnectionWatts(t, requested, 0, 2, 2) == 10000.0;
    assert BankShare(t, requested, 1) == 1.0;
    assert ShareKw(t, requested, 1, 10.0) == 10.0;
    assert AllowedA(t, requested, 1, 10.0) == 10.0;
    assert Setpoint(t.inverters[1], 10.0) == Some(10.0);
    assert Clamp(t, 1, 1, 10.0, Some(10.0), requested) == Some(10.0);
    assert Clamp(t, 0, 1, 0.0, Some(10.0), requested).None?;
    assert Peers(t, requested, written, 0, 0, Some(10.0), 1) == [];
    assert Planned(t, requested, written, 0, 1, 0.0, Some(10.0)) == [Write(1, 10.0)];
    var now := Applied(written, [Write(1, 10.0)]);
    assert [Write(1, 10.0)][1..] == [];
    assert now == written[1 := 10.0];
  }

  /** Every other inverter of the connection carries a current this request leaves it. */
  predicate OthersFit(t: Topology, requested: Amps, allowanceKw: Option<real>, a: Amps, inverter: nat)
    requires t.Sane() && inverter < |t.inverters|
  {
    forall i {:trigger Held(a, i)} ::
      0 <= i < |t.inverters| && i != inverter && t.ConnectionOf(i) == t.ConnectionOf(inverter) ==>
        Fits(t, requested, allowanceKw, i, Held(a, i))
  }

  lemma OneClampIsWithin(
      t: Topology, requested: Amps, a: Amps, inverter: nat, bank: nat, charge: real, allowanceKw: Option<real>,
      clamp: real)
    requires t.Sane() && inverter < |t.inverters|
    requires Clamp(t, inverter, bank, charge, allowanceKw, requested) == Some(clamp)
    ensures clamp <= Held(a, inverter) || OthersFit(t, requested, allowanceKw, a, inverter) ==>
      Within(t, a, a[inverter := clamp], t.ConnectionOf(inverter), allowanceKw)
  {
    var now, c := a[inverter := clamp], t.ConnectionOf(inverter);
    assert forall i :: Held(now, i) == if i == inverter then clamp else Held(a, i);
    if clamp <= Held(a, inverter) {
      LowerIsWithin(t, a, now, c, allowanceKw);
    } else if OthersFit(t, requested, allowanceKw, a, inverter) {
      ClampFits(t, requested, inverter, bank, charge, allowanceKw, clamp);
      FittingIsWithin(t, requested, a, now, c, allowanceKw);
    }
  }
}
