/** The proportional charge clamp: a connection's AC allowance shared between banks by
    requested power, and each bank's share between its inverters by requested current.

    Inverters and banks are named by their position, so every name resolves. Amounts
    are exact reals; a setpoint is rounded down to its driver's step. */
module ChargeClamp {
  import opened Basics

  datatype Inverter = Inverter(bank: nat, settable: bool, step: real, ceilingA: real)
  datatype Bank = Bank(connection: nat, voltage: real, efficiency: real, limitA: real) {
    /** AC volts drawn per DC amp stored: every conversion is by this ratio. */
    function AcPerAmp(): (k: real)
      requires voltage > 0.0 && efficiency > 0.0
      ensures k > 0.0
    {
      voltage / efficiency
    }
  }

  datatype Topology = Topology(inverters: seq<Inverter>, banks: seq<Bank>) {
    predicate Sane() {
      && (forall i :: 0 <= i < |inverters| ==>
            inverters[i].bank < |banks| && inverters[i].step > 0.0 && inverters[i].ceilingA >= 0.0)
      && (forall b :: 0 <= b < |banks| ==>
            banks[b].voltage > 0.0 && 0.0 < banks[b].efficiency <= 1.0 && banks[b].limitA >= 0.0)
    }

    function ConnectionOf(i: nat): nat
      requires Sane() && i < |inverters|
    {
      banks[inverters[i].bank].connection
    }

    /** AC kilowatts drawn per DC amp stored. */
    function KwPerAmp(i: nat): (k: real)
      requires Sane() && i < |inverters|
      ensures k > 0.0
    {
      banks[inverters[i].bank].AcPerAmp() / 1000.0
    }
  }

  type Amps = map<nat, real>

  function Current(v: real): (c: real)
    ensures c >= 0.0
  {
    if v >= 0.0 then v else 0.0
  }

  function Held(a: Amps, i: nat): (c: real)
    ensures c >= 0.0
  {
    if i in a then Current(a[i]) else 0.0
  }

  function Min(a: real, b: real): real {
    if a <= b then a else b
  }

  function Max(a: real, b: real): real {
    if a >= b then a else b
  }

  /** The driver's own command: none when it cannot be set, otherwise floored to a step. */
  function Setpoint(inv: Inverter, requested: real): (r: Option<real>)
    requires inv.step > 0.0 && inv.ceilingA >= 0.0 && requested >= 0.0
    ensures r.Some? <==> inv.settable
    ensures r.Some? ==> 0.0 <= r.value <= Min(requested, inv.ceilingA) <= r.value + inv.step
  {
    if !inv.settable then None
    else
      var ceiling := Min(requested, inv.ceilingA);
      FloorToStep(ceiling, inv.step);
      Some(Min(Steps((ceiling / inv.step).Floor as real, inv.step), ceiling))
  }

  /** Steps of one size, as one term. */
  function Steps(n: real, step: real): real {
    n * step
  }

  lemma FewerStepsAreLess(m: real, n: real, step: real)
    requires step > 0.0 && m <= n
    ensures Steps(m, step) <= Steps(n, step)
  {
    assert (n - m) * step >= 0.0;
  }

  lemma FloorToStep(x: real, step: real)
    requires step > 0.0 && x >= 0.0
    ensures 0.0 <= Steps((x / step).Floor as real, step) <= x <= Steps((x / step).Floor as real, step) + step
  {
    var q := x / step;
    var n := q.Floor as real;
    assert q >= 0.0;
    assert Steps(q, step) == x;
    FewerStepsAreLess(0.0, n, step);
    FewerStepsAreLess(n, q, step);
    FewerStepsAreLess(q, n + 1.0, step);
    assert Steps(n + 1.0, step) == Steps(n, step) + step;
  }

  // ---------------------------------------------------------------- sums

  /** Requested current of one bank, over the first n inverters. */
  function BankSum(t: Topology, a: Amps, b: nat, n: nat): (s: real)
    requires n <= |t.inverters|
    ensures s >= 0.0
  {
    if n == 0 then 0.0
    else BankSum(t, a, b, n - 1) + (if t.inverters[n - 1].bank == b then Held(a, n - 1) else 0.0)
  }

  function BankWatts(t: Topology, a: Amps, b: nat, n: nat): (p: real)
    requires t.Sane() && b < |t.banks| && n <= |t.inverters|
    ensures p >= 0.0
  {
    BankSum(t, a, b, n) * t.banks[b].AcPerAmp()
  }

  /** Requested power of one connection, bank by bank as the clamp totals it. */
  function ConnectionWatts(t: Topology, a: Amps, c: nat, m: nat, n: nat): (p: real)
    requires t.Sane() && m <= |t.banks| && n <= |t.inverters|
    ensures p >= 0.0
  {
    if m == 0 then 0.0
    else ConnectionWatts(t, a, c, m - 1, n)
         + (if t.banks[m - 1].connection == c then BankWatts(t, a, m - 1, n) else 0.0)
  }

  /** Power behind one connection, inverter by inverter, as the supply feels it. */
  function PowerKw(t: Topology, a: Amps, c: nat, n: nat): (p: real)
    requires t.Sane() && n <= |t.inverters|
    ensures p >= 0.0
  {
    if n == 0 then 0.0
    else PowerKw(t, a, c, n - 1)
         + (if t.ConnectionOf(n - 1) == c then Kw(Held(a, n - 1), t.KwPerAmp(n - 1)) else 0.0)
  }

  function Power(t: Topology, a: Amps, c: nat): real
    requires t.Sane()
  {
    PowerKw(t, a, c, |t.inverters|)
  }

  function BankCurrent(t: Topology, a: Amps, b: nat): real {
    BankSum(t, a, b, |t.inverters|)
  }

  lemma OneMoreInBank(t: Topology, a: Amps, b: nat, n: nat)
    requires t.Sane() && b < |t.banks| && n < |t.inverters|
    ensures BankWatts(t, a, b, n + 1) == BankWatts(t, a, b, n)
      + (if t.inverters[n].bank == b then Kw(Held(a, n), t.KwPerAmp(n)) * 1000.0 else 0.0)
  {
    if t.inverters[n].bank == b {
      Distributes(BankSum(t, a, b, n), Held(a, n), t.banks[b].AcPerAmp());
    }
  }

  lemma Distributes(s: real, h: real, k: real)
    ensures (s + h) * k == s * k + h * (k / 1000.0) * 1000.0
  {
  }

  lemma {:induction false} OneMoreInverter(t: Topology, a: Amps, c: nat, m: nat, n: nat)
    requires t.Sane() && m <= |t.banks| && n < |t.inverters|
    ensures ConnectionWatts(t, a, c, m, n + 1) == ConnectionWatts(t, a, c, m, n)
      + (if t.inverters[n].bank < m && t.ConnectionOf(n) == c
         then Kw(Held(a, n), t.KwPerAmp(n)) * 1000.0 else 0.0)
  {
    if m > 0 {
      OneMoreInverter(t, a, c, m - 1, n);
      var before, after, each := BankWatts(t, a, m - 1, n), BankWatts(t, a, m - 1, n + 1),
                                 Kw(Held(a, n), t.KwPerAmp(n)) * 1000.0;
      assert after == before + (if t.inverters[n].bank == m - 1 then each else 0.0) by {
        OneMoreInBank(t, a, m - 1, n);
      }
    }
  }

  /** Both ways of adding a connection up agree. */
  lemma {:induction false} BanksAddUpToInverters(t: Topology, a: Amps, c: nat, n: nat)
    requires t.Sane() && n <= |t.inverters|
    ensures ConnectionWatts(t, a, c, |t.banks|, n) == PowerKw(t, a, c, n) * 1000.0
  {
    if n == 0 {
      NoInverters(t, a, c, |t.banks|);
    } else {
      BanksAddUpToInverters(t, a, c, n - 1);
      OneMoreInverter(t, a, c, |t.banks|, n - 1);
    }
  }

  lemma {:induction false} NoInverters(t: Topology, a: Amps, c: nat, m: nat)
    requires t.Sane() && m <= |t.banks|
    ensures ConnectionWatts(t, a, c, m, 0) == 0.0
  {
    if m > 0 {
      NoInverters(t, a, c, m - 1);
    }
  }

  // ---------------------------------------------------------------- the clamp

  /** One inverter's share of its bank, by requested current. */
  function BankShare(t: Topology, requested: Amps, i: nat): (s: real)
    requires t.Sane() && i < |t.inverters|
    ensures s >= 0.0
  {
    var bankRequest := BankCurrent(t, requested, t.inverters[i].bank);
    if bankRequest > 0.0 then Held(requested, i) / bankRequest else 0.0
  }

  function BankA(limitA: real, bankShare: real): (a: real)
    ensures limitA >= 0.0 && bankShare >= 0.0 ==> a >= 0.0
  {
    limitA * bankShare
  }

  /** One bank's share of its connection's allowance, by requested power. */
  function ShareKw(t: Topology, requested: Amps, bank: nat, allowanceKw: real): (s: real)
    requires t.Sane() && bank < |t.banks|
    ensures s >= 0.0
  {
    var total := ConnectionWatts(t, requested, t.banks[bank].connection, |t.banks|, |t.inverters|);
    Fraction(Current(allowanceKw), BankWatts(t, requested, bank, |t.inverters|), total)
  }

  /** The power of a current, as one term. */
  function Kw(amps: real, kwPerAmp: real): (p: real)
    ensures amps >= 0.0 && kwPerAmp >= 0.0 ==> p >= 0.0
  {
    amps * kwPerAmp
  }

  /** The part of an amount that falls to one claim among a total of claims. */
  function Fraction(amount: real, claim: real, total: real): (f: real)
    ensures amount >= 0.0 && claim >= 0.0 ==> f >= 0.0
  {
    if total > 0.0 then amount * claim / total else 0.0
  }

  function DcAmps(shareKw: real, acPerAmp: real, bankShare: real): real
    requires acPerAmp > 0.0
  {
    shareKw * 1000.0 / acPerAmp * bankShare
  }

  /** The DC current an allowance leaves one inverter. */
  function AllowedA(t: Topology, requested: Amps, i: nat, allowanceKw: real): (a: real)
    requires t.Sane() && i < |t.inverters|
    ensures a >= 0.0
  {
    var bank := t.inverters[i].bank;
    DcAmps(ShareKw(t, requested, bank, allowanceKw), t.banks[bank].AcPerAmp(), BankShare(t, requested, i))
  }

  function Clamp(
      t: Topology, i: nat, bank: nat, charge: real, allowanceKw: Option<real>, requested: Amps)
    : (r: Option<real>)
    requires t.Sane()
    ensures r.Some? ==> i < |t.inverters| && 0.0 <= r.value <= Current(charge)
  {
    if i >= |t.inverters| || t.inverters[i].bank != bank then None
    else
      var own := Held(requested, i);
      var bankA := BankA(t.banks[bank].limitA, BankShare(t, requested, i));
      var ceiling := if allowanceKw.None? then bankA
                     else Min(bankA, AllowedA(t, requested, i, allowanceKw.value));
      Setpoint(t.inverters[i], Min(Min(Current(charge), own), ceiling))
  }

  /** The arithmetic of a share: the bank's own request and ratio cancel. */
  lemma ShareCancels(
      allowed: real, shareKw: real, allowance: real, bankWatts: real,
      r: real, ac: real, watts: real, own: real, k: real, total: real, part: real)
    requires r > 0.0 && ac > 0.0 && total > 0.0 && watts == total * 1000.0 && k == ac / 1000.0
    requires bankWatts == r * ac && shareKw == Fraction(allowance, bankWatts, watts)
    requires allowed == DcAmps(shareKw, ac, own / r) && part == Fraction(allowance, Kw(own, k), total)
    ensures Kw(allowed, k) == part
  {
    assert shareKw == allowance * (r * k) / total;
    var share := own / r;
    assert share * r == own;
    assert allowed * k == shareKw * share by {
      assert shareKw * 1000.0 / ac * share * k == shareKw * share * (1000.0 / ac * k);
    }
    assert shareKw * share == allowance * (r * share * k) / total;
  }

  /** The part of an allowance that falls to one inverter, by requested power. */
  function Part(t: Topology, requested: Amps, i: nat, allowanceKw: real): (p: real)
    requires t.Sane() && i < |t.inverters|
    ensures p >= 0.0
  {
    Fraction(Current(allowanceKw), Kw(Held(requested, i), t.KwPerAmp(i)), Power(t, requested, t.ConnectionOf(i)))
  }

  /** Nothing requested of the bank or the connection: nothing allowed. */
  lemma UnrequestedIsZero(t: Topology, requested: Amps, i: nat, allowanceKw: real)
    requires t.Sane() && i < |t.inverters|
    requires || BankCurrent(t, requested, t.inverters[i].bank) <= 0.0
             || Power(t, requested, t.ConnectionOf(i)) <= 0.0
    ensures AllowedA(t, requested, i, allowanceKw) == 0.0
  {
    if BankCurrent(t, requested, t.inverters[i].bank) <= 0.0 {
      assert BankShare(t, requested, i) == 0.0;
    } else {
      BanksAddUpToInverters(t, requested, t.ConnectionOf(i), |t.inverters|);
      assert ShareKw(t, requested, t.inverters[i].bank, allowanceKw) == 0.0;
    }
  }

  /** Where something is requested, an inverter's allowed current costs its connection
      exactly its part, by requested power, of the allowance. */
  lemma AllowedIsItsPart(
      t: Topology, requested: Amps, i: nat, allowanceKw: real, allowed: real, k: real, part: real)
    requires t.Sane() && i < |t.inverters| && allowed == AllowedA(t, requested, i, allowanceKw)
    requires k == t.KwPerAmp(i) && part == Part(t, requested, i, allowanceKw)
    requires BankCurrent(t, requested, t.inverters[i].bank) > 0.0 && Power(t, requested, t.ConnectionOf(i)) > 0.0
    ensures Kw(allowed, k) == part
  {
    var bank := t.inverters[i].bank;
    var total := Power(t, requested, t.ConnectionOf(i));
    BanksAddUpToInverters(t, requested, t.ConnectionOf(i), |t.inverters|);
    ShareCancels(allowed, ShareKw(t, requested, bank, allowanceKw), Current(allowanceKw),
                 BankWatts(t, requested, bank, |t.inverters|), BankCurrent(t, requested, bank),
                 t.banks[bank].AcPerAmp(),
                 ConnectionWatts(t, requested, t.ConnectionOf(i), |t.banks|, |t.inverters|),
                 Held(requested, i), k, total, part);
  }

  lemma AllowedWithinPart(
      t: Topology, requested: Amps, i: nat, allowanceKw: real, allowed: real, k: real, part: real)
    requires t.Sane() && i < |t.inverters| && allowed == AllowedA(t, requested, i, allowanceKw)
    requires k == t.KwPerAmp(i) && part == Part(t, requested, i, allowanceKw)
    ensures Kw(allowed, k) <= part
  {
    if || BankCurrent(t, requested, t.inverters[i].bank) <= 0.0
       || Power(t, requested, t.ConnectionOf(i)) <= 0.0
    {
      assert allowed == 0.0 by { UnrequestedIsZero(t, requested, i, allowanceKw); }
    } else {
      AllowedIsItsPart(t, requested, i, allowanceKw, allowed, k, part);
    }
  }

  lemma ClampWithinAllowed(t: Topology, requested: Amps, i: nat, bank: nat, charge: real, allowanceKw: real)
    requires t.Sane() && Clamp(t, i, bank, charge, Some(allowanceKw), requested).Some?
    ensures Clamp(t, i, bank, charge, Some(allowanceKw), requested).value
         <= AllowedA(t, requested, i, allowanceKw)
  {
  }

  lemma ClampCostsItsPart(
      t: Topology, requested: Amps, i: nat, bank: nat, charge: real, allowanceKw: real,
      clamp: real, k: real, part: real)
    requires t.Sane() && Clamp(t, i, bank, charge, Some(allowanceKw), requested) == Some(clamp)
    requires k == t.KwPerAmp(i) && part == Part(t, requested, i, allowanceKw)
    ensures Kw(clamp, k) <= part
  {
    var allowed := AllowedA(t, requested, i, allowanceKw);
    assert Kw(clamp, k) <= Kw(allowed, k) by {
      ClampWithinAllowed(t, requested, i, bank, charge, allowanceKw);
      KwIsMonotone(clamp, allowed, k);
    }
    AllowedWithinPart(t, requested, i, allowanceKw, allowed, k, part);
  }

  // ---------------------------------------------------------------- shares add up

  lemma FractionAdds(amount: real, x: real, y: real, total: real)
    ensures Fraction(amount, x + y, total) == Fraction(amount, x, total) + Fraction(amount, y, total)
  {
    if total > 0.0 {
      assert amount * (x + y) == amount * x + amount * y;
    }
  }

  lemma FractionOfAll(amount: real, total: real)
    requires amount >= 0.0
    ensures Fraction(amount, total, total) <= amount
  {
    if total > 0.0 {
      assert amount * total / total == amount;
    }
  }

  /** Currents that each cost at most their part cost together at most the allowance. */
  lemma {:induction false} PartsAddUp(
      t: Topology, requested: Amps, a: Amps, c: nat, allowanceKw: real, n: nat, total: real)
    requires t.Sane() && n <= |t.inverters| && total == Power(t, requested, c)
    requires forall i :: 0 <= i < |t.inverters| && t.ConnectionOf(i) == c ==>
      Kw(Held(a, i), t.KwPerAmp(i)) <= Part(t, requested, i, allowanceKw)
    ensures PowerKw(t, a, c, n) <= Fraction(Current(allowanceKw), PowerKw(t, requested, c, n), total)
  {
    if n > 0 {
      PartsAddUp(t, requested, a, c, allowanceKw, n - 1, total);
      if t.ConnectionOf(n - 1) == c {
        FractionAdds(Current(allowanceKw), PowerKw(t, requested, c, n - 1),
                     Kw(Held(requested, n - 1), t.KwPerAmp(n - 1)), total);
      }
    }
  }

  lemma {:induction false} BankPartsAddUp(
      t: Topology, requested: Amps, a: Amps, b: nat, n: nat, total: real)
    requires t.Sane() && b < |t.banks| && n <= |t.inverters| && total == BankCurrent(t, requested, b)
    requires forall i :: 0 <= i < |t.inverters| && t.inverters[i].bank == b ==>
      Held(a, i) <= Fraction(t.banks[b].limitA, Held(requested, i), total)
    ensures BankSum(t, a, b, n) <= Fraction(t.banks[b].limitA, BankSum(t, requested, b, n), total)
  {
    if n > 0 {
      BankPartsAddUp(t, requested, a, b, n - 1, total);
      if t.inverters[n - 1].bank == b {
        FractionAdds(t.banks[b].limitA, BankSum(t, requested, b, n - 1), Held(requested, n - 1), total);
      }
    }
  }

  lemma BankShareIsPart(limit: real, own: real, r: real, share: real)
    requires share == if r > 0.0 then own / r else 0.0
    ensures BankA(limit, share) == Fraction(limit, own, r)
  {
  }

  lemma ClampWithinBankPart(
      t: Topology, requested: Amps, i: nat, bank: nat, charge: real, allowanceKw: Option<real>, clamp: real)
    requires t.Sane() && Clamp(t, i, bank, charge, allowanceKw, requested) == Some(clamp)
    ensures clamp <= Fraction(t.banks[bank].limitA, Held(requested, i), BankCurrent(t, requested, bank))
  {
    assert clamp <= BankA(t.banks[bank].limitA, BankShare(t, requested, i));
    BankShareIsPart(t.banks[bank].limitA, Held(requested, i), BankCurrent(t, requested, bank),
                    BankShare(t, requested, i));
  }

  /** What one request leaves each inverter at most, for its connection and its bank. */
  predicate WithinParts(t: Topology, requested: Amps, a: Amps, c: nat, allowanceKw: Option<real>)
    requires t.Sane()
  {
    forall i {:trigger Held(a, i)} :: 0 <= i < |t.inverters| && t.ConnectionOf(i) == c ==>
      && (allowanceKw.Some? ==>
            Kw(Held(a, i), t.KwPerAmp(i)) <= Part(t, requested, i, allowanceKw.value))
      && Held(a, i) <= Fraction(t.banks[t.inverters[i].bank].limitA, Held(requested, i),
                                BankCurrent(t, requested, t.inverters[i].bank))
  }

  /** Proportional shares never sum past the allowance, nor past a bank's limit. */
  lemma WithinPartsIsSafe(t: Topology, requested: Amps, a: Amps, c: nat, allowanceKw: Option<real>, b: nat)
    requires t.Sane() && WithinParts(t, requested, a, c, allowanceKw)
    ensures allowanceKw.Some? ==> Power(t, a, c) <= Current(allowanceKw.value)
    ensures b < |t.banks| && t.banks[b].connection == c ==> BankCurrent(t, a, b) <= t.banks[b].limitA
  {
    if allowanceKw.Some? {
      var total := Power(t, requested, c);
      PartsAddUp(t, requested, a, c, allowanceKw.value, |t.inverters|, total);
      FractionOfAll(Current(allowanceKw.value), total);
    }
    if b < |t.banks| && t.banks[b].connection == c {
      var total := BankCurrent(t, requested, b);
      BankPartsAddUp(t, requested, a, b, |t.inverters|, total);
      FractionOfAll(t.banks[b].limitA, total);
    }
  }

  lemma KwIsMonotone(x: real, y: real, k: real)
    requires x <= y && k > 0.0
    ensures Kw(x, k) <= Kw(y, k)
  {
  }

  lemma {:induction false} PowerIsMonotone(t: Topology, a: Amps, b: Amps, c: nat, n: nat)
    requires t.Sane() && n <= |t.inverters|
    requires forall i {:trigger Held(a, i)} :: 0 <= i < |t.inverters| ==> Held(a, i) <= Held(b, i)
    ensures PowerKw(t, a, c, n) <= PowerKw(t, b, c, n)
  {
    if n > 0 {
      PowerIsMonotone(t, a, b, c, n - 1);
      KwIsMonotone(Held(a, n - 1), Held(b, n - 1), t.KwPerAmp(n - 1));
    }
  }

  lemma {:induction false} BankIsMonotone(t: Topology, a: Amps, b: Amps, bank: nat, n: nat)
    requires n <= |t.inverters|
    requires forall i {:trigger Held(a, i)} :: 0 <= i < |t.inverters| ==> Held(a, i) <= Held(b, i)
    ensures BankSum(t, a, bank, n) <= BankSum(t, b, bank, n)
  {
    if n > 0 {
      BankIsMonotone(t, a, b, bank, n - 1);
    }
  }

  /** A connection's sums see only its own inverters. */
  lemma {:induction false} SameConnection(t: Topology, a: Amps, b: Amps, c: nat, n: nat)
    requires t.Sane() && n <= |t.inverters|
    requires forall i {:trigger Held(a, i)} :: 0 <= i < |t.inverters| && t.ConnectionOf(i) == c ==>
      Held(a, i) == Held(b, i)
    ensures PowerKw(t, a, c, n) == PowerKw(t, b, c, n)
    ensures forall k :: 0 <= k < |t.banks| && t.banks[k].connection == c ==> BankSum(t, a, k, n) == BankSum(t, b, k, n)
  {
    if n > 0 {
      SameConnection(t, a, b, c, n - 1);
    }
  }

  // ---------------------------------------------------------------- nothing withheld

  lemma WholeFraction(amount: real, claim: real, total: real)
    requires total > 0.0 && amount >= total && claim >= 0.0
    ensures Fraction(amount, claim, total) >= claim
  {
    var f := Fraction(amount, claim, total);
    assert f * total == amount * claim;
    assert amount * claim >= total * claim;
    assert (f - claim) * total >= 0.0;
  }

  lemma CheaperIsLess(x: real, y: real, k: real)
    requires k > 0.0 && Kw(x, k) >= Kw(y, k)
    ensures x >= y
  {
    assert Kw(x, k) - Kw(y, k) == (x - y) * k;
    FactorIsNotNegative(x - y, k);
  }

  lemma FactorIsNotNegative(d: real, k: real)
    requires k > 0.0 && d * k >= 0.0
    ensures d >= 0.0
  {
  }

  /** An allowance that covers everything requested behind the connection leaves every
      inverter at least what it asked for. */
  lemma AllowanceCoversRequests(t: Topology, requested: Amps, i: nat, allowanceKw: real)
    requires t.Sane() && i < |t.inverters| && Held(requested, i) > 0.0
    requires 0.0 < Power(t, requested, t.ConnectionOf(i)) <= allowanceKw
    requires BankCurrent(t, requested, t.inverters[i].bank) > 0.0
    ensures AllowedA(t, requested, i, allowanceKw) >= Held(requested, i)
  {
    var k, own := t.KwPerAmp(i), Held(requested, i);
    var allowed, part := AllowedA(t, requested, i, allowanceKw), Part(t, requested, i, allowanceKw);
    AllowedIsItsPart(t, requested, i, allowanceKw, allowed, k, part);
    WholeFraction(Current(allowanceKw), Kw(own, k), Power(t, requested, t.ConnectionOf(i)));
    CheaperIsLess(allowed, own, k);
  }

  lemma LimitCoversRequests(limitA: real, own: real, total: real, share: real)
    requires 0.0 < own <= total <= limitA && share == own / total
    ensures BankA(limitA, share) >= own
  {
    assert share * total == own;
    assert limitA * share >= total * share;
  }

  lemma {:induction false} OwnIsInBank(t: Topology, a: Amps, i: nat, n: nat)
    requires t.Sane() && i < n <= |t.inverters|
    ensures Held(a, i) <= BankSum(t, a, t.inverters[i].bank, n)
  {
    if i < n - 1 {
      OwnIsInBank(t, a, i, n - 1);
    }
  }

  lemma {:induction false} OwnIsInConnection(t: Topology, a: Amps, i: nat, n: nat)
    requires t.Sane() && i < n <= |t.inverters|
    ensures Kw(Held(a, i), t.KwPerAmp(i)) <= PowerKw(t, a, t.ConnectionOf(i), n)
  {
    if i < n - 1 {
      OwnIsInConnection(t, a, i, n - 1);
    }
  }

  /** The clamp takes nothing that fits: when the connection's requests fit the allowance
      and the bank's fit its limit, a settable inverter gets what it asked for, up to its
      own ceiling, to within one step of its driver. */
  lemma ClampPassesWhatFits(t: Topology, requested: Amps, i: nat, allowanceKw: Option<real>, clamp: real)
    requires t.Sane() && i < |t.inverters|
    requires allowanceKw.Some? ==> Power(t, requested, t.ConnectionOf(i)) <= allowanceKw.value
    requires BankCurrent(t, requested, t.inverters[i].bank) <= t.banks[t.inverters[i].bank].limitA
    requires Clamp(t, i, t.inverters[i].bank, Held(requested, i), allowanceKw, requested) == Some(clamp)
    ensures clamp <= Min(Held(requested, i), t.inverters[i].ceilingA) <= clamp + t.inverters[i].step
  {
    var own := Held(requested, i);
    if own > 0.0 {
      OwnIsInBank(t, requested, i, |t.inverters|);
      LimitCoversRequests(t.banks[t.inverters[i].bank].limitA, own, BankCurrent(t, requested, t.inverters[i].bank),
                          BankShare(t, requested, i));
      if allowanceKw.Some? {
        OwnIsInConnection(t, requested, i, |t.inverters|);
        PositiveKw(own, t.KwPerAmp(i));
        AllowanceCoversRequests(t, requested, i, allowanceKw.value);
      }
    }
  }

  lemma PositiveKw(amps: real, k: real)
    requires amps > 0.0 && k > 0.0
    ensures Kw(amps, k) > 0.0
  {
  }
}
