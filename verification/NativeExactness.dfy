/** Exactly when the native boundary keeps a whole connection within its allowance. */
module NativeExactness {
  import opened Basics
  import opened ChargeClamp
  import opened ClampedWriting
  import opened RecordedWriting
  import opened RecordExactness
  import opened NativeWriting
  import opened NativeRuns

  /** A request the boundary may meet: on this wiring, through settable drivers, with
      requests for just the inverters of the connection asked before, and itself. */
  predicate MayMeet(t: Topology, u: Topology, asked: set<nat>, requested: Amps, c: nat, inverter: nat) {
    && u.Sane() && SameWiring(t, u) && inverter < |u.inverters| && u.ConnectionOf(inverter) == c
    && AllSet(u, requested, c) && IsAsked(u, asked, requested, c, inverter)
  }

  predicate IsAsked(u: Topology, asked: set<nat>, requested: Amps, c: nat, inverter: nat)
    requires u.Sane()
  {
    && inverter in requested
    && forall i :: 0 <= i < |u.inverters| && u.ConnectionOf(i) == c ==>
         (i in requested <==> i in asked || i == inverter)
  }

  predicate StaysWhole(
      u: Topology, words: Words, requested: Amps, inverter: nat, allowanceKw: Option<real>, k: nat)
    requires u.Sane() && inverter < |u.inverters|
  {
    var order := CommitOrder(u, words, requested, inverter, allowanceKw);
    k <= |order| ==> WholeWithin(u, words, Committed(words, order, k), u.ConnectionOf(inverter), allowanceKw)
  }

  /** No request through any drivers, at any allowance, takes the whole connection beyond
      both its allowance and what it drew, at any of its commits. */
  ghost predicate KeepsWhole(t: Topology, words: Words, asked: set<nat>, c: nat) {
    forall u: Topology, requested: Amps, inverter: nat, allowanceKw: Option<real>, k: nat ::
      MayMeet(t, u, asked, requested, c, inverter) ==> StaysWhole(u, words, requested, inverter, allowanceKw, k)
  }

  /** Every register of the connection that is not zero has a request, or is all there is. */
  predicate Accounts(t: Topology, words: Words, asked: set<nat>, c: nat)
    requires t.Sane()
  {
    forall i, j :: 0 <= i < |t.inverters| && 0 <= j < |t.inverters| && IsPair(t, c, i, j) ==>
      i in words && (words[i] > 0 ==> i in asked)
  }

  /** The whole connection is kept within bounds exactly when every register that is not
      zero has a request. */
  lemma WholeKeptExactlyWhenTracked(t: Topology, words: Words, asked: set<nat>, c: nat)
    requires t.Sane() && forall i :: 0 <= i < |t.inverters| ==> i in words
    ensures KeepsWhole(t, words, asked, c) <==> Accounts(t, words, asked, c)
  {
    if Accounts(t, words, asked, c) {
      forall u: Topology, requested: Amps, inverter: nat, allowanceKw: Option<real>, k: nat |
        MayMeet(t, u, asked, requested, c, inverter)
        ensures StaysWhole(u, words, requested, inverter, allowanceKw, k)
      {
        AccountedIsTracked(t, u, words, asked, requested, c, inverter);
        if k <= |CommitOrder(u, words, requested, inverter, allowanceKw)| {
          CommitsStayWhole(u, words, requested, inverter, allowanceKw, k);
        }
      }
    } else {
      var i: nat, j: nat :| i < |t.inverters| && j < |t.inverters| && IsPair(t, c, i, j) && words[i] > 0 && i !in asked;
      UntrackedOverdraws(t, words, asked, c, i, j);
    }
  }

  lemma AccountedIsTracked(
      t: Topology, u: Topology, words: Words, asked: set<nat>, requested: Amps, c: nat, inverter: nat)
    requires t.Sane() && Accounts(t, words, asked, c) && MayMeet(t, u, asked, requested, c, inverter)
    ensures Tracked(u, words, requested, c)
  {
    forall i | 0 <= i < |u.inverters| && u.ConnectionOf(i) == c && i in words && words[i] > 0 ensures i in requested {
      if i != inverter {
        assert IsPair(t, c, i, inverter);
      }
    }
  }

  // ---------------------------------------------------------------- one request too far

  /** Nothing is asked of the others, and this much of one. */
  function OneAsked(t: Topology, asked: set<nat>, j: nat, amps: real): (r: Amps)
    requires j < |t.inverters|
    ensures forall i :: i in r <==> i == j || (i < |t.inverters| && i in asked)
    ensures forall i :: Held(r, i) == if i == j then Current(amps) else 0.0
  {
    (map i | 0 <= i < |t.inverters| && i in asked :: 0.0)[j := amps]
  }

  lemma {:induction false} TwoOfMany(u: Topology, a: Amps, i: nat, j: nat, c: nat, n: nat)
    requires u.Sane() && n <= |u.inverters| && i < |u.inverters| && j < |u.inverters| && IsPair(u, c, i, j)
    requires forall k :: 0 <= k < |u.inverters| ==> u.KwPerAmp(k) == 1.0
    ensures PowerKw(u, a, c, n) >= (if i < n then Held(a, i) else 0.0) + (if j < n then Held(a, j) else 0.0)
  {
    if n > 0 {
      TwoOfMany(u, a, i, j, c, n - 1);
    }
  }

  lemma {:induction false} OnlyOne(u: Topology, a: Amps, j: nat, c: nat, n: nat)
    requires u.Sane() && n <= |u.inverters| && j < |u.inverters| && u.ConnectionOf(j) == c && u.KwPerAmp(j) == 1.0
    requires forall k {:trigger Held(a, k)} :: 0 <= k < |u.inverters| && k != j ==> Held(a, k) == 0.0
    ensures PowerKw(u, a, c, n) == if j < n then Held(a, j) else 0.0
  {
    if n > 0 {
      OnlyOne(u, a, j, c, n - 1);
    }
  }

  lemma {:induction false} SameAtOneKw(u: Topology, v: Topology, a: Amps, c: nat, n: nat)
    requires u.Sane() && v.Sane() && SameWiring(u, v) && n <= |u.inverters|
    requires forall k :: 0 <= k < |u.inverters| ==> u.KwPerAmp(k) == 1.0 && v.KwPerAmp(k) == 1.0
    ensures PowerKw(u, a, c, n) == PowerKw(v, a, c, n)
  {
    if n > 0 {
      SameAtOneKw(u, v, a, c, n - 1);
    }
  }

  lemma WholeAmps(amps: real, n: nat)
    requires amps == n as real
    ensures CurrentWord(amps) as real / 10.0 == amps
  {
    assert amps * 10.0 == (n * 10) as real;
  }

  /** What one request more than the connection draws leaves in the registers. */
  lemma LeftByOneRequest(t: Topology, words: Words, asked: set<nat>, i: nat, j: nat, amps: real, n: nat, c: nat)
    requires t.Sane() && i < |t.inverters| && j < |t.inverters| && IsPair(t, c, i, j) && i !in asked
    requires forall k :: 0 <= k < |t.inverters| ==> k in words
    requires amps == n as real
    ensures
      var requested := OneAsked(t, asked, j, amps);
      var u := Tailored(t, requested);
      var order := CommitOrder(u, words, requested, j, Some(Power(u, requested, c)));
      var now := Committed(words, order, |order|);
      i in now && j in now && now[i] == words[i] && now[j] as real / 10.0 == amps
  {
    var requested := OneAsked(t, asked, j, amps);
    var u := Tailored(t, requested);
    var allowance := Some(Power(u, requested, c));
    var keep := Requested(u, requested, c);
    var p := TransactionPlan(u, requested, j, allowance);
    var order := CommitOrder(u, words, requested, j, allowance);
    TailoredPlan(t, requested, requested, j, p);
    OrderIsSound(u, words, requested, j, allowance);
    OrderKeeps(p, AmpsOf(words, keep));
    var own := p[|p| - 1];
    assert own in p && own in order;
    var m :| 0 <= m < |order| && order[m] == own;
    CommittedValue(words, order, |order|, j);
    CommittedValue(words, order, |order|, i);
    forall k | 0 <= k < |order| ensures order[k].id != i {
      assert order[k] in order;
    }
    WholeAmps(amps, n);
  }

  lemma UntrackedOverdraws(t: Topology, words: Words, asked: set<nat>, c: nat, i: nat, j: nat)
    requires t.Sane() && forall k :: 0 <= k < |t.inverters| ==> k in words
    requires i < |t.inverters| && j < |t.inverters| && IsPair(t, c, i, j) && words[i] > 0 && i !in asked
    ensures !KeepsWhole(t, words, asked, c)
  {
    var plain := Tailored(t, map[]);
    var residents := AmpsOf(words, words.Keys);
    var n: nat := Power(plain, residents, c).Floor + 1;
    var amps := n as real;
    var requested := OneAsked(t, asked, j, amps);
    var u := Tailored(t, requested);
    var order := CommitOrder(u, words, requested, j, Some(amps));
    SameAtOneKw(plain, u, residents, c, |t.inverters|);
    OnlyOne(u, requested, j, c, |t.inverters|);
    LeftByOneRequest(t, words, asked, i, j, amps, n, c);
    var now := Committed(words, order, |order|);
    TwoOfMany(u, AmpsOf(now, now.Keys), i, j, c, |t.inverters|);
    assert Held(AmpsOf(now, now.Keys), i) == words[i] as real / 10.0 > 0.0;
    assert Held(AmpsOf(now, now.Keys), j) == amps;
    assert !WholeWithin(u, words, now, c, Some(amps));
    assert MayMeet(t, u, asked, requested, c, j);
    assert !StaysWhole(u, words, requested, j, Some(amps), |order|);
  }

  // ---------------------------------------------------------------- two ways to lose a request

  const HALF_FULL: Words := map[0 := 100, 1 := 0]

  /** One inverter draws the whole allowance, and its request is forgotten: by a new epoch,
      or because the transaction that raised it was itself cut short. */
  lemma TwoWaysToForget()
    ensures
      var allowances := map[0 := 10.0];
      var zero := Plant(map[0 := 0, 1 := 0], map[]);
      var full := Ask(0, 10.0, 1, Counts);
      && Possible(PAIR, zero, full, allowances)
      && Next(PAIR, Next(PAIR, zero, full, allowances), NewEpoch, allowances) == Plant(HALF_FULL, map[])
      && Possible(PAIR, zero, full.(ending := Raises), allowances)
      && Next(PAIR, zero, full.(ending := Raises), allowances) == Plant(HALF_FULL, map[])
  {
    var zero: Words := map[0 := 0, 1 := 0];
    OneRequest(zero, 0, 100);
    WholeAmps(10.0, 10);
    assert zero[0 := 100] == HALF_FULL;
  }

  /** The next request is then given the whole allowance again: 20 kW where 10 are allowed. */
  lemma AForgottenRequestOverdraws()
    ensures
      var allowances := map[0 := 10.0];
      var p, x := Plant(HALF_FULL, map[]), Ask(1, 10.0, 1, Counts);
      && Possible(PAIR, p, x, allowances)
      && Power(PAIR, Residents(p), 0) == 10.0 && Power(PAIR, Residents(Next(PAIR, p, x, allowances)), 0) == 20.0
  {
    OneRequest(HALF_FULL, 1, 100);
    WholeAmps(10.0, 10);
    var both := HALF_FULL[1 := 100];
    PairPower(AmpsOf(HALF_FULL, HALF_FULL.Keys));
    PairPower(AmpsOf(both, both.Keys));
  }

  /** A request alone on its connection, as far as the boundary knows. */
  lemma OneRequest(words: Words, i: nat, word: nat)
    requires i < 2 && 0 in words && 1 in words && words[i] == 0 && word == CurrentWord(10.0)
    ensures
      var p, x := Plant(words, map[]), Ask(i, 10.0, 1, Counts);
      && AskOrder(PAIR, p, x, map[0 := 10.0]) == [Write(i, 10.0)]
      && Committed(words, [Write(i, 10.0)], 1) == words[i := word]
      && AllSet(PAIR, NativeRuns.Asked(p, x), 0) && PAIR.ConnectionOf(i) == 0
  {
    var requested: Amps := map[i := 10.0];
    PairClamp(requested, i, 10.0, 10);
    assert map[][i := 10.0] == requested;
    assert Peers(PAIR, requested, requested, i, 0, Some(10.0), 0) == [];
    assert Peers(PAIR, requested, requested, i, 0, Some(10.0), 1) == [];
    assert Peers(PAIR, requested, requested, i, 0, Some(10.0), 2) == [];
    var p := TransactionPlan(PAIR, requested, i, Some(10.0));
    assert p == [Write(i, 10.0)];
    var a := AmpsOf(words, Requested(PAIR, requested, 0));
    assert [Write(i, 10.0)][1..] == [] && Reductions([], a) == [] && Increases([], a) == [];
  }
}
