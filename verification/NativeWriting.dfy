/** The verified native boundary: registers hold tenths of an amp, a write may land or
    not whatever its answer, and one bad outcome ends the transaction. */
module NativeWriting {
  import opened Basics
  import opened ChargeClamp
  import opened ClampedWriting

  type Words = map<nat, nat>

  /** `Raised` is no answer: the commit was cut short by an exception. */
  datatype Outcome = AppliedCurrent | Unchanged | Refused | Unverified | Failed | Raised

  predicate Good(o: Outcome) {
    o == AppliedCurrent || o == Unchanged
  }

  /** Tenths of an amp, never above the request. */
  function CurrentWord(current: real): (w: nat)
    ensures w as real / 10.0 <= Current(current) < (w + 1) as real / 10.0
  {
    (Current(current) * 10.0).Floor
  }

  /** The currents of the devices a transaction plans, as their registers hold them. */
  function AmpsOf(words: Words, keep: set<nat>): Amps {
    map i | i in words && i in keep :: words[i] as real / 10.0
  }

  function Floored(p: seq<Write>): (f: seq<Write>)
    ensures |f| == |p|
    ensures forall k :: 0 <= k < |p| ==> f[k] == Write(p[k].id, CurrentWord(p[k].amps) as real / 10.0)
  {
    seq(|p|, k requires 0 <= k < |p| => Write(p[k].id, CurrentWord(p[k].amps) as real / 10.0))
  }

  lemma FloorDecides(amps: real, x: real, word: nat, w: nat)
    requires amps >= 0.0 && x == word as real / 10.0 && w == CurrentWord(amps)
    ensures w as real / 10.0 < x <==> amps < x
  {
    if w < word {
      assert (w + 1) as real <= word as real;
    } else {
      assert w as real >= word as real;
    }
  }

  predicate NonNegative(p: seq<Write>) {
    forall w :: w in p ==> w.amps >= 0.0
  }

  function FlooredOne(w: Write): Write {
    Write(w.id, CurrentWord(w.amps) as real / 10.0)
  }

  lemma FlooredSplits(p: seq<Write>, q: seq<Write>)
    ensures Floored(p + q) == Floored(p) + Floored(q)
  {
  }

  lemma FlooredOneKeepsSide(w: Write, words: Words, keep: set<nat>)
    requires w.amps >= 0.0
    ensures FlooredOne(w).amps < Held(AmpsOf(words, keep), w.id) <==> w.amps < Held(AmpsOf(words, keep), w.id)
  {
    var a := AmpsOf(words, keep);
    FloorDecides(w.amps, Held(a, w.id), if w.id in a then words[w.id] else 0, CurrentWord(w.amps));
  }

  predicate KeepsSides(p: seq<Write>, a: Amps) {
    forall w :: w in p ==> (FlooredOne(w).amps < Held(a, w.id) <==> w.amps < Held(a, w.id))
  }

  lemma FlooredTail(p: seq<Write>)
    requires p != []
    ensures Floored(p)[0] == FlooredOne(p[0]) && Floored(p)[1..] == Floored(p[1..])
    ensures Floored([p[0]]) == [FlooredOne(p[0])]
  {
  }

  lemma SidesOfTail(p: seq<Write>, a: Amps)
    requires p != [] && KeepsSides(p, a)
    ensures KeepsSides(p[1..], a)
    ensures FlooredOne(p[0]).amps < Held(a, p[0].id) <==> p[0].amps < Held(a, p[0].id)
  {
    assert p[0] in p;
  }

  lemma {:induction false} ReductionsFloored(p: seq<Write>, a: Amps)
    requires KeepsSides(p, a)
    ensures Reductions(Floored(p), a) == Floored(Reductions(p, a))
  {
    if p == [] {
    } else {
      FlooredTail(p);
      SidesOfTail(p, a);
      ReductionsFloored(p[1..], a);
      var rest := Reductions(p[1..], a);
      if p[0].amps < Held(a, p[0].id) {
        FlooredSplits([p[0]], rest);
        assert Reductions(p, a) == [p[0]] + rest;
      } else {
        assert Reductions(p, a) == rest;
      }
    }
  }

  lemma {:induction false} IncreasesFloored(p: seq<Write>, a: Amps)
    requires KeepsSides(p, a)
    ensures Increases(Floored(p), a) == Floored(Increases(p, a))
  {
    if p == [] {
    } else {
      FlooredTail(p);
      SidesOfTail(p, a);
      IncreasesFloored(p[1..], a);
      var rest := Increases(p[1..], a);
      if p[0].amps >= Held(a, p[0].id) {
        FlooredSplits([p[0]], rest);
        assert Increases(p, a) == [p[0]] + rest;
      } else {
        assert Increases(p, a) == rest;
      }
    }
  }

  /** Rounding down to register steps never changes what counts as a reduction. */
  lemma FlooringKeepsOrder(p: seq<Write>, words: Words, keep: set<nat>)
    requires NonNegative(p)
    ensures Ordered(Floored(p), AmpsOf(words, keep)) == Floored(Ordered(p, AmpsOf(words, keep)))
  {
    var a := AmpsOf(words, keep);
    forall w | w in p ensures FlooredOne(w).amps < Held(a, w.id) <==> w.amps < Held(a, w.id) {
      FlooredOneKeepsSide(w, words, keep);
    }
    ReductionsFloored(p, a);
    IncreasesFloored(p, a);
    FlooredSplits(Reductions(p, a), Increases(p, a));
  }

  lemma FlooredFits(t: Topology, requested: Amps, allowanceKw: Option<real>, c: nat, p: seq<Write>)
    requires t.Sane() && PlanFits(t, requested, allowanceKw, c, p) && NonNegative(p)
    ensures PlanFits(t, requested, allowanceKw, c, Floored(p))
  {
    forall w | w in Floored(p) && w.id < |t.inverters| && t.ConnectionOf(w.id) == c
      ensures w.amps >= 0.0 && Fits(t, requested, allowanceKw, w.id, w.amps)
    {
      var k :| 0 <= k < |p| && Floored(p)[k] == w;
      assert p[k] in p;
      LessFits(t, requested, allowanceKw, w.id, w.amps, p[k].amps);
    }
  }

  lemma FlooredCovers(t: Topology, residents: Amps, c: nat, p: seq<Write>)
    requires t.Sane() && PlanCovers(t, residents, c, p)
    ensures PlanCovers(t, residents, c, Floored(p))
  {
    forall i | 0 <= i < |t.inverters| && t.ConnectionOf(i) == c && Held(residents, i) > 0.0
      ensures Writes(Floored(p), i)
    {
      var w :| w in p && w.id == i;
      var k :| 0 <= k < |p| && p[k] == w;
      assert Floored(p)[k] in Floored(p);
    }
  }

  /** After any number of good commits of an ordered plan, in register steps. */
  lemma EveryCommitIsSafe(
      t: Topology, requested: Amps, allowanceKw: Option<real>, c: nat, words: Words, keep: set<nat>,
      p: seq<Write>, k: nat)
    requires t.Sane() && NonNegative(p) && PlanFits(t, requested, allowanceKw, c, p)
    requires PlanCovers(t, AmpsOf(words, keep), c, p) && k <= |Ordered(p, AmpsOf(words, keep))|
    ensures
      var before := AmpsOf(words, keep);
      Within(t, before, Applied(before, Floored(Ordered(p, before))[..k]), c, allowanceKw)
  {
    var before := AmpsOf(words, keep);
    FlooringKeepsOrder(p, words, keep);
    FlooredFits(t, requested, allowanceKw, c, p);
    FlooredCovers(t, before, c, p);
    EveryPrefixIsSafe(t, requested, allowanceKw, c, before, Floored(p), k);
  }

  lemma CommitMovesOne(words: Words, keep: set<nat>, i: nat, w: nat)
    requires i in words && i in keep
    ensures AmpsOf(words[i := w], keep) == AmpsOf(words, keep)[i := w as real / 10.0]
  {
  }

  lemma OneMoreShows(before: Words, now: Words, keep: set<nat>, order: seq<Write>, k: nat)
    requires k < |order| && order[k].id in now && order[k].id in keep
    requires AmpsOf(now, keep) == Applied(AmpsOf(before, keep), Floored(order)[..k])
    ensures AmpsOf(now[order[k].id := CurrentWord(order[k].amps)], keep)
         == Applied(AmpsOf(before, keep), Floored(order)[..k + 1])
  {
    AppliedOneMore(AmpsOf(before, keep), Floored(order), k);
    CommitMovesOne(now, keep, order[k].id, CurrentWord(order[k].amps));
  }

  /** Exactly k commits of the plan are in the registers. */
  predicate Done(before: Words, now: Words, keep: set<nat>, order: seq<Write>, k: nat) {
    && k <= |order| && now.Keys == before.Keys
    && (forall w :: w in order ==> w.id in before && w.id in keep)
    && AmpsOf(now, keep) == Applied(AmpsOf(before, keep), Floored(order)[..k])
    && (forall j :: 0 <= j < k ==> now[order[j].id] == CurrentWord(order[j].amps))
    && (forall i :: i in before && Untouched(order, k, i) ==> now[i] == before[i])
  }

  predicate Untouched(order: seq<Write>, k: nat, i: nat)
    requires k <= |order|
  {
    forall j :: 0 <= j < k ==> order[j].id != i
  }

  /** The registers a plan may show: some number of its commits done, the rest untouched. */
  ghost predicate Shows(before: Words, now: Words, keep: set<nat>, order: seq<Write>) {
    exists k: nat :: Done(before, now, keep, order, k)
  }

  lemma ShowsWithin(
      t: Topology, requested: Amps, allowanceKw: Option<real>, c: nat, before: Words, now: Words,
      keep: set<nat>, p: seq<Write>)
    requires t.Sane() && NonNegative(p) && PlanFits(t, requested, allowanceKw, c, p)
    requires PlanCovers(t, AmpsOf(before, keep), c, p)
    requires Shows(before, now, keep, Ordered(p, AmpsOf(before, keep)))
    ensures Within(t, AmpsOf(before, keep), AmpsOf(now, keep), c, allowanceKw)
  {
    var order := Ordered(p, AmpsOf(before, keep));
    var k: nat :| Done(before, now, keep, order, k);
    EveryCommitIsSafe(t, requested, allowanceKw, c, before, keep, p, k);
  }

  /** A bad outcome at commit k: it landed or it did not, and nothing after it was tried. */
  predicate StoppedAt(before: Words, now: Words, keep: set<nat>, order: seq<Write>, k: nat) {
    k < |order| && (Done(before, now, keep, order, k) || Done(before, now, keep, order, k + 1))
  }

  /** The worst of a run of commits, of which only the last may be bad. An unchanged device
      is taken for worse than an applied one. */
  function Worst(results: seq<Outcome>): Outcome {
    if results == [] then Unchanged
    else if !Good(results[|results| - 1]) then results[|results| - 1]
    else if Unchanged in results then Unchanged
    else AppliedCurrent
  }

  predicate AllGood(results: seq<Outcome>) {
    forall j :: 0 <= j < |results| ==> Good(results[j])
  }

  /** How bad an outcome is taken to be; an exception ends the run without any. */
  function Severity(o: Outcome): nat {
    match o
    case AppliedCurrent => 0
    case Unchanged => 1
    case Refused => 2
    case Unverified => 3
    case Failed => 4
    case Raised => 5
  }

  /** Of a run that goes on only while all is good it is one of the outcomes, and the most
      severe. */
  lemma WorstIsMostSevere(results: seq<Outcome>)
    requires results != [] && AllGood(results[..|results| - 1])
    ensures Worst(results) in results
    ensures forall j :: 0 <= j < |results| ==> Severity(results[j]) <= Severity(Worst(results))
  {
    forall j | 0 <= j < |results| - 1 ensures Good(results[j]) {
      assert results[..|results| - 1][j] == results[j];
    }
    if AllGood(results) && Unchanged !in results {
      assert results[0] in results;
      assert results[0] == AppliedCurrent;
    }
  }

  lemma WorstOf(results: seq<Outcome>, last: Outcome)
    requires AllGood(results)
    ensures Good(Worst(results))
    ensures if Good(last) then AllGood(results + [last]) else Worst(results + [last]) == last
  {
  }

  /** How a run of commits ended: all done, or stopped at a bad one; a refused one moved nothing. */
  predicate CommitsEnd(before: Words, now: Words, keep: set<nat>, order: seq<Write>, outcome: Outcome, tried: nat) {
    if Good(outcome) then tried == |order| && Done(before, now, keep, order, |order|)
    else
      && tried > 0 && StoppedAt(before, now, keep, order, tried - 1)
      && (outcome == Refused ==> Done(before, now, keep, order, tried - 1))
  }

  predicate SameWord(before: Words, now: Words, i: nat) {
    i in before && i in now && before[i] == now[i]
  }

  predicate NoHigher(before: Words, now: Words, i: nat) {
    i in before && i in now && now[i] <= before[i]
  }

  predicate NotRaised(before: Words, now: Words, cut: set<nat>) {
    forall i :: i in cut && i in now ==> i in before && now[i] <= before[i]
  }

  /** Every state a call passes through. */
  ghost predicate Passes(before: Words, states: seq<Words>, keep: set<nat>, order: seq<Write>, cut: set<nat>) {
    forall s :: s in states ==> Shows(before, s, keep, order) && NotRaised(before, s, cut)
  }

  lemma DoneOneMore(before: Words, now: Words, keep: set<nat>, order: seq<Write>, k: nat)
    requires Done(before, now, keep, order, k) && k < |order| && Distinct(order)
    ensures Done(before, now[order[k].id := CurrentWord(order[k].amps)], keep, order, k + 1)
  {
    assert order[k] in order;
    OneMoreShows(before, now, keep, order, k);
  }

  /** No increase follows a failed reduction: either nothing went up at all, or every
      planned reduction is in its register. */
  predicate ReductionsFirst(before: Words, now: Words, p: seq<Write>, residents: Amps) {
    || (forall i :: i in now ==> i in before && now[i] <= before[i])
    || (forall w :: w in Reductions(p, residents) ==> w.id in now && now[w.id] == CurrentWord(w.amps))
  }

  lemma StopsBeforeIncreases(before: Words, now: Words, keep: set<nat>, p: seq<Write>, k: nat)
    requires Distinct(p) && NonNegative(p) && k <= |Ordered(p, AmpsOf(before, keep))|
    requires Done(before, now, keep, Ordered(p, AmpsOf(before, keep)), k)
    ensures ReductionsFirst(before, now, p, AmpsOf(before, keep))
  {
    var a := AmpsOf(before, keep);
    var order, lower := Ordered(p, a), Reductions(p, a);
    OrderKeeps(p, a);
    OrderIsDistinct(p, a);
    if k <= |lower| {
      forall i | i in now ensures now[i] <= before[i] {
        if j :| 0 <= j < k && order[j].id == i {
          assert order[j] == lower[j] && lower[j] in lower;
          FloorDecides(order[j].amps, Held(a, i), before[i], CurrentWord(order[j].amps));
        } else {
          assert Untouched(order, k, i);
        }
      }
    } else {
      forall w | w in lower ensures w.id in now && now[w.id] == CurrentWord(w.amps) {
        var j :| 0 <= j < |lower| && lower[j] == w;
        assert order[j] == w && order[j] in order;
      }
    }
  }

  lemma {:induction false} LastIncreaseStaysLast(p: seq<Write>, a: Amps)
    requires p != []
    ensures p[|p| - 1].amps >= Held(a, p[|p| - 1].id) ==>
      Increases(p, a) != [] && Increases(p, a)[|Increases(p, a)| - 1] == p[|p| - 1]
    decreases |p|
  {
    if |p| > 1 {
      LastIncreaseStaysLast(p[1..], a);
    }
  }

  lemma LastIncreaseEndsOrder(p: seq<Write>, a: Amps)
    requires p != [] && Ordered(p, a) != []
    ensures p[|p| - 1].amps >= Held(a, p[|p| - 1].id) ==> Ordered(p, a)[|Ordered(p, a)| - 1] == p[|p| - 1]
  {
    LastIncreaseStaysLast(p, a);
  }

  /** The request's own device is planned last, so whatever is refused after its commit is
      an increase, and its own commit was none: a refusal never leaves it raised. */
  lemma RefusalNeverRaises(before: Words, now: Words, keep: set<nat>, p: seq<Write>, tried: nat)
    requires p != [] && Distinct(p) && NonNegative(p)
    requires
      var order := Ordered(p, AmpsOf(before, keep));
      tried < |order| && Done(before, now, keep, order, tried)
    ensures NoHigher(before, now, p[|p| - 1].id)
  {
    var own, a := p[|p| - 1], AmpsOf(before, keep);
    var order := Ordered(p, a);
    OrderKeeps(p, a);
    OrderIsDistinct(p, a);
    assert own in p && own in order;
    if j :| 0 <= j < tried && order[j].id == own.id {
      var m :| 0 <= m < |order| && order[m] == own;
      assert m == j;
      LastIncreaseEndsOrder(p, a);
      FloorDecides(own.amps, Held(a, own.id), before[own.id], CurrentWord(own.amps));
    } else {
      assert Untouched(order, tried, own.id);
    }
  }

  /** The devices of one connection that have a request. */
  function Requested(t: Topology, requested: Amps, c: nat): set<nat>
    requires t.Sane()
  {
    set i | 0 <= i < |t.inverters| && i in requested && t.ConnectionOf(i) == c
  }

  /** The planned devices draw at most what they drew before, or the allowance. */
  predicate StaysWithin(
      t: Topology, before: Words, now: Words, requested: Amps, c: nat, allowanceKw: Option<real>)
    requires t.Sane()
  {
    var keep := Requested(t, requested, c);
    Within(t, AmpsOf(before, keep), AmpsOf(now, keep), c, allowanceKw)
  }

  /** Every register of the connection that is not zero has a request. */
  predicate Tracked(t: Topology, words: Words, requested: Amps, c: nat)
    requires t.Sane()
  {
    forall i :: 0 <= i < |t.inverters| && t.ConnectionOf(i) == c && i in words && words[i] > 0 ==> i in requested
  }

  /** The whole connection, as the supply feels it, draws at most what it drew before, or
      the allowance. */
  predicate WholeWithin(t: Topology, before: Words, now: Words, c: nat, allowanceKw: Option<real>)
    requires t.Sane()
  {
    Within(t, AmpsOf(before, before.Keys), AmpsOf(now, now.Keys), c, allowanceKw)
  }

  /** The bound on the planned devices, and on the whole connection where all are planned. */
  predicate Bounded(
      t: Topology, before: Words, now: Words, requested: Amps, c: nat, allowanceKw: Option<real>)
    requires t.Sane()
  {
    && StaysWithin(t, before, now, requested, c, allowanceKw)
    && (Tracked(t, before, requested, c) ==> WholeWithin(t, before, now, c, allowanceKw))
  }

  /** Where no unplanned register carries anything or moves, the sums are those of the
      planned devices. */
  lemma PlannedIsWhole(t: Topology, before: Words, now: Words, keep: set<nat>, c: nat, allowanceKw: Option<real>)
    requires t.Sane() && now.Keys == before.Keys
    requires forall i :: i in before && i !in keep ==> now[i] == before[i]
    requires forall i :: 0 <= i < |t.inverters| && t.ConnectionOf(i) == c && i in before && i !in keep ==>
      before[i] == 0
    requires Within(t, AmpsOf(before, keep), AmpsOf(now, keep), c, allowanceKw)
    ensures WholeWithin(t, before, now, c, allowanceKw)
  {
    SameSums(t, before, keep, c);
    SameSums(t, now, keep, c);
  }

  lemma SameSums(t: Topology, words: Words, keep: set<nat>, c: nat)
    requires t.Sane()
    requires forall i :: 0 <= i < |t.inverters| && t.ConnectionOf(i) == c && i in words && i !in keep ==> words[i] == 0
    ensures Power(t, AmpsOf(words, words.Keys), c) == Power(t, AmpsOf(words, keep), c)
    ensures forall b :: 0 <= b < |t.banks| && t.banks[b].connection == c ==>
      BankCurrent(t, AmpsOf(words, words.Keys), b) == BankCurrent(t, AmpsOf(words, keep), b)
  {
    SameConnection(t, AmpsOf(words, words.Keys), AmpsOf(words, keep), c, |t.inverters|);
  }

  /** The request's own plan: its peers, then itself. */
  function TransactionPlan(t: Topology, requested: Amps, inverter: nat, allowanceKw: Option<real>): seq<Write>
    requires t.Sane() && inverter < |t.inverters|
  {
    Planned(t, requested, requested, inverter, t.inverters[inverter].bank, Held(requested, inverter), allowanceKw)
  }

  lemma TransactionPlanIsSound(
      t: Topology, requested: Amps, inverter: nat, allowanceKw: Option<real>, words: Words)
    requires t.Sane() && inverter < |t.inverters| && inverter in requested
    requires forall i :: i in Requested(t, requested, t.ConnectionOf(inverter)) ==> t.inverters[i].settable
    ensures
      var c := t.ConnectionOf(inverter);
      var keep := Requested(t, requested, c);
      var p := TransactionPlan(t, requested, inverter, allowanceKw);
      && Distinct(p) && NonNegative(p) && PlanFits(t, requested, allowanceKw, c, p)
      && PlanCovers(t, AmpsOf(words, keep), c, p)
      && (forall w :: w in p ==> w.id in keep)
  {
    var c := t.ConnectionOf(inverter);
    var bank := t.inverters[inverter].bank;
    var peers := Peers(t, requested, requested, inverter, c, allowanceKw, |t.inverters|);
    PeersAreDistinct(t, requested, requested, inverter, c, allowanceKw, |t.inverters|);
    PeersFit(t, requested, requested, inverter, c, allowanceKw, |t.inverters|);
    var own := Clamp(t, inverter, bank, Held(requested, inverter), allowanceKw, requested);
    assert inverter in Requested(t, requested, c);
    ClampFits(t, requested, inverter, bank, Held(requested, inverter), allowanceKw, own.value);
    var p := TransactionPlan(t, requested, inverter, allowanceKw);
    assert p == peers + [Write(inverter, own.value)];
    forall i | 0 <= i < |t.inverters| && t.ConnectionOf(i) == c
               && Held(AmpsOf(words, Requested(t, requested, c)), i) > 0.0
      ensures Writes(p, i)
    {
      assert i in Requested(t, requested, c);
      if i == inverter {
        assert p[|peers|] in p;
      } else {
        var w :| w in peers && w.id == i;
        assert w in p;
      }
    }
  }

  predicate AllSet(t: Topology, requested: Amps, c: nat)
    requires t.Sane()
  {
    forall i :: i in Requested(t, requested, c) ==> t.inverters[i].settable
  }

  /** Some number of a transaction's commits are in the registers, and none where a device
      of the connection cannot be set. */
  ghost predicate Moves(
      t: Topology, before: Words, now: Words, requested: Amps, inverter: nat, allowanceKw: Option<real>)
    requires t.Sane() && inverter < |t.inverters|
  {
    now == before || (
      && AllSet(t, requested, t.ConnectionOf(inverter))
      && TransactionShows(t, before, now, requested, inverter, allowanceKw))
  }

  /** Some number of a transaction's commits are in the registers. */
  ghost predicate TransactionShows(
      t: Topology, before: Words, now: Words, requested: Amps, inverter: nat, allowanceKw: Option<real>)
    requires t.Sane() && inverter < |t.inverters|
  {
    var keep := Requested(t, requested, t.ConnectionOf(inverter));
    Shows(before, now, keep, Ordered(TransactionPlan(t, requested, inverter, allowanceKw), AmpsOf(before, keep)))
  }

  /** Every state a transaction's commits pass through is within the allowance. */
  lemma StatesStayWithin(
      t: Topology, requested: Amps, inverter: nat, allowanceKw: Option<real>, before: Words,
      states: seq<Words>, now: Words)
    requires t.Sane() && inverter < |t.inverters| && inverter in requested
    requires forall i :: i in Requested(t, requested, t.ConnectionOf(inverter)) ==> t.inverters[i].settable
    requires
      var keep := Requested(t, requested, t.ConnectionOf(inverter));
      var order := Ordered(TransactionPlan(t, requested, inverter, allowanceKw), AmpsOf(before, keep));
      Passes(before, states, keep, order, {}) && Shows(before, now, keep, order)
    ensures forall s :: s in states || s == now ==>
      Bounded(t, before, s, requested, t.ConnectionOf(inverter), allowanceKw)
  {
    forall s | s in states || s == now
      ensures Bounded(t, before, s, requested, t.ConnectionOf(inverter), allowanceKw)
    {
      StateStaysWithin(t, requested, inverter, allowanceKw, before, s);
    }
  }

  lemma StateStaysWithin(
      t: Topology, requested: Amps, inverter: nat, allowanceKw: Option<real>, before: Words, now: Words)
    requires t.Sane() && inverter < |t.inverters| && inverter in requested
    requires forall i :: i in Requested(t, requested, t.ConnectionOf(inverter)) ==> t.inverters[i].settable
    requires TransactionShows(t, before, now, requested, inverter, allowanceKw)
    ensures Bounded(t, before, now, requested, t.ConnectionOf(inverter), allowanceKw)
  {
    var c := t.ConnectionOf(inverter);
    var keep := Requested(t, requested, c);
    var p := TransactionPlan(t, requested, inverter, allowanceKw);
    TransactionPlanIsSound(t, requested, inverter, allowanceKw, before);
    ShowsWithin(t, requested, allowanceKw, c, before, now, keep, p);
    if Tracked(t, before, requested, c) {
      UnplannedStay(before, now, keep, Ordered(p, AmpsOf(before, keep)));
      PlannedIsWhole(t, before, now, keep, c, allowanceKw);
    }
  }

  lemma UnplannedStay(before: Words, now: Words, keep: set<nat>, order: seq<Write>)
    requires Shows(before, now, keep, order)
    ensures now.Keys == before.Keys && forall i :: i in before && i !in keep ==> now[i] == before[i]
  {
    var k: nat :| Done(before, now, keep, order, k);
    forall i | i in before && i !in keep ensures now[i] == before[i] {
      assert forall j :: 0 <= j < k ==> order[j] in order;
      assert Untouched(order, k, i);
    }
  }

  /** What a request leaves each inverter of its connection. */
  function Target(t: Topology, requested: Amps, i: nat, allowanceKw: Option<real>): Option<real>
    requires t.Sane() && i < |t.inverters|
  {
    Clamp(t, i, t.inverters[i].bank, Held(requested, i), allowanceKw, requested)
  }

  /** These registers show what is left to each requested inverter of the connection. */
  predicate OnTarget(t: Topology, words: Words, requested: Amps, c: nat, allowanceKw: Option<real>)
    requires t.Sane()
  {
    forall i :: i in Requested(t, requested, c) ==>
      && i in words && Target(t, requested, i, allowanceKw).Some?
      && words[i] == CurrentWord(Target(t, requested, i, allowanceKw).value)
  }

  lemma {:induction false} PeersHaveTargets(
      t: Topology, requested: Amps, skip: nat, c: nat, allowanceKw: Option<real>, n: nat)
    requires t.Sane() && n <= |t.inverters|
    ensures forall w :: w in Peers(t, requested, requested, skip, c, allowanceKw, n) ==>
      && w.id < n && t.ConnectionOf(w.id) == c && w.id in requested
      && Target(t, requested, w.id, allowanceKw) == Some(w.amps)
  {
    if n > 0 {
      PeersHaveTargets(t, requested, skip, c, allowanceKw, n - 1);
    }
  }

  /** The plan of a transaction is each requested inverter's own target. */
  lemma PlanIsTargets(t: Topology, requested: Amps, inverter: nat, allowanceKw: Option<real>, words: Words)
    requires t.Sane() && inverter < |t.inverters| && inverter in requested
    requires AllSet(t, requested, t.ConnectionOf(inverter))
    ensures forall w :: w in TransactionPlan(t, requested, inverter, allowanceKw) ==>
      && w.id in Requested(t, requested, t.ConnectionOf(inverter))
      && Target(t, requested, w.id, allowanceKw) == Some(w.amps)
    ensures forall i :: i in Requested(t, requested, t.ConnectionOf(inverter)) ==>
      Writes(TransactionPlan(t, requested, inverter, allowanceKw), i)
  {
    var c := t.ConnectionOf(inverter);
    PeersHaveTargets(t, requested, inverter, c, allowanceKw, |t.inverters|);
    PeersFit(t, requested, requested, inverter, c, allowanceKw, |t.inverters|);
    var peers := Peers(t, requested, requested, inverter, c, allowanceKw, |t.inverters|);
    var own := Target(t, requested, inverter, allowanceKw);
    var p := TransactionPlan(t, requested, inverter, allowanceKw);
    assert p == peers + [Write(inverter, own.value)];
    forall i | i in Requested(t, requested, c) ensures Writes(p, i) {
      if i == inverter {
        assert p[|peers|] in p;
      } else {
        var w :| w in peers && w.id == i;
        assert w in p;
      }
    }
  }

  /** Alone on its connection, or every device of the plan can be read. */
  predicate IsReadable(t: Topology, requested: Amps, inverter: nat, unreadable: set<nat>)
    requires t.Sane() && inverter < |t.inverters|
  {
    var keep := Requested(t, requested, t.ConnectionOf(inverter));
    keep == {inverter} || forall i :: i in keep ==> i !in unreadable
  }

  /** Nothing keeps the transaction from its first commit. */
  predicate MayBegin(t: Topology, requested: Amps, inverter: nat, unreadable: set<nat>)
    requires t.Sane() && inverter < |t.inverters|
  {
    AllSet(t, requested, t.ConnectionOf(inverter)) && IsReadable(t, requested, inverter, unreadable)
  }

  /** What cannot be read only matters to a device that shares its connection. */
  lemma ReadableExactlyWhen(t: Topology, requested: Amps, inverter: nat, unreadable: set<nat>)
    requires t.Sane() && inverter < |t.inverters| && inverter in requested
    ensures IsReadable(t, requested, inverter, unreadable) <==>
      || (forall j: nat :: SharesWith(t, requested, inverter, j) ==> j == inverter)
      || (forall j: nat :: SharesWith(t, requested, inverter, j) ==> j !in unreadable)
  {
    var keep := Requested(t, requested, t.ConnectionOf(inverter));
    assert forall j: nat :: j in keep <==> SharesWith(t, requested, inverter, j);
    assert inverter in keep;
    if forall j: nat :: SharesWith(t, requested, inverter, j) ==> j == inverter {
      assert keep == {inverter};
    }
    if keep == {inverter} {
      assert forall j: nat :: SharesWith(t, requested, inverter, j) ==> j == inverter;
    }
  }

  /** It has a request and hangs on the same connection. */
  predicate SharesWith(t: Topology, requested: Amps, inverter: nat, j: nat)
    requires t.Sane() && inverter < |t.inverters|
  {
    j < |t.inverters| && j in requested && t.ConnectionOf(j) == t.ConnectionOf(inverter)
  }

  lemma PlanIsReadable(t: Topology, requested: Amps, inverter: nat, allowanceKw: Option<real>, unreadable: set<nat>)
    requires t.Sane() && inverter < |t.inverters| && inverter in requested
    requires AllSet(t, requested, t.ConnectionOf(inverter))
    ensures (forall w :: w in TransactionPlan(t, requested, inverter, allowanceKw) ==> w.id !in unreadable)
      <==> forall i :: i in Requested(t, requested, t.ConnectionOf(inverter)) ==> i !in unreadable
  {
    PlanIsTargets(t, requested, inverter, allowanceKw, map[]);
    var p := TransactionPlan(t, requested, inverter, allowanceKw);
    if forall w :: w in p ==> w.id !in unreadable {
      forall i | i in Requested(t, requested, t.ConnectionOf(inverter)) ensures i !in unreadable {
        var w :| w in p && w.id == i;
      }
    }
  }

  lemma PlanReachesTargets(t: Topology, requested: Amps, inverter: nat, allowanceKw: Option<real>, words: Words)
    requires t.Sane() && inverter < |t.inverters| && inverter in requested
    requires AllSet(t, requested, t.ConnectionOf(inverter))
    requires forall w :: w in TransactionPlan(t, requested, inverter, allowanceKw) ==>
      w.id in words && words[w.id] == CurrentWord(w.amps)
    ensures OnTarget(t, words, requested, t.ConnectionOf(inverter), allowanceKw)
  {
    PlanIsTargets(t, requested, inverter, allowanceKw, words);
    var p := TransactionPlan(t, requested, inverter, allowanceKw);
    forall i | i in Requested(t, requested, t.ConnectionOf(inverter))
      ensures i in words && Target(t, requested, i, allowanceKw).Some?
      ensures words[i] == CurrentWord(Target(t, requested, i, allowanceKw).value)
    {
      var w :| w in p && w.id == i;
    }
  }

  // ---------------------------------------------------------------- guard replay

  /** The guard's plan over fresh residents: each requested inverter's clamp, or less. */
  function GuardPlan(
      t: Topology, requests: Amps, allowances: map<nat, real>, words: Words, cut: set<nat>, n: nat): seq<Write>
    requires t.Sane() && n <= |t.inverters|
  {
    if n == 0 then []
    else
      var i := n - 1;
      var before := GuardPlan(t, requests, allowances, words, cut, i);
      var allowance := AllowanceOf(allowances, t.ConnectionOf(i));
      var clamp := Clamp(t, i, t.inverters[i].bank, Held(requests, i), allowance, requests);
      if i !in requests || i !in words || clamp.None? then before
      else before + [Write(i, if i in cut then Min(clamp.value, words[i] as real / 10.0) else clamp.value)]
  }

  lemma {:induction false} GuardPlanIsSound(
      t: Topology, requests: Amps, allowances: map<nat, real>, words: Words, cut: set<nat>, n: nat, c: nat)
    requires t.Sane() && n <= |t.inverters|
    ensures
      var p := GuardPlan(t, requests, allowances, words, cut, n);
      && Distinct(p) && NonNegative(p)
      && PlanFits(t, requests, AllowanceOf(allowances, c), c, p)
      && (forall w :: w in p ==> w.id < n && w.id in requests && w.id in words)
      && (forall w :: w in p && w.id in cut ==> w.amps <= words[w.id] as real / 10.0)
      && (forall i :: 0 <= i < n && i in requests && i in words && t.inverters[i].settable ==> Writes(p, i))
  {
    if n > 0 {
      var i := n - 1;
      GuardPlanIsSound(t, requests, allowances, words, cut, i, c);
      var before := GuardPlan(t, requests, allowances, words, cut, i);
      var p := GuardPlan(t, requests, allowances, words, cut, n);
      var allowance := AllowanceOf(allowances, t.ConnectionOf(i));
      var clamp := Clamp(t, i, t.inverters[i].bank, Held(requests, i), allowance, requests);
      if i in requests && i in words && clamp.Some? {
        ClampFits(t, requests, i, t.inverters[i].bank, Held(requests, i), allowance, clamp.value);
        LessFits(t, requests, allowance, i, p[|before|].amps, clamp.value);
        assert p[|before|] in p;
      }
      forall j | 0 <= j < n && j in requests && j in words && t.inverters[j].settable ensures Writes(p, j) {
        if j < i {
          var w :| w in before && w.id == j;
          assert w in p;
        }
      }
    }
  }

  /** Each requested inverter shows its own target, or the lesser of that and what it had. */
  predicate GuardReached(
      t: Topology, requests: Amps, allowances: map<nat, real>, before: Words, now: Words, cut: set<nat>)
    requires t.Sane()
  {
    forall i :: 0 <= i < |t.inverters| && i in requests ==>
      && i in before && i in now && Target(t, requests, i, AllowanceOf(allowances, t.ConnectionOf(i))).Some?
      && now[i] == CurrentWord(GuardTarget(t, requests, allowances, before, cut, i))
  }

  function GuardTarget(
      t: Topology, requests: Amps, allowances: map<nat, real>, before: Words, cut: set<nat>, i: nat): (amps: real)
    requires t.Sane() && i < |t.inverters| && i in before
    requires Target(t, requests, i, AllowanceOf(allowances, t.ConnectionOf(i))).Some?
  {
    var target := Target(t, requests, i, AllowanceOf(allowances, t.ConnectionOf(i))).value;
    if i in cut then Min(target, before[i] as real / 10.0) else target
  }

  lemma {:induction false} GuardPlanIsTargets(
      t: Topology, requests: Amps, allowances: map<nat, real>, words: Words, cut: set<nat>, n: nat)
    requires t.Sane() && n <= |t.inverters|
    ensures forall w :: w in GuardPlan(t, requests, allowances, words, cut, n) ==>
      && w.id < n && w.id in words && Target(t, requests, w.id, AllowanceOf(allowances, t.ConnectionOf(w.id))).Some?
      && w.amps == GuardTarget(t, requests, allowances, words, cut, w.id)
  {
    if n > 0 {
      GuardPlanIsTargets(t, requests, allowances, words, cut, n - 1);
    }
  }

  lemma GuardReaches(
      t: Topology, requests: Amps, allowances: map<nat, real>, before: Words, now: Words, cut: set<nat>, keep: set<nat>)
    requires t.Sane() && keep == (set i | 0 <= i < |t.inverters| && i in requests)
    requires forall i :: i in keep ==> i in before && t.inverters[i].settable
    requires
      var order := Ordered(GuardPlan(t, requests, allowances, before, cut, |t.inverters|), AmpsOf(before, keep));
      Done(before, now, keep, order, |order|)
    ensures GuardReached(t, requests, allowances, before, now, cut)
  {
    var p := GuardPlan(t, requests, allowances, before, cut, |t.inverters|);
    var order := Ordered(p, AmpsOf(before, keep));
    GuardPlanIsTargets(t, requests, allowances, before, cut, |t.inverters|);
    GuardPlanIsSound(t, requests, allowances, before, cut, |t.inverters|, 0);
    OrderKeeps(p, AmpsOf(before, keep));
    forall i | 0 <= i < |t.inverters| && i in requests
      ensures i in before && i in now && Target(t, requests, i, AllowanceOf(allowances, t.ConnectionOf(i))).Some?
      ensures now[i] == CurrentWord(GuardTarget(t, requests, allowances, before, cut, i))
    {
      assert i in keep;
      var w :| w in p && w.id == i;
      assert w in order;
      var j :| 0 <= j < |order| && order[j] == w;
    }
  }

  /** The whole connection draws at most its allowance, if it has one, and each of its banks
      at most its limit. */
  predicate DrawsAtMost(t: Topology, words: Words, c: nat, allowanceKw: Option<real>)
    requires t.Sane()
  {
    var residents := AmpsOf(words, words.Keys);
    && (allowanceKw.Some? ==> Power(t, residents, c) <= Current(allowanceKw.value))
    && forall b :: 0 <= b < |t.banks| && t.banks[b].connection == c ==>
         BankCurrent(t, residents, b) <= t.banks[b].limitA
  }

  /** A register at its guard target holds no more than its own part. */
  lemma ReachedFits(
      t: Topology, requests: Amps, allowances: map<nat, real>, before: Words, now: Words, cut: set<nat>, i: nat)
    requires t.Sane() && i < |t.inverters| && i in requests
    requires GuardReached(t, requests, allowances, before, now, cut)
    ensures Fits(t, requests, AllowanceOf(allowances, t.ConnectionOf(i)), i, Held(AmpsOf(now, now.Keys), i))
  {
    var allowance := AllowanceOf(allowances, t.ConnectionOf(i));
    var target := Target(t, requests, i, allowance).value;
    ClampFits(t, requests, i, t.inverters[i].bank, Held(requests, i), allowance, target);
    LessFits(t, requests, allowance, i, now[i] as real / 10.0, target);
  }

  /** A whole connection at its guard targets draws no more than its allowance. */
  lemma ReachedDrawsAtMost(
      t: Topology, requests: Amps, allowances: map<nat, real>, before: Words, now: Words, cut: set<nat>, c: nat)
    requires t.Sane() && GuardReached(t, requests, allowances, before, now, cut)
    requires forall i :: 0 <= i < |t.inverters| && t.ConnectionOf(i) == c ==> i in requests
    ensures DrawsAtMost(t, now, c, AllowanceOf(allowances, c))
  {
    var residents, allowance := AmpsOf(now, now.Keys), AllowanceOf(allowances, c);
    assert WithinParts(t, requests, residents, c, allowance) by {
      forall i | 0 <= i < |t.inverters| && t.ConnectionOf(i) == c
        ensures Fits(t, requests, allowance, i, Held(residents, i))
      {
        ReachedFits(t, requests, allowances, before, now, cut, i);
      }
    }
    WithinPartsIsSafe(t, requests, residents, c, allowance, 0);
    forall b | 0 <= b < |t.banks| && t.banks[b].connection == c
      ensures BankCurrent(t, residents, b) <= t.banks[b].limitA
    {
      WithinPartsIsSafe(t, requests, residents, c, allowance, b);
    }
  }

  // ---------------------------------------------------------------- one commit

  /** The first planned device that cannot be read, if any. */
  function FirstUnreadable(planned: seq<Write>, unreadable: set<nat>): (first: set<nat>)
    ensures first == {} <==> forall w :: w in planned ==> w.id !in unreadable
    ensures first == {} || exists k :: 0 <= k < |planned| && FirstOf(planned, unreadable, k) && first == {planned[k].id}
  {
    if planned == [] then {}
    else if planned[0].id in unreadable then assert FirstOf(planned, unreadable, 0); {planned[0].id}
    else
      var later := FirstUnreadable(planned[1..], unreadable);
      assert forall k :: 0 <= k < |planned| - 1 && FirstOf(planned[1..], unreadable, k) ==>
        FirstOf(planned, unreadable, k + 1);
      later
  }

  predicate FirstOf(planned: seq<Write>, unreadable: set<nat>, k: nat)
    requires k < |planned|
  {
    planned[k].id in unreadable && forall j :: 0 <= j < k ==> planned[j].id !in unreadable
  }

  /** Where a commit is cut short, if anywhere: before its write, or at it and after. */
  datatype Cut = Whole | BeforeWrite | AtWrite

  /** Everything outside the boundary that one commit meets, in the order it asks. */
  datatype Luck = Luck(
    permitted: bool,        // the authority gate, before any read
    gridCharge: bool,       // the device's own charge permission
    readable: bool,         // the resident read
    trusted: bool,          // the bank's state of charge allows an increase
    zeroConfirmed: bool,    // a resident zero read back again
    stillPermitted: bool,   // the gate and trust, right before the write
    stillTrusted: bool,
    accepted: bool,         // the write's own answer
    landed: bool,           // whether the register took it
    readsBack: bool,        // whether the verification could read
    cutShort: Cut)

  /** Nothing is in the way of this commit. */
  predicate IsKind(luck: Luck) {
    && luck.permitted && luck.gridCharge && luck.readable && luck.trusted
    && luck.stillPermitted && luck.stillTrusted && luck.accepted && luck.landed && luck.readsBack
    && luck.cutShort == Whole
  }

  /** The commit gets to compare what is resident with what is asked for. */
  predicate Compares(luck: Luck, resident: nat, target: nat) {
    && luck.permitted && luck.gridCharge && luck.cutShort != BeforeWrite && luck.readable
    && (target > resident ==> luck.trusted)
  }

  /** There is something to write: another word, or a zero that a second read denies. */
  predicate HasToWrite(luck: Luck, resident: nat, target: nat) {
    resident != target || (target == 0 && !luck.zeroConfirmed)
  }

  /** The gates are still open right before the write. */
  predicate StillMay(luck: Luck, resident: nat, target: nat) {
    luck.stillPermitted && (target > resident ==> luck.stillTrusted)
  }

  predicate IsWritten(luck: Luck, resident: nat, target: nat) {
    Compares(luck, resident, target) && HasToWrite(luck, resident, target) && StillMay(luck, resident, target)
  }

  /** A write is sent exactly past every gate, with a raise trusted twice, for another word, or
      for a zero that a second read denies. */
  lemma WrittenExactlyWhen(luck: Luck, resident: nat, target: nat)
    ensures IsWritten(luck, resident, target) <==>
      && luck.permitted && luck.gridCharge && luck.cutShort != BeforeWrite && luck.readable && luck.stillPermitted
      && (target > resident ==> luck.trusted && luck.stillTrusted)
      && (target < resident || target > resident || (target == 0 && !luck.zeroConfirmed))
  {
  }

  /** When a commit answers what: each outcome is one place where it ends. */
  predicate AnswersRightly(luck: Luck, resident: nat, target: nat, shown: nat, outcome: Outcome) {
    var compares, toWrite := Compares(luck, resident, target), HasToWrite(luck, resident, target);
    var written := IsWritten(luck, resident, target);
    var begins := luck.permitted && luck.gridCharge;
    && (outcome == Refused <==>
          || !begins
          || (luck.cutShort != BeforeWrite && luck.readable && !compares)
          || (compares && toWrite && !written))
    && (outcome == Raised <==>
          && begins
          && (|| luck.cutShort == BeforeWrite
              || (luck.cutShort == AtWrite && (written || (compares && !toWrite && target != 0)))))
    && (outcome == Failed <==>
          && begins && luck.cutShort != BeforeWrite
          && (!luck.readable || (written && luck.cutShort == Whole && !luck.accepted)))
    && (outcome == Unchanged <==>
          compares && !toWrite && (target == 0 || (luck.cutShort == Whole && luck.readsBack)))
    && (outcome == AppliedCurrent <==>
          written && luck.cutShort == Whole && luck.accepted && luck.readsBack && shown == target)
  }

  /** Where a commit ends. */
  function Decided(luck: Luck, resident: nat, target: nat): Outcome {
    if !luck.permitted || !luck.gridCharge then Refused
    else if luck.cutShort == BeforeWrite then Raised
    else if !luck.readable then Failed
    else if target > resident && !luck.trusted then Refused
    else if !HasToWrite(luck, resident, target) then
      if target == 0 then Unchanged
      else if luck.cutShort == AtWrite then Raised
      else if luck.readsBack then Unchanged else Unverified
    else if !StillMay(luck, resident, target) then Refused
    else if luck.cutShort == AtWrite then Raised
    else if !luck.accepted then Failed
    else if luck.readsBack && (luck.landed || resident == target) then AppliedCurrent
    else Unverified
  }

  /** The word a commit leaves. */
  function Left(luck: Luck, resident: nat, target: nat): nat {
    if IsWritten(luck, resident, target) && luck.landed then target else resident
  }

  /** What the owner's record says of a device after a commit. */
  function Noted(writtenA: Amps, i: nat, current: real, luck: Luck, resident: nat, target: nat): Amps {
    var outcome := Decided(luck, resident, target);
    if Good(outcome) then writtenA[i := current]
    else if outcome == Refused || (outcome == Raised && !IsWritten(luck, resident, target)) then writtenA
    else writtenA - {i}
  }

  /** Each answer is given exactly where it should be. A good one shows the target, a refusal
      moves nothing, nothing rises without trust, and where nothing is in the way it is good. */
  lemma CommitAnswers(luck: Luck, resident: nat, target: nat)
    ensures
      var outcome, left := Decided(luck, resident, target), Left(luck, resident, target);
      && AnswersRightly(luck, resident, target, left, outcome)
      && (Good(outcome) ==> left == target)
      && (outcome == Refused || outcome == Unchanged ==> left == resident)
      && (left > resident ==> luck.trusted && luck.stillTrusted)
      && (left != resident ==> MayWrite(luck) && luck.landed)
      && (IsKind(luck) ==> Good(outcome))
  {
  }

  /** A write that may only lower never leaves more than was there. */
  lemma LowerOnlyNeverRaises(asked: real, luck: Luck, resident: nat)
    requires asked >= 0.0
    ensures Left(luck, resident, CurrentWord(Min(asked, resident as real / 10.0))) <= resident
  {
  }

  lemma ForgottenOnce(a: Amps, i: nat, x: real)
    ensures (a - {i}) - {i} == a - {i} && (a - {i})[i := x] == a[i := x]
  {
  }

  /** A device whose word is not known to be its current's is not on record after a commit
      that tried to write it. */
  lemma RecordIsShown(writtenA: Amps, i: nat, current: real, luck: Luck, resident: nat)
    ensures
      var target := CurrentWord(current);
      var noted := Noted(writtenA, i, current, luck, resident, target);
      && (IsWritten(luck, resident, target) && i in noted ==>
            noted[i] == current && Left(luck, resident, target) == CurrentWord(current))
      && (Good(Decided(luck, resident, target)) ==> i in noted && noted[i] == current)
      && noted - {i} == writtenA - {i}
      && (i in noted && (i !in writtenA || noted[i] != writtenA[i]) ==> Good(Decided(luck, resident, target)))
      && (Decided(luck, resident, target) in {Failed, Unverified} ==> i !in noted)
      && (Decided(luck, resident, target) == Refused ==> noted == writtenA)
      && (Decided(luck, resident, target) == Raised ==>
            if IsWritten(luck, resident, target) then i !in noted else noted == writtenA)
  {
  }

  ghost predicate Kindly(lucks: nat -> Luck) {
    forall k: nat :: IsKind(lucks(k))
  }

  /** Every gate a write has to pass was open. */
  predicate MayWrite(luck: Luck) {
    luck.permitted && luck.gridCharge && luck.readable && luck.stillPermitted && luck.cutShort != BeforeWrite
  }

  class NativeBoundary {
    const t: Topology
    var words: Words
    var writtenA: Amps
    var requested: Amps
    ghost var trace: seq<Words>

    constructor (t: Topology, words: Words)
      ensures this.t == t && this.words == words && trace == [] && requested == map[] && writtenA == map[]
    {
      this.t, this.words := t, words;
      writtenA, requested, trace := map[], map[], [];
    }

    method Commit(i: nat, asked: real, lowerOnly: bool, luck: Luck) returns (outcome: Outcome)
      requires i in words && asked >= 0.0
      modifies this`words, this`writtenA, this`trace
      ensures
        var resident := old(words)[i];
        var current := if lowerOnly then Min(asked, resident as real / 10.0) else asked;
        var target := CurrentWord(current);
        && outcome == Decided(luck, resident, target)
        && words == old(words)[i := Left(luck, resident, target)]
        && writtenA == Noted(old(writtenA), i, current, luck, resident, target)
      ensures trace == old(trace) + [words]
    {
      trace := trace + [words];
      assert words[i := words[i]] == words;
      if !luck.permitted || !luck.gridCharge {
        return Refused;
      }
      if luck.cutShort == BeforeWrite {
        return Raised;
      }
      if !luck.readable {
        writtenA := writtenA - {i};
        return Failed;
      }
      var resident := words[i];
      var current := if lowerOnly then Min(asked, resident as real / 10.0) else asked;
      if CurrentWord(current) > resident && !luck.trusted {
        return Refused;
      }
      outcome := Settle(i, current, luck);
      trace := old(trace) + [words];
    }

    /** The rest of a commit, the resident word in hand. */
    method Settle(i: nat, current: real, luck: Luck) returns (outcome: Outcome)
      requires i in words && Compares(luck, words[i], CurrentWord(current))
      modifies this`words, this`writtenA
      ensures
        var resident, target := old(words)[i], CurrentWord(current);
        && outcome == Decided(luck, resident, target)
        && words == old(words)[i := Left(luck, resident, target)]
        && writtenA == Noted(old(writtenA), i, current, luck, resident, target)
    {
      var resident, target := words[i], CurrentWord(current);
      ForgottenOnce(writtenA, i, current);
      assert words[i := resident] == words;
      var changed := resident != target;
      if !changed && target == 0 {
        // A transient zero must not skip the correcting write.
        changed := !luck.zeroConfirmed;
        if !changed {
          writtenA := writtenA[i := current];
          return Unchanged;
        }
      }
      if changed {
        if !luck.stillPermitted || (target > resident && !luck.stillTrusted) {
          return Refused;
        }
        writtenA := writtenA - {i};
        if luck.landed {
          words := words[i := target];
        }
        if luck.cutShort == AtWrite {
          return Raised;
        }
        if !luck.accepted {
          return Failed;
        }
      }
      if luck.cutShort == AtWrite {
        return Raised;
      }
      // A verified read-back shows the target itself.
      if !luck.readsBack || words[i] != target {
        writtenA := writtenA - {i};
        return Unverified;
      }
      writtenA := writtenA[i := current];
      outcome := if changed then AppliedCurrent else Unchanged;
    }

    /** The next commit of a plan; a device in `cut` only goes down. */
    method CommitNext(order: seq<Write>, k: nat, cut: set<nat>, luck: Luck,
                      ghost keep: set<nat>, ghost before: Words)
      returns (outcome: Outcome)
      requires Distinct(order) && NonNegative(order) && k < |order|
      requires forall w :: w in order && w.id in cut && w.id in before ==> w.amps <= before[w.id] as real / 10.0
      requires Done(before, words, keep, order, k) && NotRaised(before, words, cut)
      modifies this`words, this`writtenA, this`trace
      ensures trace == old(trace) + [words]
      ensures words == old(words) || words == old(words)[order[k].id := CurrentWord(order[k].amps)]
      ensures outcome == Refused ==> Done(before, words, keep, order, k)
      ensures Done(before, words, keep, order, if Good(outcome) then k + 1 else k)
              || (!Good(outcome) && Done(before, words, keep, order, k + 1))
      ensures Shows(before, words, keep, order) && NotRaised(before, words, cut)
      ensures IsKind(luck) ==> Good(outcome)
      ensures outcome == Unchanged ==> words == old(words)
    {
      var w := order[k];
      assert w in order;
      DoneOneMore(before, words, keep, order, k);
      outcome := Commit(w.id, w.amps, w.id in cut, luck);
    }

    /** Commit an ordered plan until one outcome is bad. */
    method CommitAll(order: seq<Write>, cut: set<nat>, lucks: nat -> Luck, ghost keep: set<nat>)
      returns (results: seq<Outcome>, ghost states: seq<Words>)
      requires Distinct(order) && NonNegative(order)
      requires forall w :: w in order ==> w.id in words && w.id in keep
      requires forall w :: w in order && w.id in cut ==> w.amps <= words[w.id] as real / 10.0
      modifies this`words, this`writtenA, this`trace
      ensures |results| <= |order| && trace == old(trace) + states && |states| == |results|
      ensures Passes(old(words), states, keep, order, cut)
      ensures Shows(old(words), words, keep, order) && NotRaised(old(words), words, cut)
      ensures CommitsEnd(old(words), words, keep, order, Worst(results), |results|)
      ensures Good(Worst(results)) ==> AllGood(results)
      ensures Kindly(lucks) ==> Good(Worst(results))
    {
      results, states := [], [];
      assert Floored(order)[..0] == [];
      for k := 0 to |order|
        invariant |results| == k && trace == old(trace) + states && |states| == k
        invariant AllGood(results)
        invariant Done(old(words), words, keep, order, k) && NotRaised(old(words), words, cut)
        invariant Passes(old(words), states, keep, order, cut)
      {
        var result := CommitNext(order, k, cut, lucks(k), keep, old(words));
        assert (old(trace) + states) + [words] == old(trace) + (states + [words]);
        states := states + [words];
        WorstOf(results, result);
        results := results + [result];
        if !Good(result) {
          return;
        }
      }
      WorstOf(results, Unchanged);
    }

    /** Read each planned device in turn; the first that cannot be read ends it, and only
        that one is forgotten. */
    method ReadResidents(planned: seq<Write>, unreadable: set<nat>) returns (known: bool)
      modifies this`writtenA
      ensures known <==> forall w :: w in planned ==> w.id !in unreadable
      ensures writtenA == old(writtenA) - FirstUnreadable(planned, unreadable)
    {
      for k := 0 to |planned|
        invariant writtenA == old(writtenA)
        invariant forall w :: w in planned[..k] ==> w.id !in unreadable
        invariant FirstUnreadable(planned, unreadable) == FirstUnreadable(planned[k..], unreadable)
      {
        if planned[k].id in unreadable {
          writtenA := writtenA - {planned[k].id};
          assert planned[k] in planned;
          return false;
        }
        assert planned[k..][1..] == planned[k + 1..];
      }
      known := true;
    }

    /** One plan request: its connection's peers are re-clamped with it, on live
        currents, and nothing is tried after a bad outcome. */
    method Transaction(inverter: nat, allowanceKw: Option<real>, unreadable: set<nat>, lucks: nat -> Luck)
      returns (outcome: Outcome, attempted: bool)
      requires t.Sane() && inverter < |t.inverters| && inverter in requested
      requires forall i :: i in Requested(t, requested, t.ConnectionOf(inverter)) ==> i in words
      modifies this`words, this`writtenA, this`trace
      ensures old(trace) <= trace
      ensures forall s :: s in trace[|old(trace)|..] || s == words ==>
        Bounded(t, old(words), s, requested, t.ConnectionOf(inverter), allowanceKw)
      ensures ReductionsFirst(old(words), words, TransactionPlan(t, requested, inverter, allowanceKw),
                              AmpsOf(old(words), Requested(t, requested, t.ConnectionOf(inverter))))
      ensures Good(outcome) ==> OnTarget(t, words, requested, t.ConnectionOf(inverter), allowanceKw)
      ensures !attempted ==> SameWord(old(words), words, inverter)
      ensures outcome == Refused ==> NoHigher(old(words), words, inverter)
      ensures Good(outcome) ==> attempted
      ensures attempted ==> trace != old(trace)
      ensures Moves(t, old(words), words, requested, inverter, allowanceKw)
      ensures !AllSet(t, requested, t.ConnectionOf(inverter)) ==> outcome == Refused && words == old(words)
      ensures AllSet(t, requested, t.ConnectionOf(inverter)) && !IsReadable(t, requested, inverter, unreadable) ==>
        outcome == Failed && words == old(words)
      ensures MayBegin(t, requested, inverter, unreadable) && Kindly(lucks) ==> Good(outcome)
    {
      var keep := Requested(t, requested, t.ConnectionOf(inverter));
      UnmovedIsBounded(inverter, allowanceKw);
      if exists i :: i in keep && !t.inverters[i].settable {
        return Refused, false;
      }
      if keep != {inverter} {
        // Unknown residents cannot fund an increase.
        PlanIsReadable(t, requested, inverter, allowanceKw, unreadable);
        var known := ReadResidents(TransactionPlan(t, requested, inverter, allowanceKw), unreadable);
        if !known {
          return Failed, false;
        }
      }
      outcome, attempted := CommitTransaction(inverter, allowanceKw, lucks, keep);
    }

    lemma UnmovedIsBounded(inverter: nat, allowanceKw: Option<real>)
      requires t.Sane() && inverter < |t.inverters|
      ensures Bounded(t, words, words, requested, t.ConnectionOf(inverter), allowanceKw)
    {
      var keep := Requested(t, requested, t.ConnectionOf(inverter));
      LowerIsWithin(t, AmpsOf(words, keep), AmpsOf(words, keep), t.ConnectionOf(inverter), allowanceKw);
      LowerIsWithin(t, AmpsOf(words, words.Keys), AmpsOf(words, words.Keys), t.ConnectionOf(inverter), allowanceKw);
    }

    method CommitTransaction(inverter: nat, allowanceKw: Option<real>, lucks: nat -> Luck, keep: set<nat>)
      returns (outcome: Outcome, attempted: bool)
      requires t.Sane() && inverter < |t.inverters| && inverter in requested
      requires keep == Requested(t, requested, t.ConnectionOf(inverter))
      requires forall i :: i in keep ==> i in words && t.inverters[i].settable
      modifies this`words, this`writtenA, this`trace
      ensures old(trace) <= trace
      ensures forall s :: s in trace[|old(trace)|..] || s == words ==>
        Bounded(t, old(words), s, requested, t.ConnectionOf(inverter), allowanceKw)
      ensures ReductionsFirst(old(words), words, TransactionPlan(t, requested, inverter, allowanceKw),
                              AmpsOf(old(words), keep))
      ensures Good(outcome) ==> OnTarget(t, words, requested, t.ConnectionOf(inverter), allowanceKw)
      ensures !attempted ==> SameWord(old(words), words, inverter)
      ensures outcome == Refused ==> NoHigher(old(words), words, inverter)
      ensures Good(outcome) ==> attempted
      ensures attempted ==> trace != old(trace)
      ensures TransactionShows(t, old(words), words, requested, inverter, allowanceKw)
      ensures Kindly(lucks) ==> Good(outcome)
    {
      var order := Ordered(TransactionPlan(t, requested, inverter, allowanceKw), AmpsOf(words, keep));
      TransactionOrder(inverter, allowanceKw, words, keep, order);
      var results, states := CommitAll(order, {}, lucks, keep);
      assert trace[|old(trace)|..] == states;
      StatesStayWithin(t, requested, inverter, allowanceKw, old(words), states, words);
      TransactionReached(inverter, allowanceKw, old(words), words, keep, order, Worst(results), |results|);
      if Worst(results) == Refused {
        TransactionRefused(inverter, allowanceKw, old(words), words, keep, order, |results| - 1);
      }
      outcome, attempted := OwnOutcome(order, results, inverter);
      if Good(outcome) {
        PlanReachesTargets(t, requested, inverter, allowanceKw, words);
      }
    }

    /** The requested device's own result, or the bad one that stopped the transaction. */
    method OwnOutcome(order: seq<Write>, results: seq<Outcome>, inverter: nat)
      returns (outcome: Outcome, attempted: bool)
      requires |results| <= |order| && (Good(Worst(results)) ==> AllGood(results))
      ensures attempted <==> !Untouched(order, |results|, inverter)
      ensures Good(outcome) <==> Good(Worst(results))
      ensures !Good(outcome) ==> outcome == Worst(results)
      ensures Good(outcome) && attempted ==>
        exists j :: 0 <= j < |results| && order[j].id == inverter && outcome == results[j]
    {
      outcome, attempted := Worst(results), false;
      for j := 0 to |results|
        invariant attempted <==> !Untouched(order, j, inverter)
        invariant Good(outcome) <==> Good(Worst(results))
        invariant !Good(outcome) ==> outcome == Worst(results)
        invariant Good(outcome) && attempted ==>
          exists k :: 0 <= k < j && order[k].id == inverter && outcome == results[k]
      {
        if order[j].id == inverter {
          attempted := true;
          if Good(Worst(results)) {
            outcome := results[j];
          }
        }
      }
    }

    lemma TransactionOrder(inverter: nat, allowanceKw: Option<real>, before: Words, keep: set<nat>, order: seq<Write>)
      requires t.Sane() && inverter < |t.inverters| && inverter in requested
      requires keep == Requested(t, requested, t.ConnectionOf(inverter))
      requires forall i :: i in keep ==> i in before && t.inverters[i].settable
      requires order == Ordered(TransactionPlan(t, requested, inverter, allowanceKw), AmpsOf(before, keep))
      ensures Distinct(order) && NonNegative(order) && forall w :: w in order ==> w.id in before && w.id in keep
    {
      var planned := TransactionPlan(t, requested, inverter, allowanceKw);
      TransactionPlanIsSound(t, requested, inverter, allowanceKw, before);
      OrderIsDistinct(planned, AmpsOf(before, keep));
      OrderKeeps(planned, AmpsOf(before, keep));
      assert forall w :: w in order ==> w in planned;
    }

    /** Which of its commits a transaction has in the registers. */
    lemma TransactionReached(
        inverter: nat, allowanceKw: Option<real>, before: Words, now: Words, keep: set<nat>,
        order: seq<Write>, outcome: Outcome, tried: nat)
      requires t.Sane() && inverter < |t.inverters| && inverter in requested
      requires keep == Requested(t, requested, t.ConnectionOf(inverter))
      requires forall i :: i in keep ==> i in before && t.inverters[i].settable
      requires order == Ordered(TransactionPlan(t, requested, inverter, allowanceKw), AmpsOf(before, keep))
      requires CommitsEnd(before, now, keep, order, outcome, tried)
      ensures ReductionsFirst(before, now, TransactionPlan(t, requested, inverter, allowanceKw), AmpsOf(before, keep))
      ensures Good(outcome) ==> forall w :: w in TransactionPlan(t, requested, inverter, allowanceKw) ==>
        w.id in now && now[w.id] == CurrentWord(w.amps)
      ensures tried <= |order|
      ensures Untouched(order, tried, inverter) ==> SameWord(before, now, inverter) && !Good(outcome)
    {
      var planned := TransactionPlan(t, requested, inverter, allowanceKw);
      TransactionPlanIsSound(t, requested, inverter, allowanceKw, before);
      OrderKeeps(planned, AmpsOf(before, keep));
      FirstDown(before, now, keep, planned, order, outcome);
      assert inverter in keep;
      NeverTried(before, now, keep, planned, order, outcome, tried, inverter);
    }

    /** A refusal leaves the requested device where it was, or lower. */
    lemma TransactionRefused(inverter: nat, allowanceKw: Option<real>, before: Words, now: Words, keep: set<nat>,
                             order: seq<Write>, tried: nat)
      requires t.Sane() && inverter < |t.inverters| && inverter in requested
      requires keep == Requested(t, requested, t.ConnectionOf(inverter))
      requires forall i :: i in keep ==> i in before && t.inverters[i].settable
      requires order == Ordered(TransactionPlan(t, requested, inverter, allowanceKw), AmpsOf(before, keep))
      requires tried < |order| && Done(before, now, keep, order, tried)
      ensures NoHigher(before, now, inverter)
    {
      TransactionPlanIsSound(t, requested, inverter, allowanceKw, before);
      RefusalNeverRaises(before, now, keep, TransactionPlan(t, requested, inverter, allowanceKw), tried);
    }

    /** A device whose own commit was not reached keeps its word. */
    lemma NeverTried(before: Words, now: Words, keep: set<nat>, p: seq<Write>, order: seq<Write>,
                     outcome: Outcome, tried: nat, i: nat)
      requires p != [] && p[|p| - 1].id == i && i in before && forall w :: w in p ==> w in order
      requires if Good(outcome) then tried == |order| && Done(before, now, keep, order, |order|)
               else tried > 0 && StoppedAt(before, now, keep, order, tried - 1)
      ensures tried <= |order| && (Untouched(order, tried, i) ==> SameWord(before, now, i) && !Good(outcome))
    {
      var own := p[|p| - 1];
      assert own in p && own in order;
      var j :| 0 <= j < |order| && order[j] == own;
    }

    /** A plan request as the owner makes it: recorded, carried out, and taken back again
        when it was refused, its own write was never attempted, or the transaction raised.
        A new epoch forgets every earlier request first. */
    method Request(inverter: nat, amps: real, newEpoch: bool, allowanceKw: Option<real>,
                   unreadable: set<nat>, lucks: nat -> Luck) returns (outcome: Outcome, kept: bool)
      requires t.Sane() && inverter < |t.inverters|
      requires forall i :: 0 <= i < |t.inverters| ==> i in words
      modifies this`words, this`writtenA, this`trace, this`requested
      ensures old(trace) <= trace
      ensures
        var earlier := if newEpoch then map[] else old(requested);
        && requested == (if kept then earlier[inverter := amps] else earlier)
        && Moves(t, old(words), words, earlier[inverter := amps], inverter, allowanceKw)
        && forall s :: s in trace[|old(trace)|..] ==>
             Bounded(t, old(words), s, earlier[inverter := amps], t.ConnectionOf(inverter), allowanceKw)
      ensures
        var asked := (if newEpoch then map[] else old(requested))[inverter := amps];
        var c := t.ConnectionOf(inverter);
        && (Good(outcome) ==> OnTarget(t, words, asked, c, allowanceKw))
        && (MayBegin(t, asked, inverter, unreadable) && Kindly(lucks) ==> Good(outcome) && kept)
      ensures Good(outcome) ==> kept
      ensures kept ==> outcome != Refused && outcome != Raised && trace != old(trace)
      ensures !kept ==> outcome == Refused || outcome == Raised || SameWord(old(words), words, inverter)
      ensures !kept && outcome != Raised ==> NoHigher(old(words), words, inverter)
    {
      if newEpoch {
        requested := map[];
      }
      var earlier := requested;
      requested := requested[inverter := amps];
      var attempted: bool;
      outcome, attempted := Transaction(inverter, allowanceKw, unreadable, lucks);
      kept := attempted && outcome != Refused && outcome != Raised;
      if !kept {
        requested := if inverter in earlier then requested[inverter := earlier[inverter]] else requested - {inverter};
        assert requested == earlier;
      }
    }

    lemma FirstDown(before: Words, now: Words, keep: set<nat>, p: seq<Write>, order: seq<Write>, outcome: Outcome)
      requires Distinct(p) && NonNegative(p) && order == Ordered(p, AmpsOf(before, keep))
      requires if Good(outcome) then Done(before, now, keep, order, |order|)
               else exists k :: StoppedAt(before, now, keep, order, k)
      ensures ReductionsFirst(before, now, p, AmpsOf(before, keep))
      ensures Good(outcome) ==> forall w :: w in p ==> w.id in now && now[w.id] == CurrentWord(w.amps)
    {
      if Good(outcome) {
        StopsBeforeIncreases(before, now, keep, p, |order|);
        OrderKeeps(p, AmpsOf(before, keep));
        forall w | w in p ensures w.id in now && now[w.id] == CurrentWord(w.amps) {
          assert w in order;
          var j :| 0 <= j < |order| && order[j] == w;
        }
      } else {
        var k: nat :| StoppedAt(before, now, keep, order, k);
        if Done(before, now, keep, order, k) {
          StopsBeforeIncreases(before, now, keep, p, k);
        } else {
          StopsBeforeIncreases(before, now, keep, p, k + 1);
        }
      }
    }

    /** The guard's replay, its own requests never becoming restore targets. With every
        device in `cut` nothing is ever raised; each connection it names stays within
        its allowance or what it drew before, and is within it once the outcome is good. */
    method Guard(requests: Amps, allowances: map<nat, real>, cut: set<nat>,
                 refusals: set<nat>, unreadable: set<nat>, lucks: nat -> Luck)
      returns (outcome: Outcome)
      requires t.Sane() && forall i :: 0 <= i < |t.inverters| ==> i in words
      modifies this`words, this`writtenA, this`trace
      ensures old(trace) <= trace
      ensures forall c: nat, s :: s in trace[|old(trace)|..] ==>
        && StaysWithin(t, old(words), s, requests, c, AllowanceOf(allowances, c))
        && WholeWithin(t, old(words), s, c, AllowanceOf(allowances, c))
      ensures forall s :: s in trace[|old(trace)|..] || s == words ==> NotRaised(old(words), s, cut)
      ensures !NoneLeftOut(requests) ==> outcome == Failed && words == old(words)
      ensures NoneLeftOut(requests) ==> forall i: nat :: IsFirstBarred(requests, refusals, unreadable, i) ==>
        words == old(words) && outcome == if i !in refusals && i in unreadable then Failed else Refused
      ensures Good(outcome) ==> GuardReached(t, requests, allowances, old(words), words, cut)
      ensures Good(outcome) ==> EachDrawsAtMost(words, requests, allowances)
      ensures NoneLeftOut(requests) && NoneBarred(requests, refusals, unreadable) && Kindly(lucks) ==> Good(outcome)
    {
      if exists i, j :: 0 <= i < |t.inverters| && 0 <= j < |t.inverters| && i in requests && j !in requests
                        && t.ConnectionOf(i) == t.ConnectionOf(j) {
        // A peer left out of the allocation would fund an increase.
        return Failed;
      }
      var barred := FirstBarred(requests, refusals, unreadable);
      if barred < |t.inverters| {
        return if barred !in refusals && barred in unreadable then Failed else Refused;
      }
      MayBeSet(requests, refusals, unreadable);
      outcome := CommitGuard(requests, allowances, cut, lucks,
                             set i | 0 <= i < |t.inverters| && i in requests);
    }

    lemma MayBeSet(requests: Amps, refusals: set<nat>, unreadable: set<nat>)
      requires NoneBarred(requests, refusals, unreadable)
      ensures forall i :: 0 <= i < |t.inverters| && i in requests ==> t.inverters[i].settable
    {
      forall i | 0 <= i < |t.inverters| && i in requests ensures t.inverters[i].settable {
        assert !IsBarred(requests, refusals, unreadable, i);
      }
    }

    method FirstBarred(requests: Amps, refusals: set<nat>, unreadable: set<nat>) returns (i: nat)
      ensures i <= |t.inverters| && forall k: nat :: k < i ==> !IsBarred(requests, refusals, unreadable, k)
      ensures i < |t.inverters| ==> IsFirstBarred(requests, refusals, unreadable, i)
    {
      i := 0;
      while i < |t.inverters| && !IsBarred(requests, refusals, unreadable, i)
        invariant i <= |t.inverters| && forall k: nat :: k < i ==> !IsBarred(requests, refusals, unreadable, k)
      {
        i := i + 1;
      }
    }

    /** One requested device that keeps the replay from starting. */
    predicate IsBarred(requests: Amps, refusals: set<nat>, unreadable: set<nat>, i: nat) {
      i < |t.inverters| && i in requests && (i in refusals || i in unreadable || !t.inverters[i].settable)
    }

    predicate IsFirstBarred(requests: Amps, refusals: set<nat>, unreadable: set<nat>, i: nat) {
      && IsBarred(requests, refusals, unreadable, i)
      && forall k: nat :: k < i ==> !IsBarred(requests, refusals, unreadable, k)
    }

    predicate NoneBarred(requests: Amps, refusals: set<nat>, unreadable: set<nat>) {
      forall i: nat :: i < |t.inverters| ==> !IsBarred(requests, refusals, unreadable, i)
    }

    method CommitGuard(requests: Amps, allowances: map<nat, real>, cut: set<nat>, lucks: nat -> Luck, keep: set<nat>)
      returns (outcome: Outcome)
      requires t.Sane() && keep == set i | 0 <= i < |t.inverters| && i in requests
      requires forall i :: i in keep ==> i in words && t.inverters[i].settable
      requires NoneLeftOut(requests)
      modifies this`words, this`writtenA, this`trace
      ensures old(trace) <= trace
      ensures forall c: nat, s :: s in trace[|old(trace)|..] ==>
        && StaysWithin(t, old(words), s, requests, c, AllowanceOf(allowances, c))
        && WholeWithin(t, old(words), s, c, AllowanceOf(allowances, c))
      ensures forall s :: s in trace[|old(trace)|..] || s == words ==> NotRaised(old(words), s, cut)
      ensures Good(outcome) ==> GuardReached(t, requests, allowances, old(words), words, cut)
      ensures Good(outcome) ==> EachDrawsAtMost(words, requests, allowances)
      ensures Kindly(lucks) ==> Good(outcome)
    {
      var planned := GuardPlan(t, requests, allowances, words, cut, |t.inverters|);
      GuardPlanIsSound(t, requests, allowances, words, cut, |t.inverters|, 0);
      var order := Ordered(planned, AmpsOf(words, keep));
      OrderIsDistinct(planned, AmpsOf(words, keep));
      OrderKeeps(planned, AmpsOf(words, keep));
      assert forall w :: w in order ==> w in planned;
      var results, states := CommitAll(order, cut, lucks, keep);
      outcome := Worst(results);
      assert trace[|old(trace)|..] == states;
      forall c: nat, s | s in states
        ensures StaysWithin(t, old(words), s, requests, c, AllowanceOf(allowances, c))
        ensures WholeWithin(t, old(words), s, c, AllowanceOf(allowances, c))
      {
        GuardWithin(requests, allowances, old(words), s, cut, keep, c);
        GuardIsWhole(requests, allowances, old(words), s, cut, keep, c);
      }
      if Good(outcome) {
        GuardReaches(t, requests, allowances, old(words), words, cut, keep);
        ReachedEachDraws(requests, allowances, old(words), words, cut);
      }
    }

    lemma ReachedEachDraws(requests: Amps, allowances: map<nat, real>, before: Words, now: Words, cut: set<nat>)
      requires t.Sane() && NoneLeftOut(requests) && GuardReached(t, requests, allowances, before, now, cut)
      ensures EachDrawsAtMost(now, requests, allowances)
    {
      forall i | 0 <= i < |t.inverters| && i in requests
        ensures DrawsAtMost(t, now, t.ConnectionOf(i), AllowanceOf(allowances, t.ConnectionOf(i)))
      {
        ReachedDrawsAtMost(t, requests, allowances, before, now, cut, t.ConnectionOf(i));
      }
    }

    /** Every requested connection draws at most its allowance. */
    predicate EachDrawsAtMost(now: Words, requests: Amps, allowances: map<nat, real>)
      requires t.Sane()
    {
      forall i :: 0 <= i < |t.inverters| && i in requests ==>
        DrawsAtMost(t, now, t.ConnectionOf(i), AllowanceOf(allowances, t.ConnectionOf(i)))
    }

    /** Of each connection all inverters are requested, or none. */
    predicate NoneLeftOut(requests: Amps) {
      t.Sane() && forall i, j ::
        0 <= i < |t.inverters| && 0 <= j < |t.inverters| && i in requests && t.ConnectionOf(i) == t.ConnectionOf(j) ==>
          j in requests
    }

    /** The guard's connections are planned whole or not at all. */
    lemma GuardIsWhole(
        requests: Amps, allowances: map<nat, real>, before: Words, now: Words, cut: set<nat>, keep: set<nat>, c: nat)
      requires t.Sane() && keep == (set i | 0 <= i < |t.inverters| && i in requests) && NoneLeftOut(requests)
      requires forall i :: i in keep ==> i in before && t.inverters[i].settable
      requires
        var p := GuardPlan(t, requests, allowances, before, cut, |t.inverters|);
        Shows(before, now, keep, Ordered(p, AmpsOf(before, keep)))
      ensures WholeWithin(t, before, now, c, AllowanceOf(allowances, c))
    {
      var p := GuardPlan(t, requests, allowances, before, cut, |t.inverters|);
      UnplannedStay(before, now, keep, Ordered(p, AmpsOf(before, keep)));
      if exists i :: i in keep && t.ConnectionOf(i) == c {
        GuardPlanIsSound(t, requests, allowances, before, cut, |t.inverters|, c);
        ShowsWithin(t, requests, AllowanceOf(allowances, c), c, before, now, keep, p);
        PlannedIsWhole(t, before, now, keep, c, AllowanceOf(allowances, c));
      } else {
        UnplannedIsWhole(before, now, keep, c, AllowanceOf(allowances, c));
      }
    }

    lemma UnplannedIsWhole(before: Words, now: Words, keep: set<nat>, c: nat, allowanceKw: Option<real>)
      requires t.Sane() && now.Keys == before.Keys && forall i :: i in before && i !in keep ==> now[i] == before[i]
      requires forall i :: 0 <= i < |t.inverters| && t.ConnectionOf(i) == c ==> i !in keep
      ensures WholeWithin(t, before, now, c, allowanceKw)
    {
      SameConnection(t, AmpsOf(before, before.Keys), AmpsOf(now, now.Keys), c, |t.inverters|);
    }

    lemma GuardWithin(
        requests: Amps, allowances: map<nat, real>, before: Words, now: Words, cut: set<nat>, keep: set<nat>, c: nat)
      requires t.Sane() && keep == (set i | 0 <= i < |t.inverters| && i in requests)
      requires forall i :: i in keep ==> i in before && t.inverters[i].settable
      requires
        var p := GuardPlan(t, requests, allowances, before, cut, |t.inverters|);
        Shows(before, now, keep, Ordered(p, AmpsOf(before, keep)))
      ensures StaysWithin(t, before, now, requests, c, AllowanceOf(allowances, c))
    {
      var p := GuardPlan(t, requests, allowances, before, cut, |t.inverters|);
      GuardPlanIsSound(t, requests, allowances, before, cut, |t.inverters|, c);
      ShowsWithin(t, requests, AllowanceOf(allowances, c), c, before, now, keep, p);
      SeesItsOwn(requests, before, keep, c);
      SeesItsOwn(requests, now, keep, c);
    }

    /** Of all devices with a request, a connection's sums see its own. */
    lemma SeesItsOwn(requests: Amps, words: Words, keep: set<nat>, c: nat)
      requires t.Sane() && keep == (set i | 0 <= i < |t.inverters| && i in requests)
      ensures
        var a, b := AmpsOf(words, keep), AmpsOf(words, Requested(t, requests, c));
        && PowerKw(t, a, c, |t.inverters|) == PowerKw(t, b, c, |t.inverters|)
        && forall k :: 0 <= k < |t.banks| && t.banks[k].connection == c ==>
             BankSum(t, a, k, |t.inverters|) == BankSum(t, b, k, |t.inverters|)
    {
      SameConnection(t, AmpsOf(words, keep), AmpsOf(words, Requested(t, requests, c)), c, |t.inverters|);
    }
  }
}
