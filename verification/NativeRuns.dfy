/** Runs of plan requests at the native boundary, and what the supply feels of them: the
    registers of all inverters of a connection, requested or not. */
module NativeRuns {
  import opened Basics
  import opened ChargeClamp
  import opened ClampedWriting
  import opened NativeWriting
  import RecordedRuns

  /** The registers, and what the owner last asked of each inverter in this epoch. */
  datatype Plant = Plant(words: Words, requested: Amps)

  /** How a request ends: it counts from then on, it was refused or never attempted, or the
      transaction raised and the earlier request was restored. */
  datatype Ending = Counts | TakenBack | Raises

  /** `NewEpoch` forgets every request, as the first one of a new epoch does. */
  datatype Step =
    | NewEpoch
    | Ask(inverter: nat, amps: real, commits: nat, ending: Ending)

  /** The registers after the first k commits of an order. */
  function Committed(words: Words, order: seq<Write>, k: nat): Words
    requires k <= |order|
  {
    if k == 0 then words else Committed(words, order, k - 1)[order[k - 1].id := CurrentWord(order[k - 1].amps)]
  }

  function CommitOrder(t: Topology, words: Words, requested: Amps, inverter: nat, allowanceKw: Option<real>): seq<Write>
    requires t.Sane() && inverter < |t.inverters|
  {
    var keep := Requested(t, requested, t.ConnectionOf(inverter));
    Ordered(TransactionPlan(t, requested, inverter, allowanceKw), AmpsOf(words, keep))
  }

  function Asked(p: Plant, x: Step): Amps
    requires x.Ask?
  {
    p.requested[x.inverter := x.amps]
  }

  function AskOrder(t: Topology, p: Plant, x: Step, allowances: map<nat, real>): seq<Write>
    requires t.Sane() && x.Ask? && x.inverter < |t.inverters|
  {
    CommitOrder(t, p.words, Asked(p, x), x.inverter, AllowanceOf(allowances, t.ConnectionOf(x.inverter)))
  }

  /** A request the boundary can meet: nothing is committed past a device that cannot be
      set, and what is taken back has not raised its device. */
  predicate Possible(t: Topology, p: Plant, x: Step, allowances: map<nat, real>)
    requires t.Sane()
  {
    x.Ask? ==>
      && x.inverter < |t.inverters| && x.commits <= |AskOrder(t, p, x, allowances)|
      && (x.commits > 0 ==> AllSet(t, Asked(p, x), t.ConnectionOf(x.inverter)))
      && (x.ending == TakenBack ==>
            NoHigher(p.words, Committed(p.words, AskOrder(t, p, x, allowances), x.commits), x.inverter))
  }

  function Next(t: Topology, p: Plant, x: Step, allowances: map<nat, real>): Plant
    requires t.Sane() && Possible(t, p, x, allowances)
  {
    match x
    case NewEpoch => p.(requested := map[])
    case Ask(_, _, commits, ending) =>
      Plant(Committed(p.words, AskOrder(t, p, x, allowances), commits),
            if ending == Counts then Asked(p, x) else p.requested)
  }

  predicate PossibleRun(t: Topology, p: Plant, steps: seq<Step>, allowances: map<nat, real>)
    requires t.Sane()
    decreases |steps|
  {
    steps == [] || (
      Possible(t, p, steps[0], allowances) && PossibleRun(t, Next(t, p, steps[0], allowances), steps[1..], allowances))
  }

  function Run(t: Topology, p: Plant, steps: seq<Step>, allowances: map<nat, real>): Plant
    requires t.Sane() && PossibleRun(t, p, steps, allowances)
    decreases |steps|
  {
    if steps == [] then p else Run(t, Next(t, p, steps[0], allowances), steps[1..], allowances)
  }

  /** A run is its steps, one after the other. */
  lemma {:induction false} RunTakesEachStep(
      t: Topology, p: Plant, steps: seq<Step>, last: Step, allowances: map<nat, real>)
    requires t.Sane() && PossibleRun(t, p, steps, allowances)
    requires Possible(t, Run(t, p, steps, allowances), last, allowances)
    ensures PossibleRun(t, p, steps + [last], allowances)
    ensures Run(t, p, steps + [last], allowances) == Next(t, Run(t, p, steps, allowances), last, allowances)
    decreases |steps|
  {
    if steps == [] {
      assert [last][1..] == [];
    } else {
      assert (steps + [last])[1..] == steps[1..] + [last];
      RunTakesEachStep(t, Next(t, p, steps[0], allowances), steps[1..], last, allowances);
    }
  }

  // ---------------------------------------------------------------- the boundary's requests are steps

  lemma {:induction false} CommittedValue(words: Words, order: seq<Write>, k: nat, i: nat)
    requires k <= |order| && Distinct(order)
    ensures (i in Committed(words, order, k) <==> i in words || !Untouched(order, k, i))
    ensures Untouched(order, k, i) && i in words ==> Committed(words, order, k)[i] == words[i]
    ensures forall j :: 0 <= j < k && order[j].id == i ==> Committed(words, order, k)[i] == CurrentWord(order[j].amps)
  {
    if k > 0 {
      CommittedValue(words, order, k - 1, i);
    }
  }

  /** The registers that show k commits are those k commits applied. */
  lemma DoneIsCommitted(before: Words, now: Words, keep: set<nat>, order: seq<Write>, k: nat)
    requires Done(before, now, keep, order, k) && Distinct(order)
    ensures now == Committed(before, order, k)
  {
    var c := Committed(before, order, k);
    forall i ensures i in now <==> i in c {
      CommittedValue(before, order, k, i);
      if !Untouched(order, k, i) {
        var j :| 0 <= j < k && order[j].id == i;
        assert order[j] in order;
      }
    }
    forall i | i in now ensures now[i] == c[i] {
      CommittedValue(before, order, k, i);
      if !Untouched(order, k, i) {
        var j :| 0 <= j < k && order[j].id == i;
      }
    }
  }

  /** What the boundary's request promises makes it a step of a run. */
  lemma RequestIsAStep(
      t: Topology, before: Plant, inverter: nat, amps: real, allowances: map<nat, real>, after: Plant,
      outcome: Outcome, kept: bool)
    requires t.Sane() && inverter < |t.inverters| && forall i :: 0 <= i < |t.inverters| ==> i in before.words
    requires
      var asked := before.requested[inverter := amps];
      && after.requested == (if kept then asked else before.requested)
      && Moves(t, before.words, after.words, asked, inverter, AllowanceOf(allowances, t.ConnectionOf(inverter)))
      && (!kept && outcome != Raised ==> NoHigher(before.words, after.words, inverter))
    ensures
      var ending := if kept then Counts else if outcome == Raised then Raises else TakenBack;
      exists k: nat :: IsStep(t, before, Ask(inverter, amps, k, ending), allowances, after)
  {
    var asked, c := before.requested[inverter := amps], t.ConnectionOf(inverter);
    var allowance := AllowanceOf(allowances, c);
    var order := CommitOrder(t, before.words, asked, inverter, allowance);
    var ending := if kept then Counts else if outcome == Raised then Raises else TakenBack;
    if after.words == before.words {
      assert IsStep(t, before, Ask(inverter, amps, 0, ending), allowances, after);
    } else {
      var k := CommitsDone(t, before.words, after.words, asked, inverter, allowance);
      assert IsStep(t, before, Ask(inverter, amps, k, ending), allowances, after);
    }
  }

  /** Registers that moved show a number of the transaction's commits. */
  lemma CommitsDone(
      t: Topology, words: Words, now: Words, asked: Amps, inverter: nat, allowanceKw: Option<real>) returns (k: nat)
    requires t.Sane() && inverter < |t.inverters| && forall i :: 0 <= i < |t.inverters| ==> i in words
    requires inverter in asked && now != words && Moves(t, words, now, asked, inverter, allowanceKw)
    ensures AllSet(t, asked, t.ConnectionOf(inverter))
    ensures
      var order := CommitOrder(t, words, asked, inverter, allowanceKw);
      && k <= |order| && Distinct(order) && NonNegative(order) && now == Committed(words, order, k)
      && forall w :: w in order ==> w.id in words && w.id in Requested(t, asked, t.ConnectionOf(inverter))
  {
    var keep := Requested(t, asked, t.ConnectionOf(inverter));
    var order := CommitOrder(t, words, asked, inverter, allowanceKw);
    OrderIsSound(t, words, asked, inverter, allowanceKw);
    k :| Done(words, now, keep, order, k);
    DoneIsCommitted(words, now, keep, order, k);
  }

  predicate IsStep(t: Topology, before: Plant, x: Step, allowances: map<nat, real>, after: Plant)
    requires t.Sane()
  {
    Possible(t, before, x, allowances) && Next(t, before, x, allowances) == after
  }

  lemma OrderIsSound(t: Topology, words: Words, requested: Amps, inverter: nat, allowanceKw: Option<real>)
    requires t.Sane() && inverter < |t.inverters| && inverter in requested
    requires AllSet(t, requested, t.ConnectionOf(inverter)) && forall i :: 0 <= i < |t.inverters| ==> i in words
    ensures
      var order := CommitOrder(t, words, requested, inverter, allowanceKw);
      && Distinct(order) && NonNegative(order)
      && forall w :: w in order ==> w.id in words && w.id in Requested(t, requested, t.ConnectionOf(inverter))
  {
    var keep := Requested(t, requested, t.ConnectionOf(inverter));
    var planned := TransactionPlan(t, requested, inverter, allowanceKw);
    TransactionPlanIsSound(t, requested, inverter, allowanceKw, words);
    OrderIsDistinct(planned, AmpsOf(words, keep));
    OrderKeeps(planned, AmpsOf(words, keep));
    assert forall w :: w in Ordered(planned, AmpsOf(words, keep)) ==> w in planned;
  }

  // ---------------------------------------------------------------- every commit of a request

  lemma {:induction false} CommittedIsDone(words: Words, keep: set<nat>, order: seq<Write>, k: nat)
    requires k <= |order| && Distinct(order) && forall w :: w in order ==> w.id in words && w.id in keep
    ensures Done(words, Committed(words, order, k), keep, order, k)
  {
    if k == 0 {
      assert Floored(order)[..0] == [];
    } else {
      CommittedIsDone(words, keep, order, k - 1);
      DoneOneMore(words, Committed(words, order, k - 1), keep, order, k - 1);
    }
  }

  /** At every commit of a request, over all inverters of its connection: at most what was
      drawn before or the allowance, where every register that is not zero has a request. */
  lemma CommitsStayWhole(
      t: Topology, words: Words, requested: Amps, inverter: nat, allowanceKw: Option<real>, k: nat)
    requires t.Sane() && inverter < |t.inverters| && inverter in requested
    requires AllSet(t, requested, t.ConnectionOf(inverter)) && forall i :: 0 <= i < |t.inverters| ==> i in words
    requires Tracked(t, words, requested, t.ConnectionOf(inverter))
    requires k <= |CommitOrder(t, words, requested, inverter, allowanceKw)|
    ensures
      var order := CommitOrder(t, words, requested, inverter, allowanceKw);
      WholeWithin(t, words, Committed(words, order, k), t.ConnectionOf(inverter), allowanceKw)
  {
    var order := CommitOrder(t, words, requested, inverter, allowanceKw);
    var keep := Requested(t, requested, t.ConnectionOf(inverter));
    OrderIsSound(t, words, requested, inverter, allowanceKw);
    CommittedIsDone(words, keep, order, k);
    StateStaysWithin(t, requested, inverter, allowanceKw, words, Committed(words, order, k));
  }

  // ---------------------------------------------------------------- runs

  /** Every register that is not zero has a request. */
  predicate AllTracked(t: Topology, p: Plant) {
    forall i :: 0 <= i < |t.inverters| ==> i in p.words && (p.words[i] > 0 ==> i in p.requested)
  }

  /** What a run must not contain: a new epoch, or a raise that left its device higher. */
  predicate KeepsTrack(t: Topology, p: Plant, x: Step, allowances: map<nat, real>)
    requires t.Sane() && Possible(t, p, x, allowances)
  {
    x.Ask? && (x.ending == Raises ==> NoHigher(p.words, Next(t, p, x, allowances).words, x.inverter))
  }

  predicate TrackKept(t: Topology, p: Plant, steps: seq<Step>, allowances: map<nat, real>)
    requires t.Sane() && PossibleRun(t, p, steps, allowances)
    decreases |steps|
  {
    steps == [] || (
      KeepsTrack(t, p, steps[0], allowances) && TrackKept(t, Next(t, p, steps[0], allowances), steps[1..], allowances))
  }

  function Residents(p: Plant): Amps {
    AmpsOf(p.words, p.words.Keys)
  }

  lemma NextStaysTracked(t: Topology, p: Plant, x: Step, allowances: map<nat, real>)
    requires t.Sane() && AllTracked(t, p) && Possible(t, p, x, allowances) && KeepsTrack(t, p, x, allowances)
    ensures AllTracked(t, Next(t, p, x, allowances))
  {
    var q, order := Next(t, p, x, allowances), AskOrder(t, p, x, allowances);
    var keep := Requested(t, Asked(p, x), t.ConnectionOf(x.inverter));
    if x.commits > 0 {
      OrderIsSound(t, p.words, Asked(p, x), x.inverter, AllowanceOf(allowances, t.ConnectionOf(x.inverter)));
      forall i | 0 <= i < |t.inverters| ensures i in q.words && (q.words[i] > 0 ==> i in q.requested) {
        CommittedValue(p.words, order, x.commits, i);
        if !Untouched(order, x.commits, i) {
          var j :| 0 <= j < x.commits && order[j].id == i;
          assert order[j] in order;
        }
      }
    }
  }

  /** A request moves no register of another connection. */
  lemma OthersUnmoved(t: Topology, p: Plant, x: Step, allowances: map<nat, real>, k: nat, d: nat)
    requires t.Sane() && AllTracked(t, p) && x.Ask? && x.inverter < |t.inverters| && d != t.ConnectionOf(x.inverter)
    requires AllSet(t, Asked(p, x), t.ConnectionOf(x.inverter)) && k <= |AskOrder(t, p, x, allowances)|
    ensures
      var now := Plant(Committed(p.words, AskOrder(t, p, x, allowances), k), p.requested);
      && Power(t, Residents(now), d) == Power(t, Residents(p), d)
      && forall b :: 0 <= b < |t.banks| && t.banks[b].connection == d ==>
           BankCurrent(t, Residents(now), b) == BankCurrent(t, Residents(p), b)
  {
    var order := AskOrder(t, p, x, allowances);
    var now := Plant(Committed(p.words, order, k), p.requested);
    OrderIsSound(t, p.words, Asked(p, x), x.inverter, AllowanceOf(allowances, t.ConnectionOf(x.inverter)));
    forall i {:trigger Held(Residents(now), i)} | 0 <= i < |t.inverters| && t.ConnectionOf(i) == d
      ensures Held(Residents(now), i) == Held(Residents(p), i)
    {
      CommittedValue(p.words, order, k, i);
      forall j | 0 <= j < k ensures order[j].id != i {
        assert order[j] in order;
      }
    }
    SameConnection(t, Residents(now), Residents(p), d, |t.inverters|);
  }

  lemma CommitKeepsBounds(t: Topology, p: Plant, x: Step, allowances: map<nat, real>, k: nat)
    requires t.Sane() && AllTracked(t, p) && Possible(t, p, x, allowances) && x.Ask? && k <= x.commits
    requires RecordedRuns.InBounds(t, Residents(p), allowances)
    ensures
      var now := Plant(Committed(p.words, AskOrder(t, p, x, allowances), k), p.requested);
      RecordedRuns.InBounds(t, Residents(now), allowances)
  {
    if k > 0 {
      var c := t.ConnectionOf(x.inverter);
      var now := Plant(Committed(p.words, AskOrder(t, p, x, allowances), k), p.requested);
      CommitsStayWhole(t, p.words, Asked(p, x), x.inverter, AllowanceOf(allowances, c), k);
      forall d | d in allowances ensures Power(t, Residents(now), d) <= Current(allowances[d]) {
        if d != c {
          OthersUnmoved(t, p, x, allowances, k, d);
        }
      }
      forall b | 0 <= b < |t.banks| ensures BankCurrent(t, Residents(now), b) <= t.banks[b].limitA {
        if t.banks[b].connection != c {
          OthersUnmoved(t, p, x, allowances, k, t.banks[b].connection);
        }
      }
    }
  }

  lemma {:induction false} RunStaysTracked(t: Topology, p: Plant, steps: seq<Step>, allowances: map<nat, real>)
    requires t.Sane() && AllTracked(t, p) && RecordedRuns.InBounds(t, Residents(p), allowances)
    requires PossibleRun(t, p, steps, allowances) && TrackKept(t, p, steps, allowances)
    ensures
      var q := Run(t, p, steps, allowances);
      AllTracked(t, q) && RecordedRuns.InBounds(t, Residents(q), allowances)
    decreases |steps|
  {
    if steps != [] {
      NextStaysTracked(t, p, steps[0], allowances);
      CommitKeepsBounds(t, p, steps[0], allowances, steps[0].commits);
      RunStaysTracked(t, Next(t, p, steps[0], allowances), steps[1..], allowances);
    }
  }

  /** From registers at zero and under constant allowances, over requests of one epoch of
      which none raised and left its device higher: at no commit of the next request, raised
      or not, does any connection draw more than its allowance, nor a bank more than its
      limit, counting every inverter. */
  lemma NeverExceedsFromZero(
      t: Topology, words: Words, steps: seq<Step>, x: Step, allowances: map<nat, real>, k: nat)
    requires t.Sane() && forall i :: 0 <= i < |t.inverters| ==> i in words && words[i] == 0
    requires
      var p := Plant(words, map[]);
      PossibleRun(t, p, steps, allowances) && TrackKept(t, p, steps, allowances)
    requires Possible(t, Run(t, Plant(words, map[]), steps, allowances), x, allowances) && x.Ask? && k <= x.commits
    ensures
      var at := Run(t, Plant(words, map[]), steps, allowances);
      var now := Plant(Committed(at.words, AskOrder(t, at, x, allowances), k), at.requested);
      RecordedRuns.InBounds(t, Residents(now), allowances)
  {
    var p := Plant(words, map[]);
    ZeroIsInBounds(t, p, allowances);
    RunStaysTracked(t, p, steps, allowances);
    CommitKeepsBounds(t, Run(t, p, steps, allowances), x, allowances, k);
  }

  lemma ZeroIsInBounds(t: Topology, p: Plant, allowances: map<nat, real>)
    requires t.Sane() && forall i :: 0 <= i < |t.inverters| ==> i in p.words && p.words[i] == 0
    ensures RecordedRuns.InBounds(t, Residents(p), allowances)
  {
    forall c | c in allowances ensures Power(t, Residents(p), c) <= Current(allowances[c]) {
      RecordedRuns.NothingDraws(t, Residents(p), c, 0, |t.inverters|);
    }
    forall b | 0 <= b < |t.banks| ensures BankCurrent(t, Residents(p), b) <= t.banks[b].limitA {
      RecordedRuns.NothingDraws(t, Residents(p), 0, b, |t.inverters|);
    }
  }
}
