/** The live export tripwire: which grid readings count, and when a stop is due.

    Instants and spans are integer microseconds. A reading that is not finite, or reported
    at a naive time, is no reading. */
module Tripwire {
  import opened Basics

  const SECOND := 1_000_000
  const DEADBAND := 200.0
  const MAX_AGE := 60 * SECOND
  const MAX_FUTURE := 5 * SECOND
  const WARN_AFTER := 60 * SECOND
  const REPAIR_AFTER := 120 * SECOND

  /** One observation of the site's import, against the export limit then in force. */
  datatype Reading = Reading(importW: Option<real>, reported: Option<int>, limit: real, now: int)

  datatype State = State(overCount: nat, lastCounted: Option<int>, missingSince: Option<int>, warned: bool)

  const NEW := State(0, None, None, false)

  datatype Decision = Decision(trip: bool, missingFor: Option<int>, warn: bool, repair: bool)

  predicate IsFresh(r: Reading) {
    r.importW.Some? && r.reported.Some? && -MAX_FUTURE <= r.now - r.reported.value <= MAX_AGE
  }

  predicate IsOver(r: Reading)
    requires r.importW.Some?
  {
    -r.importW.value > r.limit + DEADBAND
  }

  /** A reading counts from a minute old to five seconds ahead, and an export is over from
      more than 200 W above its limit. */
  lemma ReadingCountsExactlyWhen(r: Reading)
    ensures IsFresh(r) <==>
      && r.importW.Some? && r.reported.Some?
      && r.now - 60_000_000 <= r.reported.value && r.reported.value <= r.now + 5_000_000
    ensures r.importW.Some? ==> (IsOver(r) <==> r.importW.value < -(r.limit + 200.0))
  {
  }

  function Step(s: State, r: Reading): (State, Decision) {
    if !IsFresh(r) then
      var since := if s.missingSince.Some? then s.missingSince.value else r.now;
      var gap := r.now - since;
      var warn := gap >= WARN_AFTER && !s.warned;
      (State(s.overCount, s.lastCounted, Some(since), s.warned || warn),
       Decision(false, Some(gap), warn, gap >= REPAIR_AFTER))
    else
      var newer := s.lastCounted.None? || r.reported.value > s.lastCounted.value;
      var count := if !newer then s.overCount else if IsOver(r) then s.overCount + 1 else 0;
      (State(count, if newer then r.reported else s.lastCounted, None, false), Decision(count >= 2, None, false, false))
  }

  function After(h: seq<Reading>): State
    decreases |h|
  {
    if h == [] then NEW else Step(After(h[..|h| - 1]), h[|h| - 1]).0
  }

  // ---------------------------------------------------------------- history

  /** A fresh reading reported after every fresh reading before it. */
  predicate Counts(h: seq<Reading>, k: nat)
    requires k < |h|
  {
    IsFresh(h[k]) && forall j :: 0 <= j < k && IsFresh(h[j]) ==> h[j].reported.value < h[k].reported.value
  }

  /** How many of the latest counting readings are over, with no other in between. */
  function TrailingOver(h: seq<Reading>): nat
    decreases |h|
  {
    if h == [] then 0
    else if !Counts(h, |h| - 1) then TrailingOver(h[..|h| - 1])
    else if IsOver(h[|h| - 1]) then TrailingOver(h[..|h| - 1]) + 1 else 0
  }

  predicate LatestIs(h: seq<Reading>, last: Option<int>) {
    && (last.None? <==> forall j :: 0 <= j < |h| ==> !IsFresh(h[j]))
    && (last.Some? ==> forall j :: 0 <= j < |h| && IsFresh(h[j]) ==> h[j].reported.value <= last.value)
    && (last.Some? ==> exists j :: 0 <= j < |h| && IsFresh(h[j]) && h[j].reported == last)
  }

  lemma CountsOfPrefix(h: seq<Reading>, k: nat)
    requires k < |h| - 1
    ensures Counts(h[..|h| - 1], k) == Counts(h, k)
  {
    var before := h[..|h| - 1];
    assert forall j :: 0 <= j < k ==> before[j] == h[j];
  }

  lemma LatestStep(h: seq<Reading>, s: State)
    requires h != [] && LatestIs(h[..|h| - 1], s.lastCounted)
    ensures LatestIs(h, Step(s, h[|h| - 1]).0.lastCounted)
    ensures IsFresh(h[|h| - 1]) ==>
      (Counts(h, |h| - 1) <==> s.lastCounted.None? || h[|h| - 1].reported.value > s.lastCounted.value)
  {
    var before, r := h[..|h| - 1], h[|h| - 1];
    assert forall j :: 0 <= j < |before| ==> before[j] == h[j];
    if s.lastCounted.Some? {
      var j :| 0 <= j < |before| && IsFresh(before[j]) && before[j].reported == s.lastCounted;
      assert IsFresh(h[j]) && h[j].reported == s.lastCounted;
    }
    if IsFresh(r) {
      assert h[|h| - 1] == r;
    }
  }

  /** The counter is the trailing run of over-limit readings among those that count:
      missing, stale and older readings neither add to it nor end it. */
  lemma {:induction false} CountIsTrailingRun(h: seq<Reading>)
    ensures After(h).overCount == TrailingOver(h) && LatestIs(h, After(h).lastCounted)
    decreases |h|
  {
    if h != [] {
      CountIsTrailingRun(h[..|h| - 1]);
      LatestStep(h, After(h[..|h| - 1]));
    }
  }

  /** The latest two counting readings are i and j, and both are over. */
  predicate LastTwoOver(h: seq<Reading>, i: nat, j: nat)
    requires i < j < |h|
  {
    && Counts(h, i) && Counts(h, j) && IsOver(h[i]) && IsOver(h[j])
    && forall m :: i < m < |h| && m != j ==> !Counts(h, m)
  }

  predicate LastOver(h: seq<Reading>, j: nat)
    requires j < |h|
  {
    Counts(h, j) && IsOver(h[j]) && forall m :: j < m < |h| ==> !Counts(h, m)
  }

  lemma {:induction false} OneIsLastOver(h: seq<Reading>)
    ensures TrailingOver(h) >= 1 <==> exists j: nat :: j < |h| && LastOver(h, j)
    decreases |h|
  {
    if h != [] {
      var n := |h| - 1;
      var before := h[..n];
      OneIsLastOver(before);
      forall m: nat | m < n ensures Counts(before, m) == Counts(h, m) && before[m] == h[m] {
        CountsOfPrefix(h, m);
      }
      if Counts(h, n) {
        if IsOver(h[n]) {
          assert LastOver(h, n);
        }
      } else {
        forall j: nat | j < n ensures LastOver(before, j) == LastOver(h, j) {
        }
      }
    }
  }

  lemma LastTwoOfPrefix(h: seq<Reading>, i: nat, j: nat)
    requires i < j < |h| - 1
    ensures LastTwoOver(h, i, j) <==> LastTwoOver(h[..|h| - 1], i, j) && !Counts(h, |h| - 1)
  {
    var before := h[..|h| - 1];
    forall m: nat | m < |before| ensures Counts(before, m) == Counts(h, m) && before[m] == h[m] {
      CountsOfPrefix(h, m);
    }
  }

  lemma LastTwoEndHere(h: seq<Reading>, i: nat)
    requires i < |h| - 1
    ensures LastTwoOver(h, i, |h| - 1) <==> Counts(h, |h| - 1) && IsOver(h[|h| - 1]) && LastOver(h[..|h| - 1], i)
  {
    var before := h[..|h| - 1];
    forall m: nat | m < |before| ensures Counts(before, m) == Counts(h, m) && before[m] == h[m] {
      CountsOfPrefix(h, m);
    }
  }

  lemma {:induction false} TwoAreLastTwoOver(h: seq<Reading>)
    ensures TrailingOver(h) >= 2 <==> exists i: nat, j: nat :: i < j < |h| && LastTwoOver(h, i, j)
    decreases |h|
  {
    if h != [] {
      var n := |h| - 1;
      TwoAreLastTwoOver(h[..n]);
      OneIsLastOver(h[..n]);
      forall i: nat, j: nat | i < j < n ensures LastTwoOver(h, i, j) <==> LastTwoOver(h[..n], i, j) && !Counts(h, n) {
        LastTwoOfPrefix(h, i, j);
      }
      forall i: nat | i < n ensures LastTwoOver(h, i, n) <==> Counts(h, n) && IsOver(h[n]) && LastOver(h[..n], i) {
        LastTwoEndHere(h, i);
      }
    }
  }

  /** A stop is due exactly on a fresh reading that leaves the latest two counting ones
      both more than the deadband over. */
  lemma TripsOnTwoInARow(h: seq<Reading>, r: Reading)
    ensures
      var g := h + [r];
      Step(After(h), r).1.trip <==> IsFresh(r) && exists i: nat, j: nat :: i < j < |g| && LastTwoOver(g, i, j)
  {
    var g := h + [r];
    assert g[..|h|] == h;
    CountIsTrailingRun(g);
    TwoAreLastTwoOver(g);
  }

  // ---------------------------------------------------------------- missing readings

  /** Readings from `start` on are all missing or stale, and the one before is not. */
  predicate GapFrom(h: seq<Reading>, start: nat) {
    && start < |h|
    && (forall k :: start <= k < |h| ==> !IsFresh(h[k]))
    && (start > 0 ==> IsFresh(h[start - 1]))
  }

  /** A reading of the gap old enough to warn about. */
  predicate WarnedAt(h: seq<Reading>, start: nat, k: nat)
    requires start <= k < |h|
  {
    h[k].now - h[start].now >= WARN_AFTER
  }

  ghost predicate GapIs(h: seq<Reading>, s: State) {
    && (s.missingSince.None? <==> h == [] || IsFresh(h[|h| - 1]))
    && (s.missingSince.None? ==> !s.warned)
    && (s.missingSince.Some? ==> exists start: nat :: GapFrom(h, start) && GapStart(h, start, s))
  }

  predicate GapStart(h: seq<Reading>, start: nat, s: State)
    requires start < |h|
  {
    && s.missingSince == Some(h[start].now)
    && (s.warned <==> exists k :: start <= k < |h| && WarnedAt(h, start, k))
  }

  lemma GapGrows(h: seq<Reading>, r: Reading, start: nat, s: State)
    requires GapFrom(h, start) && GapStart(h, start, s) && !IsFresh(r)
    ensures GapFrom(h + [r], start) && GapStart(h + [r], start, Step(s, r).0)
  {
    var g, v := h + [r], Step(s, r).0;
    assert forall k :: 0 <= k < |h| ==> g[k] == h[k];
    assert g[|h|] == r;
    if s.warned {
      var k :| start <= k < |h| && WarnedAt(h, start, k);
      assert WarnedAt(g, start, k);
    } else if v.warned {
      assert WarnedAt(g, start, |h|);
    }
    if exists k :: start <= k < |g| && WarnedAt(g, start, k) {
      var k :| start <= k < |g| && WarnedAt(g, start, k);
      assert k < |h| ==> WarnedAt(h, start, k);
    }
  }

  lemma {:induction false} GapHistory(h: seq<Reading>)
    ensures GapIs(h, After(h))
    decreases |h|
  {
    if h != [] {
      var before, r := h[..|h| - 1], h[|h| - 1];
      GapHistory(before);
      assert before + [r] == h;
      if !IsFresh(r) {
        if After(before).missingSince.Some? {
          var start: nat :| GapFrom(before, start) && GapStart(before, start, After(before));
          GapGrows(before, r, start, After(before));
        } else {
          assert GapFrom(h, |h| - 1) && GapStart(h, |h| - 1, After(h));
        }
      }
    }
  }

  /** Within one gap the warning is given once: on the first reading a minute or more
      after the gap began. */
  lemma WarnsOnceAGap(h: seq<Reading>, r: Reading, start: nat)
    requires GapFrom(h + [r], start)
    ensures
      var g := h + [r];
      Step(After(h), r).1.warn <==>
        WarnedAt(g, start, |h|) && forall k :: start <= k < |h| ==> !WarnedAt(g, start, k)
  {
    var g := h + [r];
    GapHistory(h);
    assert g[|h|] == r;
    assert forall k :: 0 <= k < |h| ==> g[k] == h[k];
    if start < |h| {
      assert !IsFresh(g[|h| - 1]);
      var first: nat :| GapFrom(h, first) && GapStart(h, first, After(h));
      assert first == start;
      assert forall k :: start <= k < |h| ==> WarnedAt(g, start, k) == WarnedAt(h, start, k);
    } else if h != [] {
      assert IsFresh(g[start - 1]);
    }
  }

  /** A gap is as long as it has been since its first reading, its repair is due from two
      minutes on, and any fresh reading ends all of it. */
  lemma RepairsTwoMinutesIn(h: seq<Reading>, r: Reading, start: nat)
    ensures IsFresh(r) ==>
      var d := Step(After(h), r).1;
      d.missingFor.None? && !d.warn && !d.repair
    ensures GapFrom(h + [r], start) ==>
      var d, gap := Step(After(h), r).1, r.now - (h + [r])[start].now;
      d.missingFor == Some(gap) && (d.repair <==> gap >= 120_000_000) && !d.trip
  {
    var g := h + [r];
    if GapFrom(g, start) {
      GapHistory(h);
      assert g[|h|] == r;
      assert forall k :: 0 <= k < |h| ==> g[k] == h[k];
      if start < |h| {
        assert !IsFresh(g[|h| - 1]);
        var first: nat :| GapFrom(h, first) && GapStart(h, first, After(h));
        assert first == start;
      } else if h != [] {
        assert IsFresh(g[start - 1]);
      }
    }
  }

  // ---------------------------------------------------------------- the object

  /** One state per connection, kept only while an export is watched under a real limit;
      its history starts over with every stop. */
  class ExportTripwire {
    var states: map<string, State>
    ghost var histories: map<string, seq<Reading>>

    /** Every state kept is what its readings make of it. */
    ghost predicate Valid()
      reads this
    {
      states.Keys == histories.Keys && forall c :: c in states ==> states[c] == After(histories[c])
    }

    constructor ()
      ensures Valid() && states == map[]
    {
      states, histories := map[], map[];
    }

    method Reset(connection: string)
      requires Valid()
      modifies this
      ensures Valid() && states == old(states) - {connection} && histories == old(histories) - {connection}
    {
      states, histories := states - {connection}, histories - {connection};
    }

    method Observe(connection: string, watching: bool, limited: bool, r: Reading) returns (trip: bool)
      requires Valid()
      modifies this
      ensures Valid()
      ensures !watching || !limited || r.limit <= 0.0 ==>
        !trip && states == old(states) - {connection} && histories == old(histories) - {connection}
      ensures watching && limited && r.limit > 0.0 ==>
        var before := if connection in old(histories) then old(histories)[connection] else [];
        && histories == old(histories)[connection := before + [r]]
        && trip == Step(After(before), r).1.trip
    {
      if !watching || !limited || r.limit <= 0.0 {
        Reset(connection);
        return false;
      }
      ghost var before := if connection in histories then histories[connection] else [];
      var (state, decision) := Step(if connection in states then states[connection] else NEW, r);
      states := states[connection := state];
      histories := histories[connection := before + [r]];
      assert (before + [r])[..|before|] == before;
      trip := decision.trip;
    }

    /** A trip whose latch was saved starts the connection's count over, so the next stop
        needs two counting readings over again. */
    method AfterTrip(connection: string, saved: bool)
      requires Valid()
      modifies this
      ensures Valid()
      ensures states == if saved then old(states)[connection := NEW] else old(states)
      ensures histories == if saved then old(histories)[connection := []] else old(histories)
    {
      if saved {
        states, histories := states[connection := NEW], histories[connection := []];
      }
    }
  }
}
