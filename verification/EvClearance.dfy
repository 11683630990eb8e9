/** How an EV hold earns its release: only fresh reports of no charging, each newer than
    the last, count towards it. */
module EvClearance {
  import opened Basics

  datatype Clearance = Clearance(count: nat, last: Option<int>, pendingRelease: bool)

  /** One evaluation: charging is None when unknown or stale. */
  datatype Report = Report(charging: Option<bool>, at: Option<int>)

  const NEEDED := 5

  const NOTHING := Clearance(0, None, false)

  predicate IsClear(r: Report) {
    r.charging == Some(false) && r.at.Some?
  }

  function AdvanceEv(c: Clearance, r: Report): Clearance {
    if !IsClear(r) then NOTHING
    else if c.last == r.at then c
    else if c.last.Some? && r.at.value < c.last.value then NOTHING
    else
      var count := if c.count + 1 < NEEDED then c.count + 1 else NEEDED;
      Clearance(count, r.at, count == NEEDED)
  }

  function Cleared(history: seq<Report>): Clearance
    decreases |history|
  {
    if history == [] then NOTHING
    else AdvanceEv(Cleared(history[..|history| - 1]), history[|history| - 1])
  }

  /** Where the clearance starts over: anything but a clear report, and a clear report
      older than the one it continues. */
  predicate StartsOver(history: seq<Report>, k: nat)
    requires k < |history|
  {
    || !IsClear(history[k])
    || (k > 0 && !StartsOver(history, k - 1) && history[k].at.value < history[k - 1].at.value)
  }

  /** The report times since the clearance last started over. */
  function Times(history: seq<Report>, n: nat): set<int>
    requires n <= |history|
  {
    if n == 0 || StartsOver(history, n - 1) then {} else Times(history, n - 1) + {history[n - 1].at.value}
  }

  /** The counter is the number of different report times since the last start, up to
      five, and release is due exactly at five. */
  lemma {:induction false} CountsDistinctReports(history: seq<Report>, n: nat)
    requires n <= |history|
    ensures
      var c := Cleared(history[..n]);
      && c.count == (if |Times(history, n)| < NEEDED then |Times(history, n)| else NEEDED)
      && c.pendingRelease == (|Times(history, n)| >= NEEDED)
      && (c.last.None? <==> Times(history, n) == {})
      && (c.last.Some? ==> history[n - 1].at == c.last && c.last.value in Times(history, n))
      && forall t :: t in Times(history, n) ==> t <= c.last.value
    decreases n
  {
    if n > 0 {
      CountsDistinctReports(history, n - 1);
      assert history[..n][..n - 1] == history[..n - 1];
      var r := history[n - 1];
      var c := Cleared(history[..n - 1]);
      if !StartsOver(history, n - 1) && c.last == r.at {
        assert Times(history, n) == Times(history, n - 1);
      }
    }
  }
}
