/** Commands of one session, each run at most once, with the results of the latest kept.

    One consume call is two steps: it begins without waiting and, when the handler was
    started, ends later; other calls begin and end in between. */
module CommandDispatch {

  const CACHED := 64

  datatype Refusal = StaleSession | Replayed | StaleAuthority

  datatype Result = Refused(why: Refusal) | Pending | Failed | Done(value: nat)

  datatype Command = Command(session: nat, sequence: int, epoch: int)

  /** One handler start, with the epoch current at that instant. */
  datatype Start = Start(command: Command, epoch: int)

  /** `consumed`, `starts` and `running` are history: every sequence taken, every handler
      start, and the handlers that have not returned. */
  datatype Consumer = Consumer(
    session: nat, last: int, results: map<int, Result>,
    consumed: seq<int>, starts: seq<Start>, running: set<int>)

  function New(session: nat): Consumer {
    Consumer(session, 0, map[], [], [], {})
  }

  /** The smallest key of a cache that has any. */
  lemma {:induction false} SmallestExists(keys: set<int>)
    requires keys != {}
    ensures exists k :: IsSmallest(keys, k)
    decreases |keys|
  {
    assert (forall j :: j !in keys) ==> keys == {};
    var x: int :| x in keys;
    var others := keys - {x};
    if others == {} {
      assert keys == {x};
      assert IsSmallest(keys, x);
    } else {
      SmallestExists(others);
      var k :| IsSmallest(others, k);
      assert forall j :: j in keys ==> j == x || j in others;
      assert IsSmallest(keys, if x < k then x else k);
    }
  }

  predicate IsSmallest(keys: set<int>, k: int) {
    k in keys && forall j :: j in keys ==> k <= j
  }

  ghost function Smallest(keys: set<int>): (k: int)
    requires keys != {}
    ensures IsSmallest(keys, k)
  {
    SmallestExists(keys);
    var k :| IsSmallest(keys, k);
    k
  }

  /** Drop the smallest sequences until the cache fits. */
  ghost function Evicted(results: map<int, Result>): map<int, Result>
    decreases |results|
  {
    if |results| <= CACHED then results else Evicted(results - {Smallest(results.Keys)})
  }

  datatype Answer = Answer(result: Result) | Running

  ghost function Taken(c: Consumer, s: int): Consumer {
    c.(last := s, results := Evicted(c.results[s := Pending]), consumed := c.consumed + [s])
  }

  ghost function Filled(c: Consumer, s: int, result: Result): Consumer {
    c.(results := Evicted(c.results[s := result]))
  }

  /** The part of a call before any wait. */
  ghost function Begun(c: Consumer, command: Command, epoch: int): (Consumer, Answer) {
    if command.session != c.session then (c, Answer(Refused(StaleSession)))
    else if command.sequence in c.results then (c, Answer(c.results[command.sequence]))
    else if command.sequence <= c.last then (c, Answer(Refused(Replayed)))
    else
      var taken := Taken(c, command.sequence);
      if command.epoch != epoch then
        (Filled(taken, command.sequence, Refused(StaleAuthority)), Answer(Refused(StaleAuthority)))
      else
        (taken.(starts := c.starts + [Start(command, epoch)], running := c.running + {command.sequence}), Running)
  }

  /** The rest of the call, once the handler returned or failed. */
  ghost function Ended(c: Consumer, s: int, result: Result): Consumer {
    Filled(c, s, result).(running := c.running - {s})
  }

  // ---------------------------------------------------------------- what the cache holds

  predicate Increasing(s: seq<int>) {
    forall i, j :: 0 <= i < j < |s| ==> s[i] < s[j]
  }

  /** The greatest sequences taken, as many as the cache keeps. */
  function Recent(consumed: seq<int>): seq<int> {
    if |consumed| <= CACHED then consumed else consumed[|consumed| - CACHED..]
  }

  ghost function Elements(s: seq<int>): set<int> {
    set x | x in s
  }

  lemma {:induction false} ElementsCount(s: seq<int>)
    requires Increasing(s)
    ensures |Elements(s)| == |s|
    decreases |s|
  {
    if s != [] {
      var before := s[..|s| - 1];
      ElementsCount(before);
      assert Elements(s) == Elements(before) + {s[|s| - 1]};
    }
  }

  lemma EvictedIsRecent(results: map<int, Result>, keys: seq<int>)
    requires Increasing(keys) && |keys| <= CACHED + 1 && results.Keys == Elements(keys)
    ensures
      var r := Evicted(results);
      && r.Keys == Elements(Recent(keys))
      && forall k :: k in r ==> r[k] == results[k]
  {
    ElementsCount(keys);
    if |keys| > CACHED {
      assert Smallest(results.Keys) == keys[0] by {
        assert keys[0] in results.Keys;
      }
      assert (results - {keys[0]}).Keys == Elements(keys[1..]) by {
        assert keys == [keys[0]] + keys[1..];
      }
      ElementsCount(keys[1..]);
    }
  }

  /** The cache holds exactly the latest of the sequences taken. */
  predicate Caches(consumed: seq<int>, results: map<int, Result>) {
    Increasing(consumed) && results.Keys == (set x | x in Recent(consumed))
  }

  lemma RecentOfMore(consumed: seq<int>, s: int)
    ensures Recent(Recent(consumed) + [s]) == Recent(consumed + [s])
    ensures s in Recent(consumed + [s])
  {
    var more := Recent(consumed + [s]);
    assert more[|more| - 1] == s;
  }

  lemma RecentIncreases(consumed: seq<int>)
    requires Increasing(consumed)
    ensures Increasing(Recent(consumed)) && forall i :: 0 <= i < |Recent(consumed)| ==> Recent(consumed)[i] in consumed
  {
  }

  lemma NewKeys(consumed: seq<int>, results: map<int, Result>, s: int, result: Result)
    requires Caches(consumed, results) && forall x :: x in consumed ==> x < s
    ensures var keys := Recent(consumed) + [s]; Increasing(keys) && results[s := result].Keys == Elements(keys)
    ensures Increasing(consumed + [s]) && s !in results
  {
    RecentIncreases(consumed);
    forall i, j | 0 <= i < j < |consumed + [s]| ensures (consumed + [s])[i] < (consumed + [s])[j] {
      assert consumed[i] in consumed;
    }
  }

  lemma TakeKeepsCache(consumed: seq<int>, results: map<int, Result>, s: int, result: Result)
    requires Caches(consumed, results) && forall x :: x in consumed ==> x < s
    ensures
      var r := Evicted(results[s := result]);
      && Caches(consumed + [s], r) && s in r && r[s] == result
      && forall k :: k in r && k != s ==> k in results && r[k] == results[k]
  {
    NewKeys(consumed, results, s, result);
    EvictedIsRecent(results[s := result], Recent(consumed) + [s]);
    RecentOfMore(consumed, s);
  }

  /** Filling in the result of a sequence taken before: it is updated if it is kept, and
      evicted again at once if it is not. */
  lemma FillKeepsCache(consumed: seq<int>, results: map<int, Result>, s: int, result: Result)
    requires Caches(consumed, results) && s in consumed
    ensures
      var r := Evicted(results[s := result]);
      && r.Keys == results.Keys
      && forall k :: k in r ==> r[k] == if k == s then result else results[k]
  {
    var recent := Recent(consumed);
    if s in recent {
      assert results[s := result].Keys == Elements(recent);
      EvictedIsRecent(results[s := result], recent);
    } else {
      OldIsSmaller(consumed, s);
      assert results[s := result].Keys == Elements([s] + recent);
      EvictedIsRecent(results[s := result], [s] + recent);
      assert ([s] + recent)[1..] == recent;
    }
  }

  lemma OldIsSmaller(consumed: seq<int>, s: int)
    requires Increasing(consumed) && s in consumed && s !in Recent(consumed)
    ensures |Recent(consumed)| == CACHED && Increasing([s] + Recent(consumed))
  {
    var k :| 0 <= k < |consumed| && consumed[k] == s;
    var recent := Recent(consumed);
    assert |consumed| > CACHED;
    forall m | |consumed| - CACHED <= m < |consumed| ensures consumed[m] != s {
      assert recent[m - (|consumed| - CACHED)] == consumed[m];
    }
  }

  predicate AllStarted(c: Consumer) {
    && (forall i, j :: 0 <= i < j < |c.starts| ==> c.starts[i].command.sequence < c.starts[j].command.sequence)
    && (forall i :: 0 <= i < |c.starts| ==> IsProper(c, c.starts[i]))
  }

  /** A handler only starts for a command of this session under the epoch then current. */
  predicate IsProper(c: Consumer, s: Start) {
    s.command.session == c.session && s.command.epoch == s.epoch && s.command.sequence in c.consumed
  }

  predicate Inv(c: Consumer) {
    && Caches(c.consumed, c.results)
    && (forall s :: s in c.consumed ==> 0 < s <= c.last)
    && c.last >= 0
    && AllStarted(c)
    && (forall s :: s in c.running ==> s in c.consumed)
  }

  /** `v` follows `c`: it may only have taken more, and a result no handler still owes is
      what a replay keeps being told, for as long as it is kept. */
  predicate Follows(v: Consumer, c: Consumer) {
    && v.session == c.session && c.starts <= v.starts && c.consumed <= v.consumed
    && (forall s :: s in c.results && s !in c.running && s in v.results ==> v.results[s] == c.results[s])
    && (forall s :: s in v.running && s !in c.running ==> s !in c.consumed)
  }

  lemma TakeKeepsInv(c: Consumer, s: int)
    requires Inv(c) && s > c.last
    ensures
      var v, u := Taken(c, s), Filled(Taken(c, s), s, Refused(StaleAuthority));
      Inv(v) && Follows(v, c) && Inv(u) && Follows(u, c) && s in v.consumed
  {
    TakeKeepsCache(c.consumed, c.results, s, Pending);
    var taken := Evicted(c.results[s := Pending]);
    FillKeepsCache(c.consumed + [s], taken, s, Refused(StaleAuthority));
    TakenKeepsInv(c, s, taken);
    TakenKeepsInv(c, s, Evicted(taken[s := Refused(StaleAuthority)]));
  }

  lemma BeginKeepsInv(c: Consumer, command: Command, epoch: int)
    requires Inv(c)
    ensures var v := Begun(c, command, epoch).0; Inv(v) && Follows(v, c)
  {
    var s := command.sequence;
    if command.session == c.session && s !in c.results && s > c.last {
      TakeKeepsInv(c, s);
      if command.epoch == epoch {
        StartKeepsInv(Taken(c, s), c, Start(command, epoch));
      }
    }
  }

  lemma TakenKeepsInv(c: Consumer, s: int, results: map<int, Result>)
    requires Inv(c) && s > c.last && Caches(c.consumed + [s], results)
    requires forall k :: k in results && k != s ==> k in c.results && results[k] == c.results[k]
    ensures
      var v := c.(last := s, results := results, consumed := c.consumed + [s]);
      Inv(v) && Follows(v, c) && s in v.consumed
  {
    assert s in c.consumed + [s];
    assert s !in c.results by {
      assert forall x :: x in Recent(c.consumed) ==> x in c.consumed;
    }
  }

  /** Starting the handler of the sequence just taken. */
  lemma StartKeepsInv(v: Consumer, c: Consumer, start: Start)
    requires Inv(c) && Inv(v) && Follows(v, c) && v.starts == c.starts && v.running == c.running
    requires IsProper(v, start) && start.command.sequence > c.last
    ensures
      var u := v.(starts := c.starts + [start], running := c.running + {start.command.sequence});
      Inv(u) && Follows(u, c)
  {
    forall i | 0 <= i < |c.starts| ensures c.starts[i].command.sequence < start.command.sequence {
      assert IsProper(c, c.starts[i]);
    }
    var u := v.(starts := c.starts + [start], running := c.running + {start.command.sequence});
    forall i | 0 <= i < |u.starts| ensures IsProper(u, u.starts[i]) {
      if i < |c.starts| {
        assert IsProper(v, v.starts[i]);
      }
    }
  }

  lemma EndKeepsInv(c: Consumer, s: int, result: Result)
    requires Inv(c) && s in c.running
    ensures var v := Ended(c, s, result); Inv(v) && Follows(v, c)
  {
    FillKeepsCache(c.consumed, c.results, s, result);
    EndedKeepsInv(c, s, result, Evicted(c.results[s := result]));
  }

  lemma EndedKeepsInv(c: Consumer, s: int, result: Result, results: map<int, Result>)
    requires Inv(c) && s in c.running && results.Keys == c.results.Keys
    requires forall k :: k in results ==> results[k] == if k == s then result else c.results[k]
    ensures var v := c.(results := results, running := c.running - {s}); Inv(v) && Follows(v, c)
  {
    var v := c.(results := results, running := c.running - {s});
    forall i | 0 <= i < |v.starts| ensures IsProper(v, v.starts[i]) {
      assert IsProper(c, c.starts[i]);
    }
  }

  // ---------------------------------------------------------------- what each call answers

  /** Nothing else that is kept has changed. */
  predicate KeepsOthers(v: Consumer, c: Consumer, s: int) {
    && v.session == c.session
    && forall k :: k in v.results && k != s ==> k in c.results && v.results[k] == c.results[k]
  }

  /** A command of this session that is newer than all before it is taken: its handler
      starts at once under the current epoch, and under any other the refusal is kept. */
  lemma NewCommandStarts(c: Consumer, command: Command, epoch: int)
    requires Inv(c) && command.session == c.session && command.sequence > c.last
    ensures
      var (v, answer) := Begun(c, command, epoch);
      var s := command.sequence;
      && v.last == s && v.consumed == c.consumed + [s] && s in v.results && KeepsOthers(v, c, s)
      && (command.epoch == epoch ==>
          && answer == Running && v.results[s] == Pending
          && v.starts == c.starts + [Start(command, epoch)] && v.running == c.running + {s})
      && (command.epoch != epoch ==>
          && answer == Answer(Refused(StaleAuthority)) && v.results[s] == Refused(StaleAuthority)
          && v.starts == c.starts && v.running == c.running)
  {
    var s := command.sequence;
    assert s !in c.results by {
      assert forall x :: x in Recent(c.consumed) ==> x in c.consumed;
    }
    TakeKeepsCache(c.consumed, c.results, s, Pending);
    FillKeepsCache(c.consumed + [s], Evicted(c.results[s := Pending]), s, Refused(StaleAuthority));
  }

  /** Any other command changes nothing. It is answered with the result kept for it, or
      refused as one of another session or one that is no longer kept. */
  lemma OldCommandIsAnswered(c: Consumer, command: Command, epoch: int)
    requires command.session != c.session || command.sequence <= c.last
    ensures
      var (v, answer) := Begun(c, command, epoch);
      && v == c
      && (command.session != c.session ==> answer == Answer(Refused(StaleSession)))
      && (command.session == c.session && command.sequence in c.results ==>
          answer == Answer(c.results[command.sequence]))
      && (command.session == c.session && command.sequence !in c.results ==> answer == Answer(Refused(Replayed)))
  {
  }

  /** A handler that returns replaces the pending result, while that is kept at all. */
  lemma ResultIsKept(c: Consumer, s: int, result: Result)
    requires Inv(c) && s in c.running
    ensures
      var v := Ended(c, s, result);
      && v.results.Keys == c.results.Keys && KeepsOthers(v, c, s) && (s in v.results ==> v.results[s] == result)
      && s !in v.running && (forall k :: k != s ==> (k in v.running <==> k in c.running))
      && (v.last, v.consumed, v.starts) == (c.last, c.consumed, c.starts)
  {
    FillKeepsCache(c.consumed, c.results, s, result);
  }

  // ---------------------------------------------------------------- every run

  datatype Step = Begin(command: Command, epoch: int) | End(sequence: int, result: Result)

  ghost function Next(c: Consumer, step: Step): Consumer {
    match step
    case Begin(command, epoch) => Begun(c, command, epoch).0
    case End(s, result) => if s in c.running then Ended(c, s, result) else c
  }

  ghost function Run(c: Consumer, steps: seq<Step>): Consumer
    decreases |steps|
  {
    if steps == [] then c else Run(Next(c, steps[0]), steps[1..])
  }

  /** A run is its steps, one after the other. */
  lemma {:induction false} RunTakesEachStep(c: Consumer, steps: seq<Step>, last: Step)
    ensures Run(c, steps + [last]) == Next(Run(c, steps), last)
    decreases |steps|
  {
    if steps == [] {
      assert [last][1..] == [];
    } else {
      assert (steps + [last])[1..] == steps[1..] + [last];
      RunTakesEachStep(Next(c, steps[0]), steps[1..], last);
    }
  }

  lemma StepKeepsInv(c: Consumer, step: Step)
    requires Inv(c)
    ensures Inv(Next(c, step)) && Follows(Next(c, step), c)
  {
    match step
    case Begin(command, epoch) => BeginKeepsInv(c, command, epoch);
    case End(s, result) =>
      if s in c.running {
        EndKeepsInv(c, s, result);
      }
  }

  lemma {:induction false} RunKeepsInv(c: Consumer, steps: seq<Step>)
    requires Inv(c)
    ensures Inv(Run(c, steps))
    decreases |steps|
  {
    if steps != [] {
      StepKeepsInv(c, steps[0]);
      RunKeepsInv(Next(c, steps[0]), steps[1..]);
    }
  }

  /** However calls overlap: handlers start at most once a sequence, in increasing order and
      only under the current epoch, and the cache holds exactly the latest sequences. */
  lemma AtMostOnce(session: nat, steps: seq<Step>)
    ensures
      var c := Run(New(session), steps);
      && AllStarted(c) && c.results.Keys == (set x | x in Recent(c.consumed))
      && Increasing(c.consumed)
  {
    RunKeepsInv(New(session), steps);
  }

  lemma {:induction false} EvictedStaysOut(c: Consumer, steps: seq<Step>, s: int)
    requires Inv(c) && s in c.consumed && s !in c.results
    ensures s !in Run(c, steps).results
    decreases |steps|
  {
    if steps != [] {
      StepKeepsInv(c, steps[0]);
      var v := Next(c, steps[0]);
      OldStaysOut(c.consumed, v.consumed, s);
      EvictedStaysOut(v, steps[1..], s);
    }
  }

  lemma OldStaysOut(a: seq<int>, b: seq<int>, s: int)
    requires Increasing(b) && a <= b && s in a && s !in Recent(a)
    ensures s !in Recent(b)
  {
    assert forall i, j :: 0 <= i < j < |a| ==> a[i] == b[i] && a[j] == b[j];
    OldIsSmaller(a, s);
    var k :| 0 <= k < |a| && a[k] == s;
    forall m | |a| - CACHED <= m < |a| ensures a[m] != s {
      assert Recent(a)[m - (|a| - CACHED)] == a[m];
    }
    forall j | 0 <= j < |Recent(b)| ensures Recent(b)[j] != s {
      assert Recent(b)[j] == b[|b| - CACHED + j] && b[k] == s;
    }
  }

  lemma {:induction false} ConsumedStays(c: Consumer, steps: seq<Step>, s: int)
    requires Inv(c) && s in c.consumed
    ensures Inv(Run(c, steps)) && s in Run(c, steps).consumed && Run(c, steps).session == c.session
    decreases |steps|
  {
    if steps != [] {
      StepKeepsInv(c, steps[0]);
      ConsumedStays(Next(c, steps[0]), steps[1..], s);
    }
  }

  /** Once finished and kept, a result is the same after any run, unless it was evicted. */
  lemma {:induction false} FinishedResultStands(c: Consumer, steps: seq<Step>, s: int)
    requires Inv(c) && s in c.results && s !in c.running
    ensures var v := Run(c, steps); s in v.results ==> v.results[s] == c.results[s]
    decreases |steps|
  {
    if steps != [] {
      var v := Next(c, steps[0]);
      StepKeepsInv(c, steps[0]);
      assert s in c.consumed && s !in v.running;
      if s in v.results {
        FinishedResultStands(v, steps[1..], s);
      } else {
        EvictedStaysOut(v, steps[1..], s);
      }
    }
  }

  /** A finished result is what every replay returns while it is kept, and after that a
      replay is refused: it never runs again and never gets another answer. */
  lemma ReplayAnswers(c: Consumer, steps: seq<Step>, command: Command, epoch: int)
    requires Inv(c) && command.session == c.session
    requires command.sequence in c.results && command.sequence !in c.running
    ensures
      var v := Run(c, steps);
      Begun(v, command, epoch) ==
        (v, Answer(if command.sequence in v.results then c.results[command.sequence] else Refused(Replayed)))
  {
    assert command.sequence in c.consumed;
    FinishedResultStands(c, steps, command.sequence);
    ConsumedStays(c, steps, command.sequence);
  }

  // ---------------------------------------------------------------- the object

  class CommandConsumer {
    const session: nat
    var last: int
    var results: map<int, Result>
    ghost var consumed: seq<int>
    ghost var starts: seq<Start>
    ghost var running: set<int>

    ghost function View(): Consumer
      reads this
    {
      Consumer(session, last, results, consumed, starts, running)
    }

    constructor (session: nat)
      ensures View() == New(session)
    {
      this.session, last, results := session, 0, map[];
      consumed, starts, running := [], [], {};
    }

    method Evict()
      modifies this`results
      ensures results == Evicted(old(results))
    {
      while |results| > CACHED
        invariant Evicted(results) == Evicted(old(results))
        decreases |results|
      {
        SmallestExists(results.Keys);
        var k :| k in results.Keys && forall j :: j in results.Keys ==> k <= j;
        assert k == Smallest(results.Keys);
        results := results - {k};
      }
    }

    method Begin(command: Command, epoch: int) returns (answer: Answer)
      modifies this
      ensures (View(), answer) == Begun(old(View()), command, epoch)
    {
      if command.session != session {
        return Answer(Refused(StaleSession));
      }
      if command.sequence in results {
        return Answer(results[command.sequence]);
      }
      if command.sequence <= last {
        return Answer(Refused(Replayed));
      }
      last := command.sequence;
      consumed := consumed + [command.sequence];
      results := results[command.sequence := Pending];
      Evict();
      if command.epoch != epoch {
        results := results[command.sequence := Refused(StaleAuthority)];
        Evict();
        return Answer(Refused(StaleAuthority));
      }
      starts, running := starts + [Start(command, epoch)], running + {command.sequence};
      answer := Running;
    }

    method End(command: Command, result: Result)
      modifies this
      ensures View() == Ended(old(View()), command.sequence, result)
    {
      results := results[command.sequence := result];
      Evict();
      running := running - {command.sequence};
    }
  }
}
