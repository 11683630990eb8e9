/** The daemon's request queues: owner mode requests first, everything else in turn, and
    replans that have not started coalesced into one.

    A ticket is the identity of one queued request and its future. */
module ReplanQueue {
  import opened Basics

  const MODE_LIMIT := 8
  const WORK_LIMIT := 64

  datatype Kind = ModeRequest | Replan | Other

  datatype Reply = Reply(value: nat) | Stopped

  /** A caller waiting for a ticket's reply, and how many requests had started when it asked. */
  datatype Wait = Wait(ticket: nat, asked: nat)

  datatype Outcome = NotServing | Repairing | Full | Waiting(ticket: nat)

  /** `kinds`, `started`, `answers` and `waits` are history: what each ticket asked for, the
      tickets handed to the daemon, the futures resolved, and who waits for what. */
  datatype Channel = Channel(
    serving: bool, repairing: bool, modes: seq<nat>, work: seq<nat>, pending: Option<nat>,
    kinds: seq<Kind>, started: seq<nat>, answers: seq<(nat, Reply)>, waits: seq<Wait>)

  function New(repairing: bool): Channel {
    Channel(true, repairing, [], [], None, [], [], [], [])
  }

  function Queued(c: Channel, kind: Kind): Channel {
    var t := |c.kinds|;
    if kind == ModeRequest then c.(modes := c.modes + [t], kinds := c.kinds + [kind])
    else c.(work := c.work + [t], kinds := c.kinds + [kind], pending := if kind == Replan then Some(t) else c.pending)
  }

  predicate HasRoom(c: Channel, kind: Kind) {
    if kind == ModeRequest then |c.modes| < MODE_LIMIT else |c.work| < WORK_LIMIT
  }

  function Waited(c: Channel, t: nat): Channel {
    c.(waits := c.waits + [Wait(t, |c.started|)])
  }

  /** A caller submits a request and waits; a replan joins one that has not started. */
  function Submitted(c: Channel, kind: Kind): (Channel, Outcome) {
    if !c.serving then (c, NotServing)
    else if c.repairing then (c, Repairing)
    else if kind == Replan && c.pending.Some? then (Waited(c, c.pending.value), Waiting(c.pending.value))
    else if !HasRoom(c, kind) then (c, Full)
    else (Waited(Queued(c, kind), |c.kinds|), Waiting(|c.kinds|))
  }

  /** Changed settings ask for a replan without waiting for it. */
  function Notified(c: Channel): Channel {
    if !c.serving || c.repairing || c.pending.Some? || !HasRoom(c, Replan) then c else Queued(c, Replan)
  }

  function Taken(c: Channel): (Channel, Option<nat>) {
    if c.modes != [] then
      var t := c.modes[0];
      (c.(modes := c.modes[1..], started := c.started + [t],
          pending := if c.pending == Some(t) then None else c.pending),
       Some(t))
    else if c.work != [] then
      var t := c.work[0];
      (c.(work := c.work[1..], started := c.started + [t], pending := if c.pending == Some(t) then None else c.pending),
       Some(t))
    else (c, None)
  }

  predicate IsAnswered(answers: seq<(nat, Reply)>, t: nat) {
    exists k :: 0 <= k < |answers| && answers[k].0 == t
  }

  function Answered(answers: seq<(nat, Reply)>, t: nat, r: Reply): seq<(nat, Reply)> {
    if IsAnswered(answers, t) then answers else answers + [(t, r)]
  }

  /** Tell every queued request in turn that the daemon stopped. */
  function AllStopped(answers: seq<(nat, Reply)>, queue: seq<nat>): seq<(nat, Reply)>
    decreases |queue|
  {
    if queue == [] then answers else AllStopped(Answered(answers, queue[0], Stopped), queue[1..])
  }

  function Closed(c: Channel): Channel {
    c.(serving := false, modes := [], work := [], pending := None,
       answers := AllStopped(AllStopped(c.answers, c.modes), c.work))
  }

  datatype Step =
    | Submit(kind: Kind) | Notify | Take | Finish(ticket: nat, reply: Reply) | SetRepairing(on: bool) | Close

  function Next(c: Channel, s: Step): Channel {
    match s
    case Submit(kind) => Submitted(c, kind).0
    case Notify => Notified(c)
    case Take => Taken(c).0
    case Finish(t, r) => if t in c.started then c.(answers := Answered(c.answers, t, r)) else c
    case SetRepairing(on) => c.(repairing := on)
    case Close => Closed(c)
  }

  function Run(c: Channel, steps: seq<Step>): Channel
    decreases |steps|
  {
    if steps == [] then c else Run(Next(c, steps[0]), steps[1..])
  }

  // ---------------------------------------------------------------- what every run keeps

  predicate Increasing(s: seq<nat>) {
    forall i, j :: 0 <= i < j < |s| ==> s[i] < s[j]
  }

  predicate Distinct(s: seq<nat>) {
    forall i, j :: 0 <= i < j < |s| ==> s[i] != s[j]
  }

  /** A queue holds tickets of its own kind, in the order they were asked for, and none
      that the daemon already has or anyone already answered. */
  predicate Proper(c: Channel, queue: seq<nat>, forModes: bool) {
    && Increasing(queue)
    && forall t :: t in queue ==> IsWaitingTicket(c, t, forModes)
  }

  predicate IsWaitingTicket(c: Channel, t: nat, forModes: bool) {
    && t < |c.kinds| && (c.kinds[t] == ModeRequest) == forModes
    && t !in c.started && !IsAnswered(c.answers, t)
  }

  /** At most one replan is queued, and it is the pending one. */
  predicate Coalesced(c: Channel) {
    && (c.pending.Some? ==> c.pending.value in c.work && IsReplan(c, c.pending.value))
    && forall t :: t in c.work && IsReplan(c, t) ==> c.pending == Some(t)
  }

  predicate IsReplan(c: Channel, t: nat) {
    t < |c.kinds| && c.kinds[t] == Replan
  }

  /** Requests of one class start in the order they were asked for. */
  predicate StartsInOrder(c: Channel) {
    forall i, j :: 0 <= i < j < |c.started| && SameClass(c, c.started[i], c.started[j]) ==> c.started[i] < c.started[j]
  }

  predicate SameClass(c: Channel, s: nat, t: nat) {
    s < |c.kinds| && t < |c.kinds| && (c.kinds[s] == ModeRequest) == (c.kinds[t] == ModeRequest)
  }

  /** Nobody waits for a run that started before they asked. */
  predicate WaitsAreFresh(c: Channel) {
    forall k :: 0 <= k < |c.waits| ==> IsFresh(c, c.waits[k])
  }

  predicate IsFresh(c: Channel, w: Wait) {
    w.ticket < |c.kinds| && w.asked <= |c.started| && w.ticket !in c.started[..w.asked]
  }

  predicate AnsweredOnce(c: Channel) {
    forall i, j :: 0 <= i < j < |c.answers| ==> c.answers[i].0 != c.answers[j].0
  }

  /** A ticket is queued, with the daemon, or already answered. */
  predicate Accounted(c: Channel) {
    forall t :: 0 <= t < |c.kinds| ==> t in c.modes || t in c.work || t in c.started || IsAnswered(c.answers, t)
  }

  /** Every ticket in the histories was given out. */
  predicate Known(c: Channel) {
    && (forall t :: t in c.started ==> t < |c.kinds|)
    && forall k :: 0 <= k < |c.answers| ==> c.answers[k].0 < |c.kinds|
  }

  predicate Queues(c: Channel) {
    Proper(c, c.modes, true) && Proper(c, c.work, false) && Coalesced(c)
  }

  predicate Starts(c: Channel) {
    Distinct(c.started) && StartsInOrder(c) && QueuedAfterStarted(c)
  }

  predicate Inv(c: Channel) {
    && Known(c) && Queues(c) && Starts(c)
    && WaitsAreFresh(c) && AnsweredOnce(c) && Accounted(c)
    && (!c.serving ==> c.modes == [] == c.work)
  }

  predicate QueuedAfterStarted(c: Channel) {
    && (forall s, t :: s in c.started && t in c.modes && SameClass(c, s, t) ==> s < t)
    && (forall s, t :: s in c.started && t in c.work && SameClass(c, s, t) ==> s < t)
  }

  lemma IncreasingAppend(s: seq<nat>, t: nat)
    requires Increasing(s) && forall x :: x in s ==> x < t
    ensures Increasing(s + [t])
  {
    forall i, j | 0 <= i < j < |s + [t]| ensures (s + [t])[i] < (s + [t])[j] {
      assert s[i] in s;
    }
  }

  lemma QueuedKeepsQueues(c: Channel, kind: Kind)
    requires Known(c) && Queues(c) && !(kind == Replan && c.pending.Some?)
    ensures Queues(Queued(c, kind)) && Known(Queued(c, kind))
  {
    var v, t := Queued(c, kind), |c.kinds|;
    IncreasingAppend(if kind == ModeRequest then c.modes else c.work, t);
    assert IsWaitingTicket(v, t, kind == ModeRequest);
    forall x | x in v.modes ensures IsWaitingTicket(v, x, true) {
      assert x in c.modes ==> IsWaitingTicket(c, x, true);
    }
    forall x | x in v.work ensures IsWaitingTicket(v, x, false) {
      assert x in c.work ==> IsWaitingTicket(c, x, false);
    }
    assert forall x :: x in c.work ==> IsWaitingTicket(c, x, false);
    if kind == Replan {
      assert v.work[|c.work|] == t;
    }
  }

  lemma QueuedKeepsStarts(c: Channel, kind: Kind)
    requires Known(c) && Starts(c)
    ensures Starts(Queued(c, kind))
  {
    var v := Queued(c, kind);
    forall i, j | 0 <= i < j < |v.started| && SameClass(v, v.started[i], v.started[j])
      ensures v.started[i] < v.started[j]
    {
      assert c.started[i] in c.started && c.started[j] in c.started;
      assert SameClass(c, c.started[i], c.started[j]);
    }
    forall s, x | s in v.started && x in v.modes && SameClass(v, s, x) ensures s < x {
      assert x in c.modes && x < |c.kinds| ==> SameClass(c, s, x);
    }
    forall s, x | s in v.started && x in v.work && SameClass(v, s, x) ensures s < x {
      assert x in c.work && x < |c.kinds| ==> SameClass(c, s, x);
    }
  }

  lemma QueuedIsAccounted(c: Channel, kind: Kind)
    requires Accounted(c)
    ensures Accounted(Queued(c, kind))
  {
    var v, t := Queued(c, kind), |c.kinds|;
    assert if kind == ModeRequest then v.modes[|c.modes|] == t else v.work[|c.work|] == t;
    forall x: nat | x < |v.kinds| ensures x in v.modes || x in v.work || x in v.started || IsAnswered(v.answers, x) {
      if x < t {
        assert x in c.modes || x in c.work || x in c.started || IsAnswered(c.answers, x);
      }
    }
  }

  lemma QueuedKeepsInv(c: Channel, kind: Kind)
    requires Inv(c) && c.serving && !(kind == Replan && c.pending.Some?)
    ensures Inv(Queued(c, kind)) && |c.kinds| !in c.started
  {
    QueuedKeepsQueues(c, kind);
    QueuedKeepsStarts(c, kind);
    QueuedIsAccounted(c, kind);
    var v := Queued(c, kind);
    forall k | 0 <= k < |v.waits| ensures IsFresh(v, v.waits[k]) {
      assert IsFresh(c, c.waits[k]);
    }
  }

  lemma WaitKeepsInv(c: Channel, t: nat)
    requires Inv(c) && t < |c.kinds| && t !in c.started
    ensures Inv(Waited(c, t))
  {
    var v := Waited(c, t);
    forall k | 0 <= k < |v.waits| ensures IsFresh(v, v.waits[k]) {
      if k < |c.waits| {
        assert IsFresh(c, c.waits[k]);
      }
    }
  }

  lemma SubmitKeepsInv(c: Channel, kind: Kind)
    requires Inv(c)
    ensures Inv(Submitted(c, kind).0)
  {
    if c.serving && !c.repairing {
      if kind == Replan && c.pending.Some? {
        assert IsWaitingTicket(c, c.pending.value, false);
        WaitKeepsInv(c, c.pending.value);
      } else if HasRoom(c, kind) {
        QueuedKeepsInv(c, kind);
        WaitKeepsInv(Queued(c, kind), |c.kinds|);
      }
    }
  }

  /** `v` is `c` with the head of one queue handed over. */
  predicate HandsOver(c: Channel, v: Channel, t: nat, rest: seq<nat>, forModes: bool) {
    && (if forModes then c.modes else c.work) == [t] + rest
    && v == c.(started := c.started + [t], modes := if forModes then rest else c.modes,
               work := if forModes then c.work else rest, pending := if c.pending == Some(t) then None else c.pending)
  }

  lemma HeadIsSmallest(t: nat, rest: seq<nat>)
    requires Increasing([t] + rest)
    ensures Increasing(rest) && t !in rest && forall x :: x in rest ==> x > t
  {
    var queue := [t] + rest;
    assert forall i :: 0 <= i < |rest| ==> rest[i] == queue[i + 1] && queue[0] < queue[i + 1];
  }

  /** A queue without the ticket handed over stays proper. */
  lemma ProperWithout(c: Channel, v: Channel, t: nat, queue: seq<nat>, forModes: bool)
    requires v.kinds == c.kinds && v.answers == c.answers && v.started == c.started + [t]
    requires Increasing(queue) && t !in queue && forall x :: x in queue ==> IsWaitingTicket(c, x, forModes)
    ensures Proper(v, queue, forModes)
  {
    forall x | x in queue ensures IsWaitingTicket(v, x, forModes) {
      assert IsWaitingTicket(c, x, forModes) && x != t;
    }
  }

  lemma HandOverKeepsQueues(c: Channel, v: Channel, t: nat, rest: seq<nat>, forModes: bool)
    requires Queues(c) && HandsOver(c, v, t, rest, forModes)
    ensures Queues(v)
  {
    HeadIsSmallest(t, rest);
    assert ([t] + rest)[0] == t;
    assert IsWaitingTicket(c, t, forModes);
    assert forall x :: x in rest ==> x in [t] + rest;
    if forModes {
      assert t in c.work ==> IsWaitingTicket(c, t, false);
      ProperWithout(c, v, t, rest, true);
      ProperWithout(c, v, t, c.work, false);
    } else {
      assert t in c.modes ==> IsWaitingTicket(c, t, true);
      ProperWithout(c, v, t, rest, false);
      ProperWithout(c, v, t, c.modes, true);
    }
    HandOverCoalesces(c, v, t, rest, forModes);
  }

  lemma HandOverCoalesces(c: Channel, v: Channel, t: nat, rest: seq<nat>, forModes: bool)
    requires Coalesced(c) && HandsOver(c, v, t, rest, forModes) && t !in rest
    requires forModes ==> t !in c.work
    ensures Coalesced(v)
  {
    forall x | x in v.work && IsReplan(v, x) ensures v.pending == Some(x) {
      assert x in c.work && IsReplan(c, x);
    }
  }

  lemma HandOverKeepsStarts(c: Channel, v: Channel, t: nat, rest: seq<nat>, forModes: bool)
    requires Known(c) && Queues(c) && Starts(c) && HandsOver(c, v, t, rest, forModes)
    ensures Starts(v) && Known(v)
  {
    HeadIsSmallest(t, rest);
    assert ([t] + rest)[0] == t;
    assert IsWaitingTicket(c, t, forModes);
    HandOverKeepsOrder(c, v, t, rest, forModes);
    HandOverKeepsAfter(c, v, t, rest, forModes);
  }

  lemma HandOverKeepsOrder(c: Channel, v: Channel, t: nat, rest: seq<nat>, forModes: bool)
    requires StartsInOrder(c) && QueuedAfterStarted(c) && HandsOver(c, v, t, rest, forModes)
    requires ([t] + rest)[0] == t
    ensures StartsInOrder(v)
  {
    forall i, j | 0 <= i < j < |v.started| && SameClass(v, v.started[i], v.started[j])
      ensures v.started[i] < v.started[j]
    {
      assert SameClass(c, v.started[i], v.started[j]);
      assert c.started[i] in c.started;
    }
  }

  lemma HandOverKeepsAfter(c: Channel, v: Channel, t: nat, rest: seq<nat>, forModes: bool)
    requires Queues(c) && QueuedAfterStarted(c) && HandsOver(c, v, t, rest, forModes)
    requires IsWaitingTicket(c, t, forModes) && forall x :: x in rest ==> x > t
    ensures QueuedAfterStarted(v)
  {
    forall s, x | s in v.started && x in v.modes && SameClass(v, s, x) ensures s < x {
      assert x in c.modes && IsWaitingTicket(c, x, true) && SameClass(c, s, x);
    }
    forall s, x | s in v.started && x in v.work && SameClass(v, s, x) ensures s < x {
      assert x in c.work && IsWaitingTicket(c, x, false) && SameClass(c, s, x);
    }
  }

  lemma HandOverKeepsRest(c: Channel, v: Channel, t: nat, rest: seq<nat>, forModes: bool)
    requires Accounted(c) && WaitsAreFresh(c) && HandsOver(c, v, t, rest, forModes)
    ensures Accounted(v) && WaitsAreFresh(v)
  {
    forall k | 0 <= k < |v.waits| ensures IsFresh(v, v.waits[k]) {
      assert IsFresh(c, c.waits[k]);
      assert v.started[..c.waits[k].asked] == c.started[..c.waits[k].asked];
    }
    assert v.started[|c.started|] == t;
    forall x: nat | x < |v.kinds| ensures x in v.modes || x in v.work || x in v.started || IsAnswered(v.answers, x) {
      assert x in c.modes || x in c.work || x in c.started || IsAnswered(c.answers, x);
    }
  }

  lemma TakeKeepsInv(c: Channel)
    requires Inv(c)
    ensures Inv(Taken(c).0)
  {
    if c.modes != [] || c.work != [] {
      var v, forModes := Taken(c).0, c.modes != [];
      var queue := if forModes then c.modes else c.work;
      var t, rest := queue[0], queue[1..];
      HandOverKeepsQueues(c, v, t, rest, forModes);
      HandOverKeepsStarts(c, v, t, rest, forModes);
      HandOverKeepsRest(c, v, t, rest, forModes);
    }
  }

  lemma AnswerKeepsInv(c: Channel, t: nat, r: Reply)
    requires Inv(c) && t in c.started
    ensures Inv(c.(answers := Answered(c.answers, t, r)))
  {
    var v := c.(answers := Answered(c.answers, t, r));
    AnsweredMore(c.answers, t, r);
    forall x | x in v.modes ensures IsWaitingTicket(v, x, true) {
      assert IsWaitingTicket(c, x, true);
    }
    forall x | x in v.work ensures IsWaitingTicket(v, x, false) {
      assert IsWaitingTicket(c, x, false);
    }
    forall k | 0 <= k < |v.waits| ensures IsFresh(v, v.waits[k]) {
      assert IsFresh(c, c.waits[k]);
    }
  }

  lemma AnsweredMore(answers: seq<(nat, Reply)>, t: nat, r: Reply)
    ensures forall x :: IsAnswered(Answered(answers, t, r), x) <==> (x == t || IsAnswered(answers, x))
  {
    var more := Answered(answers, t, r);
    if !IsAnswered(answers, t) {
      assert more[|answers|] == (t, r);
    }
    forall x ensures IsAnswered(more, x) <==> (x == t || IsAnswered(answers, x)) {
      if IsAnswered(answers, x) {
        var k :| 0 <= k < |answers| && answers[k].0 == x;
        assert more[k].0 == x;
      }
    }
  }

  /** One stop reply for each of a queue's tickets, in turn. */
  function Stops(queue: seq<nat>): seq<(nat, Reply)> {
    seq(|queue|, k requires 0 <= k < |queue| => (queue[k], Stopped))
  }

  lemma {:induction false} QueueIsStopped(answers: seq<(nat, Reply)>, queue: seq<nat>)
    requires Distinct(queue) && forall t :: t in queue ==> !IsAnswered(answers, t)
    ensures AllStopped(answers, queue) == answers + Stops(queue)
    decreases |queue|
  {
    if queue != [] {
      var t, rest := queue[0], queue[1..];
      assert queue == [t] + rest;
      AnsweredMore(answers, t, Stopped);
      QueueIsStopped(Answered(answers, t, Stopped), rest);
      assert Stops(queue) == [(t, Stopped)] + Stops(rest);
    }
  }

  lemma StopsAnswer(answers: seq<(nat, Reply)>, queue: seq<nat>)
    ensures forall x :: IsAnswered(answers + Stops(queue), x) <==> (IsAnswered(answers, x) || x in queue)
  {
    var all := answers + Stops(queue);
    forall x ensures IsAnswered(all, x) <==> (IsAnswered(answers, x) || x in queue) {
      if IsAnswered(answers, x) {
        var k :| 0 <= k < |answers| && answers[k].0 == x;
        assert all[k].0 == x;
      } else if x in queue {
        var k :| 0 <= k < |queue| && queue[k] == x;
        assert all[|answers| + k].0 == x;
      }
    }
  }

  /** Closing answers every queued request once, in turn, and nothing else. */
  lemma CloseAnswersTheQueues(c: Channel)
    requires Inv(c)
    ensures Closed(c).answers == c.answers + Stops(c.modes) + Stops(c.work)
    ensures forall x :: IsAnswered(Closed(c).answers, x) <==> (IsAnswered(c.answers, x) || x in c.modes || x in c.work)
  {
    forall t | t in c.modes ensures IsWaitingTicket(c, t, true) {
    }
    QueueIsStopped(c.answers, c.modes);
    StopsAnswer(c.answers, c.modes);
    forall t | t in c.work ensures !IsAnswered(c.answers + Stops(c.modes), t) {
      assert IsWaitingTicket(c, t, false);
      assert t in c.modes ==> IsWaitingTicket(c, t, true);
    }
    QueueIsStopped(c.answers + Stops(c.modes), c.work);
    StopsAnswer(c.answers + Stops(c.modes), c.work);
  }

  lemma CloseKeepsInv(c: Channel)
    requires Inv(c)
    ensures Inv(Closed(c))
  {
    var v := Closed(c);
    CloseAnswersTheQueues(c);
    forall k | 0 <= k < |v.waits| ensures IsFresh(v, v.waits[k]) {
      assert IsFresh(c, c.waits[k]);
    }
    ClosedOnce(c);
  }

  lemma ClosedOnce(c: Channel)
    requires Inv(c) && Closed(c).answers == c.answers + Stops(c.modes) + Stops(c.work)
    ensures AnsweredOnce(Closed(c)) && Known(Closed(c))
  {
    var a := c.answers + Stops(c.modes) + Stops(c.work);
    var m := |c.answers| + |c.modes|;
    forall k | 0 <= k < |a|
      ensures a[k].0 ==
        if k < |c.answers| then c.answers[k].0 else if k < m then c.modes[k - |c.answers|] else c.work[k - m]
    {
    }
    forall k | 0 <= k < |c.modes| ensures IsWaitingTicket(c, c.modes[k], true) {
      assert c.modes[k] in c.modes;
    }
    forall k | 0 <= k < |c.work| ensures IsWaitingTicket(c, c.work[k], false) {
      assert c.work[k] in c.work;
    }
  }

  lemma StepKeepsInv(c: Channel, s: Step)
    requires Inv(c)
    ensures Inv(Next(c, s))
  {
    match s
    case Submit(kind) => SubmitKeepsInv(c, kind);
    case Notify =>
      if c.serving && c.pending.None? {
        QueuedKeepsInv(c, Replan);
      }
    case Take => TakeKeepsInv(c);
    case Finish(t, r) =>
      if t in c.started {
        AnswerKeepsInv(c, t, r);
      }
    case SetRepairing(on) => RepairingKeepsInv(c, on);
    case Close => CloseKeepsInv(c);
  }

  lemma RepairingKeepsInv(c: Channel, on: bool)
    requires Inv(c)
    ensures Inv(c.(repairing := on))
  {
    var v := c.(repairing := on);
    forall k | 0 <= k < |v.waits| ensures IsFresh(v, v.waits[k]) {
      assert IsFresh(c, c.waits[k]);
    }
    forall x | x in v.modes ensures IsWaitingTicket(v, x, true) {
      assert IsWaitingTicket(c, x, true);
    }
    forall x | x in v.work ensures IsWaitingTicket(v, x, false) {
      assert IsWaitingTicket(c, x, false);
    }
  }

  lemma {:induction false} RunKeepsInv(c: Channel, steps: seq<Step>)
    requires Inv(c)
    ensures Inv(Run(c, steps))
    decreases |steps|
  {
    if steps != [] {
      StepKeepsInv(c, steps[0]);
      RunKeepsInv(Next(c, steps[0]), steps[1..]);
    }
  }

  // ---------------------------------------------------------------- the promises

  /** At most one replan is queued however many are asked for; nothing is handed over
      twice, and each class of request in the order it came. */
  lemma OneReplanQueued(repairing: bool, steps: seq<Step>)
    ensures
      var c := Run(New(repairing), steps);
      && Coalesced(c) && Distinct(c.started) && StartsInOrder(c) && AnsweredOnce(c)
  {
    RunKeepsInv(New(repairing), steps);
  }

  /** A caller's reply is that of a run handed over after it asked, joined or not. */
  lemma JoinersGetALaterRun(repairing: bool, steps: seq<Step>, w: Wait, k: nat)
    requires var c := Run(New(repairing), steps); w in c.waits && k < |c.started| && c.started[k] == w.ticket
    ensures k >= w.asked
  {
    RunKeepsInv(New(repairing), steps);
    var c := Run(New(repairing), steps);
    var m :| 0 <= m < |c.waits| && c.waits[m] == w;
    assert IsFresh(c, c.waits[m]);
    forall j | 0 <= j < w.asked ensures c.started[j] != w.ticket {
      assert c.started[..w.asked][j] == c.started[j];
    }
  }

  /** While a queued replan has not started, every further request for one joins it. */
  lemma {:induction false} BurstSharesOneRun(c: Channel, steps: seq<Step>, t: nat)
    requires Inv(c) && c.serving && c.pending == Some(t)
    requires forall k :: 0 <= k < |steps| ==> steps[k] != Close
    requires t !in Run(c, steps).started && !Run(c, steps).repairing
    ensures Submitted(Run(c, steps), Replan).1 == Waiting(t)
    decreases |steps|
  {
    if steps != [] {
      var v := Next(c, steps[0]);
      StepKeepsInv(c, steps[0]);
      StartedStays(v, steps[1..], t);
      BurstSharesOneRun(v, steps[1..], t);
    }
  }

  lemma {:induction false} StartedStays(c: Channel, steps: seq<Step>, t: nat)
    ensures t in c.started ==> t in Run(c, steps).started
    decreases |steps|
  {
    if steps != [] {
      StartedStays(Next(c, steps[0]), steps[1..], t);
    }
  }

  /** After closing, every request ever queued is answered or was handed to the daemon,
      and no later request is taken. */
  lemma NothingIsLeftBehind(c: Channel, t: nat)
    requires Inv(c) && t < |c.kinds|
    ensures IsAnswered(Closed(c).answers, t) || t in c.started
    ensures forall kind :: Submitted(Closed(c), kind) == (Closed(c), NotServing)
  {
    CloseKeepsInv(c);
    CloseAnswersTheQueues(c);
  }

  /** The queue a request of this kind would join is full. */
  predicate IsFull(c: Channel, kind: Kind) {
    if kind == ModeRequest then |c.modes| >= 8 else |c.work| >= 64
  }

  /** A new ticket at the end of its own queue, and nothing else but who is pending. */
  predicate Joins(v: Channel, c: Channel, kind: Kind) {
    var t := |c.kinds|;
    && v.kinds == c.kinds + [kind]
    && v.modes == (if kind == ModeRequest then c.modes + [t] else c.modes)
    && v.work == (if kind == ModeRequest then c.work else c.work + [t])
    && v.pending == (if kind == Replan then Some(t) else c.pending)
    && (v.serving, v.repairing, v.started, v.answers) == (c.serving, c.repairing, c.started, c.answers)
  }

  /** A request is refused while nothing serves, then while the settings need repair, then
      where its queue is full, and a refusal changes nothing. A replan with one pending waits
      for that one; any other request gets a ticket of its own, and waits for it. */
  lemma SubmitAnswersExactlyWhen(c: Channel, kind: Kind)
    ensures
      var (v, outcome) := Submitted(c, kind);
      var joins := kind == Replan && c.pending.Some?;
      && (outcome == NotServing <==> !c.serving)
      && (outcome == Repairing <==> c.serving && c.repairing)
      && (outcome == Full <==> c.serving && !c.repairing && !joins && IsFull(c, kind))
      && (!outcome.Waiting? ==> v == c)
      && (outcome.Waiting? ==> v.waits == c.waits + [Wait(outcome.ticket, |c.started|)])
      && (outcome.Waiting? && joins ==> outcome.ticket == c.pending.value && v == c.(waits := v.waits))
      && (outcome.Waiting? && !joins ==> outcome.ticket == |c.kinds| && Joins(v, c, kind))
  {
  }

  /** A change of settings queues a replan exactly while the channel serves healthy settings,
      none is pending and the queue has room; nobody waits for it. */
  lemma NotifyQueuesExactlyWhen(c: Channel)
    ensures
      var v := Notified(c);
      if c.serving && !c.repairing && c.pending.None? && !IsFull(c, Replan)
      then Joins(v, c, Replan) && v.waits == c.waits
      else v == c
  {
  }

  /** A run that ends answers its own ticket, once; the repair flag is only itself. */
  lemma FinishAnswersOnce(c: Channel, t: nat, r: Reply, on: bool)
    ensures
      var v := Next(c, Finish(t, r));
      v == c.(answers := if t in c.started && !IsAnswered(c.answers, t) then c.answers + [(t, r)] else c.answers)
    ensures Next(c, SetRepairing(on)) == c.(repairing := on)
  {
  }

  /** However requests come and go, neither queue outgrows its limit. */
  lemma {:induction false} QueuesStayBounded(c: Channel, steps: seq<Step>)
    requires |c.modes| <= 8 && |c.work| <= 64
    ensures var v := Run(c, steps); |v.modes| <= 8 && |v.work| <= 64
    decreases |steps|
  {
    if steps != [] {
      QueuesStayBounded(Next(c, steps[0]), steps[1..]);
    }
  }

  // ---------------------------------------------------------------- the object

  class DaemonChannel {
    var serving: bool
    var repairing: bool
    var modes: seq<nat>
    var work: seq<nat>
    var pending: Option<nat>
    var kinds: seq<Kind>
    var answers: seq<(nat, Reply)>
    ghost var started: seq<nat>
    ghost var waits: seq<Wait>

    ghost function View(): Channel
      reads this
    {
      Channel(serving, repairing, modes, work, pending, kinds, started, answers, waits)
    }

    constructor (repairing: bool)
      ensures View() == New(repairing) && Inv(View())
    {
      serving, this.repairing, modes, work, pending, kinds := true, repairing, [], [], None, [];
      started, answers, waits := [], [], [];
    }

    method Put(kind: Kind) returns (ticket: Option<nat>)
      modifies this
      ensures View() == if HasRoom(old(View()), kind) then Queued(old(View()), kind) else old(View())
      ensures ticket == if HasRoom(old(View()), kind) then Some(|old(kinds)|) else None
    {
      if (if kind == ModeRequest then |modes| >= MODE_LIMIT else |work| >= WORK_LIMIT) {
        return None;
      }
      var t := |kinds|;
      kinds := kinds + [kind];
      if kind == ModeRequest {
        modes := modes + [t];
      } else {
        work := work + [t];
      }
      if kind == Replan {
        pending := Some(t);
      }
      ticket := Some(t);
    }

    method Submit(kind: Kind) returns (outcome: Outcome)
      requires Inv(View())
      modifies this
      ensures (View(), outcome) == Submitted(old(View()), kind) && Inv(View())
    {
      SubmitKeepsInv(View(), kind);
      if !serving {
        return NotServing;
      }
      if repairing {
        return Repairing;
      }
      if kind == Replan && pending.Some? {
        waits := waits + [Wait(pending.value, |started|)];
        return Waiting(pending.value);
      }
      var ticket := Put(kind);
      if ticket.None? {
        return Full;
      }
      waits := waits + [Wait(ticket.value, |started|)];
      outcome := Waiting(ticket.value);
    }

    method RequestReplan()
      requires Inv(View())
      modifies this
      ensures View() == Notified(old(View())) && Inv(View())
    {
      StepKeepsInv(View(), Notify);
      if serving && !repairing && pending.None? {
        var _ := Put(Replan);
      }
    }

    method NextRequest() returns (ticket: Option<nat>)
      requires Inv(View())
      modifies this
      ensures (View(), ticket) == Taken(old(View())) && Inv(View())
    {
      TakeKeepsInv(View());
      if modes != [] {
        ticket, modes := Some(modes[0]), modes[1..];
      } else if work != [] {
        ticket, work := Some(work[0]), work[1..];
      } else {
        return None;
      }
      if pending == ticket {
        pending := None;
      }
      started := started + [ticket.value];
    }

    method Stop(queue: seq<nat>)
      modifies this`answers
      ensures answers == AllStopped(old(answers), queue)
    {
      var left := queue;
      while left != []
        invariant AllStopped(answers, left) == AllStopped(old(answers), queue)
        decreases |left|
      {
        var t := left[0];
        left := left[1..];
        if !IsAnswered(answers, t) {
          answers := answers + [(t, Stopped)];
        }
      }
    }

    method Close()
      requires Inv(View())
      modifies this
      ensures View() == Closed(old(View())) && Inv(View())
      ensures answers == old(answers) + Stops(old(modes)) + Stops(old(work))
    {
      CloseKeepsInv(View());
      CloseAnswersTheQueues(View());
      serving := false;
      Stop(modes);
      Stop(work);
      modes, work, pending := [], [], None;
    }
  }
}
