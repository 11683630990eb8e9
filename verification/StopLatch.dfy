/** The durable stop: a trip latches an event, and a latched event can neither stay live
    nor be armed again before the latched window has ended, as long as the store that holds
    the latch is not replaced.

    Instants are integers. The transition log's rows are not part of this module. */
module StopLatch {
  import opened Basics
  import opened SiteAuthority
  import opened StoreReplacement

  datatype Event = Event(exports: bool, start: int, end: int)

  datatype Phase = Armed | Active | Preserved | StopPending | Cleared | Unclear

  datatype Record = Record(
    inverter: string, event: Event, windowStart: int, windowEnd: int, storeId: nat, epoch: nat,
    supervision: nat, phase: Phase)

  datatype Latch = Latch(inverter: string, event: Event, windowEnd: int, epoch: nat)

  datatype Supervision = Supervision(inverter: string, id: nat, event: Event, endsAt: int)

  /** `permits` is the mode half of the export permission: optimise, with no manual session
      and no other transition. `settled` is observe with nothing held and nothing in progress. */
  datatype Authority = Authority(
    storeId: nat, epoch: nat, permits: bool, settled: bool, fallback: bool,
    records: seq<Record>, supervisions: seq<Supervision>, latches: seq<Latch>)

  /** The record a repair or a handover starts from: no latch is carried over. */
  function NewAuthority(id: nat): Authority {
    Authority(id, 1, false, true, false, [], [], [])
  }

  predicate IsLatched(latches: seq<Latch>, e: Event) {
    exists k :: 0 <= k < |latches| && latches[k].event == e
  }

  predicate Confirms(row: Supervision, r: Record) {
    row.id == r.supervision && row.event == r.event
  }

  predicate IsLive(s: Authority, r: Record, now: int) {
    && r.phase in {Armed, Active, Preserved}
    && r.epoch == s.epoch && r.storeId == s.storeId
    && r.event.end > now && !s.fallback
    && !IsLatched(s.latches, r.event)
    && exists k :: 0 <= k < |s.supervisions| && Confirms(s.supervisions[k], r)
  }

  function Latest(records: seq<Record>, inverter: string): Option<Record>
    decreases |records|
  {
    if records == [] then None
    else if records[|records| - 1].inverter == inverter then Some(records[|records| - 1])
    else Latest(records[..|records| - 1], inverter)
  }

  /** `verified` holds the inverters armed or re-verified by this process: a record that
      was only loaded from disk is not live. */
  function LiveRecord(s: Authority, verified: set<string>, inverter: string, now: int): (r: Option<Record>)
    ensures r.Some? ==> IsLive(s, r.value, now)
  {
    var r := Latest(s.records, inverter);
    if r.None? || !IsLive(s, r.value, now) || inverter !in verified then None else r
  }

  datatype Reason = Mode | NotOwner | Tripped | NotSupervised

  predicate Supervised(s: Authority, inverter: string, e: Event, now: int) {
    exists k ::
      0 <= k < |s.supervisions| && LastSupervision(s.supervisions, k, inverter, e) && s.supervisions[k].endsAt > now
  }

  predicate LastSupervision(rows: seq<Supervision>, k: nat, inverter: string, e: Event)
    requires k < |rows|
  {
    && rows[k].inverter == inverter && rows[k].event == e
    && forall j :: k < j < |rows| ==> rows[j].inverter != inverter || rows[j].event != e
  }

  /** Permission for one export write; `owned` stands for the ownership and device checks. */
  function WriteReason(s: Authority, inverter: string, owned: bool, e: Event, now: int): Option<Reason> {
    if !s.permits || s.fallback then Some(Mode)
    else if !owned then Some(NotOwner)
    else if IsLatched(s.latches, e) then Some(Tripped)
    else if !Supervised(s, inverter, e, now) then Some(NotSupervised)
    else None
  }

  /** One write is permitted exactly in an undisturbed optimise mode, by the owner, for an
      event without a latch on any inverter and with an unexpired supervision of its own. */
  lemma PermittedExactlyWhen(s: Authority, inverter: string, owned: bool, e: Event, now: int)
    ensures WriteReason(s, inverter, owned, e, now).None? <==>
      s.permits && !s.fallback && owned && !IsLatched(s.latches, e) && Supervised(s, inverter, e, now)
    ensures WriteReason(s, inverter, owned, e, now) == Some(Tripped) ==> IsLatched(s.latches, e)
  {
  }

  // ---------------------------------------------------------------- the trip

  /** `memory` is the published state, None once a save was not verified. */
  datatype World = World(
    disk: Authority, marker: SiteMarker, memory: Option<Authority>, saveFailed: bool, verified: set<string>)

  function KeptIn(w: World): Kept<Authority> {
    Kept(w.disk, w.disk.storeId, w.marker, w.memory, w.saveFailed)
  }

  function Keeping(w: World, k: Kept<Authority>): World {
    w.(disk := k.record, marker := k.marker, memory := k.memory, saveFailed := k.saveFailed)
  }

  predicate Loads(w: World) {
    Standing(w.disk.storeId, w.marker).StatusOk?
  }

  /** Save a candidate built from the published state. */
  function Saved(w: World, c: Authority, f: WriteFault): World
    requires w.memory.Some?
  {
    if !Loads(w) || w.disk.storeId != w.memory.value.storeId || c.storeId != w.disk.storeId then w.(memory := None)
    else
      w.(disk := if f == FailsBefore then w.disk else c, memory := if f == Clean then Some(c) else None,
         saveFailed := f != Clean)
  }

  /** The live records of a connection's members inside their windows. */
  function Watching(s: Authority, verified: set<string>, members: seq<string>, now: int): seq<Record>
    decreases |members|
  {
    if members == [] then []
    else
      var rest := Watching(s, verified, members[1..], now);
      var r := LiveRecord(s, verified, members[0], now);
      if r.Some? && r.value.windowStart <= now < r.value.windowEnd then [r.value] + rest else rest
  }

  predicate HasLatch(latches: seq<Latch>, r: Record) {
    exists k :: 0 <= k < |latches| && latches[k].inverter == r.inverter && latches[k].event == r.event
  }

  function Latched(latches: seq<Latch>, records: seq<Record>, epoch: nat): seq<Latch>
    decreases |records|
  {
    if records == [] then latches
    else
      var r := records[0];
      Latched(if HasLatch(latches, r) then latches else latches + [Latch(r.inverter, r.event, r.windowEnd, epoch)],
              records[1..], epoch)
  }

  function Stopping(rows: seq<Record>, records: seq<Record>): (r: seq<Record>)
    ensures |r| == |rows|
  {
    seq(|rows|, k requires 0 <= k < |rows| =>
      if rows[k] in records then rows[k].(phase := StopPending) else rows[k])
  }

  function Unsupervised(rows: seq<Supervision>, members: seq<string>): seq<Supervision>
    decreases |rows|
  {
    if rows == [] then []
    else (if rows[0].inverter in members then [] else [rows[0]]) + Unsupervised(rows[1..], members)
  }

  function Trip(s: Authority, verified: set<string>, members: seq<string>, now: int): Authority {
    var records := Watching(s, verified, members, now);
    s.(latches := Latched(s.latches, records, s.epoch), supervisions := Unsupervised(s.supervisions, members),
       records := Stopping(s.records, records))
  }

  method LatchAll(latches: seq<Latch>, records: seq<Record>, epoch: nat) returns (all: seq<Latch>)
    ensures all == Latched(latches, records, epoch)
  {
    all := latches;
    var k := 0;
    while k < |records|
      invariant k <= |records|
      invariant Latched(all, records[k..], epoch) == Latched(latches, records, epoch)
    {
      assert records[k..][1..] == records[k + 1..];
      var r := records[k];
      if !HasLatch(all, r) {
        all := all + [Latch(r.inverter, r.event, r.windowEnd, epoch)];
      }
      k := k + 1;
    }
  }

  function KeptLatches(latches: seq<Latch>, now: int): seq<Latch>
    decreases |latches|
  {
    if latches == [] then []
    else (if latches[0].windowEnd > now then [latches[0]] else []) + KeptLatches(latches[1..], now)
  }

  function KeptSupervisions(rows: seq<Supervision>, now: int): seq<Supervision>
    decreases |rows|
  {
    if rows == [] then []
    else (if rows[0].endsAt > now then [rows[0]] else []) + KeptSupervisions(rows[1..], now)
  }

  function Without(rows: seq<Record>, inverter: string): seq<Record>
    decreases |rows|
  {
    if rows == [] then []
    else (if rows[0].inverter == inverter then [] else [rows[0]]) + Without(rows[1..], inverter)
  }

  // ---------------------------------------------------------------- runs

  /** Everything that saves the state around a trip. `Elsewhere` is any change of mode,
      epoch or fallback; `Fence` is a failed save of the owner record, published here; the
      last three replace the whole store, or prepare it. */
  datatype Step =
    | TripConnection(members: seq<string>, now: int, f: WriteFault)
    | Expire(now: int, f: WriteFault)
    | SaveRecord(inverter: string, record: Option<Record>, f: WriteFault)
    | Supervise(rows: seq<Supervision>, f: WriteFault)
    | Elsewhere(epoch: nat, permits: bool, settled: bool, fallback: bool, f: WriteFault)
    | Reverify(inverter: string)
    | Restart
    | Fence
    | Confirm(id: nat, f1: WriteFault, f2: WriteFault)
    | Retire(f: WriteFault)
    | Initialise(id: nat, f1: WriteFault, f2: WriteFault)

  function Next(w: World, x: Step): World {
    match x
    case Restart => Keeping(w, Restarted(KeptIn(w))).(verified := {})
    case Fence => w.(memory := None, saveFailed := true)
    case Confirm(id, f1, f2) => Keeping(w, Confirmed(KeptIn(w), NewAuthority(id), id, f1, f2))
    case Retire(f) => Keeping(w, Retired(KeptIn(w), w.disk.settled, f))
    case Initialise(id, f1, f2) => Keeping(w, Initialised(KeptIn(w), NewAuthority(id), id, f1, f2))
    case _ => if w.memory.None? then w else Updated(w, x)
  }

  predicate WorksOnMemory(x: Step) {
    !(x.Restart? || x.Fence? || x.Confirm? || x.Retire? || x.Initialise?)
  }

  /** The steps that build on the published state. */
  function Updated(w: World, x: Step): World
    requires w.memory.Some? && WorksOnMemory(x)
  {
    var s := w.memory.value;
    match x
    case TripConnection(members, now, f) =>
      if Watching(s, w.verified, members, now) == [] then w else Saved(w, Trip(s, w.verified, members, now), f)
    case Expire(now, f) =>
      var kept, latches := KeptSupervisions(s.supervisions, now), KeptLatches(s.latches, now);
      if |kept| == |s.supervisions| && |latches| == |s.latches| then w
      else Saved(w, s.(supervisions := kept, latches := latches), f)
    case SaveRecord(inverter, record, f) =>
      var v := if record.Some? && record.value.phase != Cleared then w.(verified := w.verified + {inverter}) else w;
      Saved(v, s.(records := Without(s.records, inverter) + (if record.Some? then [record.value] else [])), f)
    case Supervise(rows, f) => Saved(w, s.(supervisions := rows), f)
    case Elsewhere(epoch, permits, settled, fallback, f) =>
      Saved(w, s.(epoch := epoch, permits := permits, settled := settled, fallback := fallback), f)
    case Reverify(inverter) => w.(verified := w.verified + {inverter})
  }

  function Run(w: World, steps: seq<Step>): World
    decreases |steps|
  {
    if steps == [] then w else Run(Next(w, steps[0]), steps[1..])
  }

  // ---------------------------------------------------------------- what a latch guarantees

  predicate HoldsUntil(latches: seq<Latch>, e: Event, end: int) {
    exists k :: 0 <= k < |latches| && latches[k].event == e && latches[k].windowEnd == end
  }

  predicate Before(x: Step, end: int) {
    x.Expire? ==> x.now < end
  }

  lemma {:induction false} LatchingKeeps(latches: seq<Latch>, records: seq<Record>, epoch: nat, e: Event, end: int)
    requires HoldsUntil(latches, e, end)
    ensures HoldsUntil(Latched(latches, records, epoch), e, end)
    decreases |records|
  {
    if records != [] {
      var r := records[0];
      var k :| 0 <= k < |latches| && latches[k].event == e && latches[k].windowEnd == end;
      var next := if HasLatch(latches, r) then latches else latches + [Latch(r.inverter, r.event, r.windowEnd, epoch)];
      assert next[k].event == e && next[k].windowEnd == end;
      LatchingKeeps(next, records[1..], epoch, e, end);
    }
  }

  lemma {:induction false} ExpiryKeeps(latches: seq<Latch>, now: int, e: Event, end: int)
    requires HoldsUntil(latches, e, end) && now < end
    ensures HoldsUntil(KeptLatches(latches, now), e, end)
    decreases |latches|
  {
    var k :| 0 <= k < |latches| && latches[k].event == e && latches[k].windowEnd == end;
    var kept := KeptLatches(latches[1..], now);
    if k == 0 {
      assert ([latches[0]] + kept)[0].event == e;
    } else {
      assert latches[1..][k - 1].event == e && latches[1..][k - 1].windowEnd == end;
      ExpiryKeeps(latches[1..], now, e, end);
      var j :| 0 <= j < |kept| && kept[j].event == e && kept[j].windowEnd == end;
      var first := if latches[0].windowEnd > now then [latches[0]] else [];
      assert (first + kept)[|first| + j] == kept[j];
    }
  }

  lemma {:induction false} KeptAll(latches: seq<Latch>, now: int)
    ensures |KeptLatches(latches, now)| <= |latches|
    ensures |KeptLatches(latches, now)| == |latches| ==> KeptLatches(latches, now) == latches
    decreases |latches|
  {
    if latches != [] {
      KeptAll(latches[1..], now);
    }
  }

  /** What is published is what the store would load. */
  predicate Consistent(w: World) {
    w.memory.Some? ==> w.memory.value == w.disk && Loads(w) && !w.saveFailed
  }

  predicate LatchStands(w: World, e: Event, end: int) {
    HoldsUntil(w.disk.latches, e, end) && Consistent(w)
  }

  /** The step puts a new record, and so a new identity, over the store. */
  predicate Replaces(w: World, x: Step) {
    || (x.Confirm? && MayConfirm(w.disk.storeId, w.marker, w.saveFailed) && x.f1 != FailsBefore)
    || (x.Initialise? && MayInitialise(w.disk.storeId, w.marker, w.saveFailed) && x.f1 != FailsBefore)
  }

  predicate StoreReplaced(w: World, steps: seq<Step>)
    decreases |steps|
  {
    steps != [] && (Replaces(w, steps[0]) || StoreReplaced(Next(w, steps[0]), steps[1..]))
  }

  /** A new identity is new. */
  predicate IsNew(x: Step, id: nat) {
    (x.Confirm? ==> x.id != id) && (x.Initialise? ==> x.id != id)
  }

  lemma StepStaysConsistent(w: World, x: Step)
    requires Consistent(w)
    ensures Consistent(Next(w, x))
    ensures !Replaces(w, x) ==> Next(w, x).disk.storeId == w.disk.storeId
    ensures Replaces(w, x) ==> Next(w, x).disk == NewAuthority(x.id)
  {
  }

  lemma StepKeepsLatch(w: World, x: Step, e: Event, end: int)
    requires LatchStands(w, e, end) && Before(x, end) && !Replaces(w, x)
    ensures LatchStands(Next(w, x), e, end)
  {
    match x
    case TripConnection(members, now, f) =>
      if w.memory.Some? {
        var s := w.memory.value;
        LatchingKeeps(s.latches, Watching(s, w.verified, members, now), s.epoch, e, end);
      }
    case Expire(now, f) =>
      if w.memory.Some? {
        ExpiryKeeps(w.memory.value.latches, now, e, end);
      }
    case _ =>
  }

  lemma {:induction false} RunKeepsLatch(w: World, steps: seq<Step>, e: Event, end: int)
    requires LatchStands(w, e, end) && forall k :: 0 <= k < |steps| ==> Before(steps[k], end)
    requires !StoreReplaced(w, steps)
    ensures LatchStands(Run(w, steps), e, end)
    decreases |steps|
  {
    if steps != [] {
      StepKeepsLatch(w, steps[0], e, end);
      RunKeepsLatch(Next(w, steps[0]), steps[1..], e, end);
    }
  }

  /** Nothing about a latched event can be used: no record of it is live on any inverter,
      and no export write for it is permitted. */
  predicate Refused(w: World, e: Event, inverter: string, owned: bool, now: int) {
    w.memory.Some? ==>
      var s := w.memory.value;
      var r := LiveRecord(s, w.verified, inverter, now);
      (r.Some? ==> r.value.event != e) && WriteReason(s, inverter, owned, e, now).Some?
  }

  /** Once latched, an event stays refused through new supervisions, new records, mode
      changes, failed saves, retirement and restarts, until an expiry at the latched window's
      end, as long as the store is not replaced. */
  lemma RefusedUntilWindowEnd(w: World, steps: seq<Step>, e: Event, end: int, inverter: string, owned: bool, now: int)
    requires LatchStands(w, e, end) && forall k :: 0 <= k < |steps| ==> Before(steps[k], end)
    requires !StoreReplaced(w, steps)
    ensures Refused(Run(w, steps), e, inverter, owned, now)
  {
    RunKeepsLatch(w, steps, e, end);
    StandingLatchRefuses(Run(w, steps), e, end, inverter, owned, now);
  }

  lemma StandingLatchRefuses(w: World, e: Event, end: int, inverter: string, owned: bool, now: int)
    requires LatchStands(w, e, end)
    ensures Refused(w, e, inverter, owned, now)
  {
    if w.memory.Some? {
      var k :| 0 <= k < |w.disk.latches| && w.disk.latches[k].event == e && w.disk.latches[k].windowEnd == end;
      assert IsLatched(w.memory.value.latches, e);
    }
  }

  lemma {:induction false} IdentityChangesWithTheStore(w: World, steps: seq<Step>, id: nat)
    requires Consistent(w) && forall k :: 0 <= k < |steps| ==> IsNew(steps[k], id)
    ensures Consistent(Run(w, steps))
    ensures w.disk.storeId != id ==> Run(w, steps).disk.storeId != id
    ensures w.disk.storeId == id ==> (Run(w, steps).disk.storeId == id <==> !StoreReplaced(w, steps))
    decreases |steps|
  {
    if steps != [] {
      StepStaysConsistent(w, steps[0]);
      IdentityChangesWithTheStore(Next(w, steps[0]), steps[1..], id);
    }
  }

  /** Over every run from a standing latch the disk keeps the identity it was latched under
      exactly when the store is not replaced, and then the latch stands and refuses. */
  lemma StandsExactlyUntilReplaced(w: World, steps: seq<Step>, e: Event, end: int)
    requires LatchStands(w, e, end) && forall k :: 0 <= k < |steps| ==> Before(steps[k], end)
    requires forall k :: 0 <= k < |steps| ==> IsNew(steps[k], w.disk.storeId)
    ensures Run(w, steps).disk.storeId == w.disk.storeId <==> !StoreReplaced(w, steps)
    ensures Run(w, steps).disk.storeId == w.disk.storeId ==> LatchStands(Run(w, steps), e, end)
    ensures Consistent(Run(w, steps))
  {
    IdentityChangesWithTheStore(w, steps, w.disk.storeId);
    if !StoreReplaced(w, steps) {
      RunKeepsLatch(w, steps, e, end);
    }
  }

  // ---------------------------------------------------------------- who may write again

  /** A step that no repair or handover takes, and no later than now. */
  predicate IsOrdinary(x: Step, now: int) {
    !x.Confirm? && !x.Initialise? && (x.Expire? ==> x.now <= now)
  }

  /** Ordinary steps can lead to a permitted write of the event. */
  ghost predicate Regains(w: World, e: Event, inverter: string, now: int) {
    exists steps :: PermitsAfter(w, steps, e, inverter, now)
  }

  predicate PermitsAfter(w: World, steps: seq<Step>, e: Event, inverter: string, now: int) {
    && (forall k :: 0 <= k < |steps| ==> IsOrdinary(steps[k], now))
    && var v := Run(w, steps);
       v.memory.Some? && WriteReason(v.memory.value, inverter, true, e, now).None?
  }

  predicate LatchesEnded(latches: seq<Latch>, e: Event, now: int) {
    forall k :: 0 <= k < |latches| && latches[k].event == e ==> latches[k].windowEnd <= now
  }

  lemma {:induction false} OrdinaryStepsKeepTheStore(w: World, steps: seq<Step>, now: int)
    requires Consistent(w) && forall k :: 0 <= k < |steps| ==> IsOrdinary(steps[k], now)
    ensures !StoreReplaced(w, steps) && Consistent(Run(w, steps)) && (!Loads(w) ==> !Loads(Run(w, steps)))
    decreases |steps|
  {
    if steps != [] {
      StepStaysConsistent(w, steps[0]);
      OrdinaryStepsKeepTheStore(Next(w, steps[0]), steps[1..], now);
    }
  }

  /** A new supervision in a permitting mode, after an expiry. */
  function Resuming(w: World, e: Event, inverter: string, now: int): seq<Step> {
    [Restart, Expire(now, Clean), Elsewhere(w.disk.epoch + 1, true, false, false, Clean),
     Supervise([Supervision(inverter, 0, e, now + 1)], Clean)]
  }

  lemma FourSteps(w: World, a: Step, b: Step, c: Step, d: Step)
    ensures Run(w, [a, b, c, d]) == Next(Next(Next(Next(w, a), b), c), d)
  {
    assert [a, b, c, d][1..] == [b, c, d] && [b, c, d][1..] == [c, d] && [c, d][1..] == [d] && [d][1..] == [];
    var v := Next(Next(w, a), b);
    assert Run(w, [a, b, c, d]) == Run(Next(w, a), [b, c, d]) == Run(v, [c, d]);
    assert Run(v, [c, d]) == Run(Next(v, c), [d]) == Run(Next(Next(v, c), d), []);
  }

  lemma ResumingPermits(w: World, e: Event, inverter: string, now: int)
    requires Loads(w) && LatchesEnded(w.disk.latches, e, now)
    ensures PermitsAfter(w, Resuming(w, e, inverter, now), e, inverter, now)
  {
    var steps := Resuming(w, e, inverter, now);
    FourSteps(w, steps[0], steps[1], steps[2], steps[3]);
    ExpiryLeaves(w.disk.latches, now, e);
    KeptAll(w.disk.latches, now);
    KeptAllSupervisions(w.disk.supervisions, now);
    var expired := Next(Next(w, steps[0]), steps[1]);
    assert expired.memory == Some(expired.disk) && !IsLatched(expired.disk.latches, e);
    var v := Run(w, steps);
    assert LastSupervision(v.disk.supervisions, 0, inverter, e);
  }

  lemma {:induction false} KeptAllSupervisions(rows: seq<Supervision>, now: int)
    ensures |KeptSupervisions(rows, now)| <= |rows|
    decreases |rows|
  {
    if rows != [] {
      KeptAllSupervisions(rows[1..], now);
    }
  }

  /** Without a replacement an event can be written again, by any inverter with a new
      supervision, exactly when the store loads and every latch of the event has ended. */
  lemma RegainsExactlyWhen(w: World, e: Event, inverter: string, now: int)
    requires Consistent(w)
    ensures Regains(w, e, inverter, now) <==> Loads(w) && LatchesEnded(w.disk.latches, e, now)
  {
    if Loads(w) && LatchesEnded(w.disk.latches, e, now) {
      ResumingPermits(w, e, inverter, now);
    } else {
      forall steps ensures !PermitsAfter(w, steps, e, inverter, now) {
        if forall k :: 0 <= k < |steps| ==> IsOrdinary(steps[k], now) {
          NeverPermits(w, steps, e, inverter, now);
        }
      }
    }
  }

  lemma NeverPermits(w: World, steps: seq<Step>, e: Event, inverter: string, now: int)
    requires Consistent(w) && forall k :: 0 <= k < |steps| ==> IsOrdinary(steps[k], now)
    requires !(Loads(w) && LatchesEnded(w.disk.latches, e, now))
    ensures var v := Run(w, steps); v.memory.Some? ==> WriteReason(v.memory.value, inverter, true, e, now).Some?
  {
    OrdinaryStepsKeepTheStore(w, steps, now);
    if Loads(w) {
      var k :| 0 <= k < |w.disk.latches| && w.disk.latches[k].event == e && w.disk.latches[k].windowEnd > now;
      RefusedUntilWindowEnd(w, steps, e, w.disk.latches[k].windowEnd, inverter, true, now);
    }
  }

  /** Over every run from a standing latch, before its window's end: the event can be
      written again if and only if the store was replaced by one that loads and holds no
      unended latch of its own. */
  lemma WritableAgainExactlyWhen(w: World, steps: seq<Step>, e: Event, end: int, inverter: string, now: int)
    requires LatchStands(w, e, end) && now < end && forall k :: 0 <= k < |steps| ==> Before(steps[k], end)
    requires forall k :: 0 <= k < |steps| ==> IsNew(steps[k], w.disk.storeId)
    ensures
      var v := Run(w, steps);
      Regains(v, e, inverter, now) <==>
        StoreReplaced(w, steps) && Loads(v) && LatchesEnded(v.disk.latches, e, now)
  {
    var v := Run(w, steps);
    StandsExactlyUntilReplaced(w, steps, e, end);
    RegainsExactlyWhen(v, e, inverter, now);
  }

  /** A replacement that completes, or stops with its marker written, carries no latch over:
      every event can be written again at once, and one that stops before leaves no
      authority at all until it is repeated. */
  lemma ReplacementReleasesEveryEvent(w: World, x: Step, e: Event, inverter: string, now: int)
    requires Consistent(w) && Replaces(w, x) && IsNew(x, w.disk.storeId) && w.marker != Bound(x.id)
    ensures Regains(Next(w, x), e, inverter, now) <==> x.f1 == Clean && x.f2 != FailsBefore
  {
    StepStaysConsistent(w, x);
    RegainsExactlyWhen(Next(w, x), e, inverter, now);
  }

  lemma {:induction false} WatchedAreLive(
      s: Authority, verified: set<string>, members: seq<string>, now: int, r: Record)
    requires r in Watching(s, verified, members, now)
    ensures IsLive(s, r, now) && r.windowStart <= now < r.windowEnd
    decreases |members|
  {
    var rest := Watching(s, verified, members[1..], now);
    if r in rest {
      WatchedAreLive(s, verified, members[1..], now, r);
    }
  }

  /** Latching adds a latch for every record that has none, with that record's window. */
  lemma {:induction false} EachIsLatched(latches: seq<Latch>, records: seq<Record>, epoch: nat, r: Record)
    requires r in records
    requires forall k :: 0 <= k < |latches| && latches[k].event == r.event && latches[k].inverter == r.inverter ==>
      latches[k].windowEnd == r.windowEnd
    requires forall x :: x in records && x.inverter == r.inverter && x.event == r.event ==> x.windowEnd == r.windowEnd
    ensures HoldsUntil(Latched(latches, records, epoch), r.event, r.windowEnd)
    decreases |records|
  {
    var x, rest := records[0], records[1..];
    assert records == [x] + rest;
    var next := if HasLatch(latches, x) then latches else latches + [Latch(x.inverter, x.event, x.windowEnd, epoch)];
    if r == x {
      if HasLatch(latches, x) {
        var k :| 0 <= k < |latches| && latches[k].inverter == x.inverter && latches[k].event == x.event;
        assert HoldsUntil(next, r.event, r.windowEnd);
      } else {
        assert next[|latches|].event == r.event && next[|latches|].windowEnd == r.windowEnd;
      }
      LatchingKeeps(next, rest, epoch, r.event, r.windowEnd);
    } else {
      EachIsLatched(next, rest, epoch, r);
    }
  }

  lemma {:induction false} LatestIsOfInverter(records: seq<Record>, inverter: string)
    ensures Latest(records, inverter).Some? ==> Latest(records, inverter).value.inverter == inverter
    decreases |records|
  {
    if records != [] {
      LatestIsOfInverter(records[..|records| - 1], inverter);
    }
  }

  lemma {:induction false} OneWatchedPerInverter(
      s: Authority, verified: set<string>, members: seq<string>, now: int, r: Record)
    requires r in Watching(s, verified, members, now)
    ensures Some(r) == LiveRecord(s, verified, r.inverter, now)
    decreases |members|
  {
    LatestIsOfInverter(s.records, members[0]);
    if r in Watching(s, verified, members[1..], now) {
      OneWatchedPerInverter(s, verified, members[1..], now, r);
    }
  }

  /** A trip whose save reaches the disk latches the event of every record it watches,
      until the end of that record's window. From then on the event is refused until then
      while the store is the same, and can be written again before then exactly when the
      store was replaced by one that loads and holds no unended latch of it. */
  lemma TripRefusesTheEvent(w: World, members: seq<string>, now: int, f: WriteFault, r: Record,
                            steps: seq<Step>, inverter: string, owned: bool, later: int)
    requires Consistent(w) && w.memory == Some(w.disk) && f != FailsBefore
    requires r in Watching(w.disk, w.verified, members, now)
    requires forall k :: 0 <= k < |steps| ==> Before(steps[k], r.windowEnd) && IsNew(steps[k], w.disk.storeId)
    ensures
      var tripped := Next(w, TripConnection(members, now, f));
      var v := Run(tripped, steps);
      && (!StoreReplaced(tripped, steps) ==> Refused(v, r.event, inverter, owned, later))
      && (v.disk.storeId == w.disk.storeId <==> !StoreReplaced(tripped, steps))
      && (later < r.windowEnd ==>
            (Regains(v, r.event, inverter, later) <==>
              StoreReplaced(tripped, steps) && Loads(v) && LatchesEnded(v.disk.latches, r.event, later)))
  {
    var s := w.disk;
    var records := Watching(s, w.verified, members, now);
    WatchedAreLive(s, w.verified, members, now, r);
    forall x | x in records && x.inverter == r.inverter && x.event == r.event ensures x.windowEnd == r.windowEnd {
      OneWatchedPerInverter(s, w.verified, members, now, x);
      OneWatchedPerInverter(s, w.verified, members, now, r);
    }
    EachIsLatched(s.latches, records, s.epoch, r);
    var tripped := Next(w, TripConnection(members, now, f));
    StandsExactlyUntilReplaced(tripped, steps, r.event, r.windowEnd);
    if !StoreReplaced(tripped, steps) {
      RefusedUntilWindowEnd(tripped, steps, r.event, r.windowEnd, inverter, owned, later);
    }
    if later < r.windowEnd {
      WritableAgainExactlyWhen(tripped, steps, r.event, r.windowEnd, inverter, later);
    }
  }

  lemma {:induction false} ExpiryLeaves(latches: seq<Latch>, now: int, e: Event)
    ensures IsLatched(KeptLatches(latches, now), e) <==>
      exists k :: 0 <= k < |latches| && latches[k].event == e && latches[k].windowEnd > now
    decreases |latches|
  {
    if latches != [] {
      var first := if latches[0].windowEnd > now then [latches[0]] else [];
      var rest, kept := latches[1..], KeptLatches(latches[1..], now);
      ExpiryLeaves(rest, now, e);
      assert forall k :: 0 <= k < |kept| ==> (first + kept)[|first| + k] == kept[k];
      assert forall k :: 0 <= k < |rest| ==> latches[k + 1] == rest[k];
      if first != [] {
        assert (first + kept)[0] == latches[0];
      }
    }
  }

  /** No sooner and no later: after an expiry, a new supervision and a new record make the
      event live again exactly when every latch of it has reached its window's end. */
  lemma LatchEndsWithItsWindow(w: World, now: int, row: Supervision, r: Record)
    requires Consistent(w) && w.memory == Some(w.disk) && !w.disk.fallback
    requires r.phase == Armed && r.epoch == w.disk.epoch && r.storeId == w.disk.storeId && r.event.end > now
    requires row.id == r.supervision && row.event == r.event
    ensures
      var s := Next(Next(Next(w, Expire(now, Clean)), Supervise([row], Clean)), SaveRecord(r.inverter, Some(r), Clean));
      (s.memory.Some? && LiveRecord(s.memory.value, s.verified, r.inverter, now) == Some(r)) <==>
        LatchesEnded(w.disk.latches, r.event, now)
  {
    var v := Next(Next(w, Expire(now, Clean)), Supervise([row], Clean));
    var s := Next(v, SaveRecord(r.inverter, Some(r), Clean)).disk;
    ExpiryLeaves(w.disk.latches, now, r.event);
    KeptAll(w.disk.latches, now);
    assert s.records[|s.records| - 1] == r;
    assert s.supervisions[0].id == r.supervision && s.supervisions[0].event == r.event;
  }

  // ---------------------------------------------------------------- two ways to lose a latch

  const EVENT := Event(true, 0, 100)

  const STOPPED := Record("a", EVENT, 0, 100, 1, 5, 7, StopPending)

  /** One inverter, tripped at 10 in an event that ends at 100. */
  const TRIPPED := Authority(1, 5, true, false, false, [STOPPED], [], [Latch("a", EVENT, 100, 5)])

  function Site(s: Authority): World {
    World(s, Bound(s.storeId), Some(s), false, {"a"})
  }

  lemma TheTrip()
    ensures
      var r, row := STOPPED.(phase := Active), Supervision("a", 7, EVENT, 100);
      var live := Authority(1, 5, true, false, false, [r], [row], []);
      Next(Site(live), TripConnection(["a"], 10, Clean)) == Site(TRIPPED)
  {
    var r := STOPPED.(phase := Active);
    var live := Authority(1, 5, true, false, false, [r], [Supervision("a", 7, EVENT, 100)], []);
    assert Latest([r], "a") == Some(r);
    assert Confirms(live.supervisions[0], r);
    assert IsLive(live, r, 10);
    assert ["a"][1..] == [] && Watching(live, {"a"}, [], 10) == [];
    assert Watching(live, {"a"}, ["a"], 10) == [r];
    assert [r][1..] == [] && Latched([], [r], 5) == TRIPPED.latches;
    assert Stopping([r], [r]) == [STOPPED];
    assert "a" in ["a"] && Unsupervised(live.supervisions, ["a"]) == [];
  }

  /** What an entry does to get back to a supervised optimise. */
  function Resume(w: World): World {
    Next(Next(w, Elsewhere(2, true, false, false, Clean)), Supervise([Supervision("a", 8, EVENT, 100)], Clean))
  }

  lemma Resumed(s: Authority)
    requires s.latches == [] && s.supervisions == []
    ensures
      var v := Resume(Site(s));
      v.memory.Some? && WriteReason(v.memory.value, "a", true, EVENT, 20).None?
  {
    var rows := [Supervision("a", 8, EVENT, 100)];
    assert LastSupervision(rows, 0, "a", EVENT);
  }

  /** A stop does not survive the repair of a later failed save: the write it refused is
      permitted at 20, by a supervision confirmed since, though the window ends at 100. */
  lemma ARepairForgetsTheStop()
    ensures HoldsUntil(TRIPPED.latches, EVENT, 100)
    ensures
      var failed := Next(Site(TRIPPED), Elsewhere(6, true, false, false, FailsBefore));
      var repaired := Next(failed, Confirm(2, Clean, Clean));
      var v := Resume(repaired);
      && v.memory.Some? && WriteReason(v.memory.value, "a", true, EVENT, 20).None?
      && WriteReason(TRIPPED, "a", true, EVENT, 20) == Some(Tripped)
  {
    assert TRIPPED.latches[0].event == EVENT && TRIPPED.latches[0].windowEnd == 100;
    Resumed(NewAuthority(2));
  }

  /** Nor a handover out and back, with every save clean. */
  lemma AHandoverForgetsTheStop()
    ensures
      var left := Next(Next(Site(TRIPPED), Elsewhere(6, false, true, false, Clean)), Retire(Clean));
      var back := Next(left, Initialise(2, Clean, Clean));
      var v := Resume(back);
      && HoldsUntil(left.disk.latches, EVENT, 100)
      && v.memory.Some? && WriteReason(v.memory.value, "a", true, EVENT, 20).None?
  {
    assert TRIPPED.latches[0].event == EVENT && TRIPPED.latches[0].windowEnd == 100;
    Resumed(NewAuthority(2));
  }

  // ---------------------------------------------------------------- the object

  /** The saved state of one entry, with the inverters this process has verified. */
  class ExportAuthority {
    var disk: Authority
    var marker: SiteMarker
    var memory: Option<Authority>
    var saveFailed: bool
    var verified: set<string>

    ghost function View(): World
      reads this
    {
      World(disk, marker, memory, saveFailed, verified)
    }

    constructor (disk: Authority)
      ensures View() == World(disk, Bound(disk.storeId), Some(disk), false, {})
    {
      this.disk, marker, memory := disk, Bound(disk.storeId), Some(disk);
      saveFailed, verified := false, {};
    }

    method Save(c: Authority, f: WriteFault) returns (saved: bool)
      requires memory.Some?
      modifies this
      ensures View() == Saved(old(View()), c, f) && saved == memory.Some?
      ensures saved ==> f == Clean && memory == Some(c)
    {
      if marker != Bound(disk.storeId) || disk.storeId != memory.value.storeId || c.storeId != disk.storeId {
        memory := None;
        return false;
      }
      if f != FailsBefore {
        disk := c;
      }
      memory := if f == Clean then Some(c) else None;
      saveFailed := f != Clean;
      saved := f == Clean;
    }

    /** The new record over the old one, then its marker; shown only once both are in. */
    method FreshObserve(id: nat, f1: WriteFault, f2: WriteFault) returns (saved: bool)
      modifies this
      ensures View() == Keeping(old(View()), Overwritten(KeptIn(old(View())), NewAuthority(id), id, f1, f2))
      ensures saved ==> memory == Some(NewAuthority(id)) && disk == NewAuthority(id) && disk.latches == []
    {
      memory, saveFailed := None, true;
      if f1 != FailsBefore {
        disk := NewAuthority(id);
      }
      if f1 == Clean && f2 != FailsBefore {
        marker := Bound(id);
      }
      saved := f1 == Clean && f2 == Clean;
      if saved {
        memory, saveFailed := Some(disk), false;
      }
    }

    /** The repair's confirmation, offered after a failed save or over an unknown store. */
    method AsyncConfirmObserve(id: nat, f1: WriteFault, f2: WriteFault) returns (saved: bool)
      modifies this
      ensures View() == Next(old(View()), Confirm(id, f1, f2))
      ensures saved ==> Replaces(old(View()), Confirm(id, f1, f2)) && disk.latches == []
    {
      if marker == Revoked(disk.storeId) || (marker == Bound(disk.storeId) && !saveFailed) {
        return false;
      }
      saved := FreshObserve(id, f1, f2);
    }

    method AsyncInitialise(id: nat, f1: WriteFault, f2: WriteFault) returns (saved: bool)
      modifies this
      ensures View() == Next(old(View()), Initialise(id, f1, f2))
      ensures saved ==> Replaces(old(View()), Initialise(id, f1, f2)) && disk.latches == []
    {
      if marker != Revoked(disk.storeId) || saveFailed {
        return false;
      }
      saved := FreshObserve(id, f1, f2);
    }

    method Watch(s: Authority, members: seq<string>, now: int) returns (records: seq<Record>)
      ensures records == Watching(s, verified, members, now)
    {
      records := [];
      var k := |members|;
      while k > 0
        invariant 0 <= k <= |members|
        invariant records == Watching(s, verified, members[k..], now)
      {
        k := k - 1;
        assert members[k..][1..] == members[k + 1..];
        var r := LiveRecord(s, verified, members[k], now);
        if r.Some? && r.value.windowStart <= now < r.value.windowEnd {
          records := [r.value] + records;
        }
      }
      assert members[0..] == members;
    }

    /** Latch durably first; what is to be cleared on the device comes after. */
    method AsyncTrip(members: seq<string>, now: int, f: WriteFault) returns (stopped: seq<Record>)
      modifies this
      ensures View() == Next(old(View()), TripConnection(members, now, f))
      ensures stopped ==
        if memory.Some? && old(memory).Some? then Watching(old(memory).value, old(verified), members, now) else []
    {
      stopped := [];
      if memory.None? {
        return;
      }
      var s := memory.value;
      var records := Watch(s, members, now);
      if records == [] {
        return;
      }
      var latches := LatchAll(s.latches, records, s.epoch);
      var saved := Save(s.(latches := latches, supervisions := Unsupervised(s.supervisions, members),
                           records := Stopping(s.records, records)), f);
      if saved {
        stopped := records;
      }
    }

    method AsyncExpire(now: int, f: WriteFault)
      modifies this
      ensures View() == Next(old(View()), Expire(now, f))
    {
      if memory.Some? {
        var s := memory.value;
        var kept, latches := KeptSupervisions(s.supervisions, now), KeptLatches(s.latches, now);
        if |kept| != |s.supervisions| || |latches| != |s.latches| {
          var _ := Save(s.(supervisions := kept, latches := latches), f);
        }
      }
    }
  }
}
