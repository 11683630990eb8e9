/** What every operation around a stop leaves behind, and exactly when a record is live and
    a write permitted. */
module StopAnswers {
  import opened Basics
  import opened SiteAuthority
  import opened StoreReplacement
  import opened StopLatch

  // ---------------------------------------------------------------- live records

  /** The record at k is the inverter's last. */
  predicate IsLastOf(records: seq<Record>, k: nat, inverter: string) {
    && k < |records| && records[k].inverter == inverter
    && forall j :: k < j < |records| ==> records[j].inverter != inverter
  }

  lemma {:induction false} LatestIsLast(records: seq<Record>, inverter: string, k: nat)
    requires IsLastOf(records, k, inverter)
    ensures Latest(records, inverter) == Some(records[k])
    decreases |records|
  {
    if k < |records| - 1 {
      assert records[|records| - 1].inverter != inverter;
      LatestIsLast(records[..|records| - 1], inverter, k);
    }
  }

  lemma {:induction false} NoneIsLast(records: seq<Record>, inverter: string)
    requires forall k :: 0 <= k < |records| ==> records[k].inverter != inverter
    ensures Latest(records, inverter).None?
    decreases |records|
  {
    if records != [] {
      NoneIsLast(records[..|records| - 1], inverter);
    }
  }

  /** An inverter's record is live exactly when it is its last one, in a live phase and of
      this store and epoch, its event not over, no fallback active, no latch on its event, its
      supervision still listed for the same event, and verified by this process. */
  lemma LiveExactlyWhen(s: Authority, verified: set<string>, inverter: string, now: int, k: nat)
    requires IsLastOf(s.records, k, inverter)
    ensures
      var r := s.records[k];
      && LiveRecord(s, verified, inverter, now) in {None, Some(r)}
      && (LiveRecord(s, verified, inverter, now) == Some(r) <==>
            && (r.phase == Armed || r.phase == Active || r.phase == Preserved)
            && r.epoch == s.epoch && r.storeId == s.storeId && now < r.event.end && !s.fallback
            && (forall j :: 0 <= j < |s.latches| ==> s.latches[j].event != r.event)
            && (exists j :: 0 <= j < |s.supervisions| && s.supervisions[j].id == r.supervision
                            && s.supervisions[j].event == r.event)
            && inverter in verified)
  {
    LatestIsLast(s.records, inverter, k);
    var r := s.records[k];
    assert forall j :: 0 <= j < |s.supervisions| ==>
      (Confirms(s.supervisions[j], r) <==> s.supervisions[j].id == r.supervision && s.supervisions[j].event == r.event);
  }

  // ---------------------------------------------------------------- permission

  /** An inverter is supervised for an event exactly while the last supervision of both has
      not ended. */
  lemma SupervisedExactlyWhen(s: Authority, inverter: string, e: Event, now: int)
    ensures Supervised(s, inverter, e, now) <==>
      exists k ::
        && 0 <= k < |s.supervisions| && s.supervisions[k].inverter == inverter && s.supervisions[k].event == e
        && now < s.supervisions[k].endsAt
        && forall j :: k < j < |s.supervisions| ==>
             s.supervisions[j].inverter != inverter || s.supervisions[j].event != e
  {
    if Supervised(s, inverter, e, now) {
      var k :| 0 <= k < |s.supervisions| && LastSupervision(s.supervisions, k, inverter, e)
               && s.supervisions[k].endsAt > now;
      assert s.supervisions[k].inverter == inverter;
    }
    if k :| && 0 <= k < |s.supervisions| && s.supervisions[k].inverter == inverter && s.supervisions[k].event == e
            && now < s.supervisions[k].endsAt
            && forall j :: k < j < |s.supervisions| ==>
                 s.supervisions[j].inverter != inverter || s.supervisions[j].event != e
    {
      assert LastSupervision(s.supervisions, k, inverter, e);
    }
  }

  /** A refusal names what is in the way: the mode, then the ownership, then a latch, then
      the missing supervision. */
  lemma RefusalNamesACause(s: Authority, inverter: string, owned: bool, e: Event, now: int)
    ensures
      var reason := WriteReason(s, inverter, owned, e, now);
      var mode := s.permits && !s.fallback;
      && (reason == Some(Mode) <==> !mode)
      && (reason == Some(NotOwner) <==> mode && !owned)
      && (reason == Some(Tripped) <==>
            mode && owned && exists k :: 0 <= k < |s.latches| && s.latches[k].event == e)
      && (reason == Some(NotSupervised) <==>
            && mode && owned && (forall k :: 0 <= k < |s.latches| ==> s.latches[k].event != e)
            && !Supervised(s, inverter, e, now))
  {
  }

  // ---------------------------------------------------------------- saves

  /** A save is taken exactly over the store it was made from; whatever goes wrong, nothing
      is published until the store is read again. */
  lemma SaveEnds(w: World, c: Authority, f: WriteFault)
    requires w.memory.Some?
    ensures
      var v := Saved(w, c, f);
      var taken := w.marker == Bound(w.disk.storeId) && w.memory.value.storeId == w.disk.storeId == c.storeId;
      && (v.marker, v.verified) == (w.marker, w.verified)
      && v.disk == (if taken && f != FailsBefore then c else w.disk)
      && v.memory == (if taken && f == Clean then Some(c) else None)
      && v.saveFailed == (if taken then f != Clean else w.saveFailed)
  {
  }

  // ---------------------------------------------------------------- what a trip changes

  lemma {:induction false} OthersAreSupervised(rows: seq<Supervision>, members: seq<string>, x: Supervision)
    ensures x in Unsupervised(rows, members) <==> x in rows && x.inverter !in members
    decreases |rows|
  {
    if rows != [] {
      OthersAreSupervised(rows[1..], members, x);
      var first := if rows[0].inverter in members then [] else [rows[0]];
      assert Unsupervised(rows, members) == first + Unsupervised(rows[1..], members);
      assert rows == [rows[0]] + rows[1..];
    }
  }

  lemma {:induction false} WatchedAreLive(
      s: Authority, verified: set<string>, members: seq<string>, now: int, r: Record)
    ensures r in Watching(s, verified, members, now) <==>
      exists k :: 0 <= k < |members| && LiveRecord(s, verified, members[k], now) == Some(r)
                  && r.windowStart <= now < r.windowEnd
    decreases |members|
  {
    if members != [] {
      var rest := Watching(s, verified, members[1..], now);
      WatchedAreLive(s, verified, members[1..], now, r);
      var first := LiveRecord(s, verified, members[0], now);
      if first == Some(r) && r.windowStart <= now < r.windowEnd {
        assert Watching(s, verified, members, now) == [r] + rest;
      }
      if k :| 0 <= k < |members| && LiveRecord(s, verified, members[k], now) == Some(r)
              && r.windowStart <= now < r.windowEnd && k > 0
      {
        assert members[1..][k - 1] == members[k];
      }
      assert forall k :: 0 <= k < |members| - 1 ==> members[1..][k] == members[k + 1];
    }
  }

  /** A trip puts the watched records, and no others, into the stop, and takes every
      supervision of the connection's members away, and no other. Nothing else but the
      latches moves. */
  lemma TripChangesExactly(s: Authority, verified: set<string>, members: seq<string>, now: int)
    ensures
      var v := Trip(s, verified, members, now);
      && |v.records| == |s.records|
      && (forall k :: 0 <= k < |s.records| ==>
            v.records[k] == if IsWatched(s, verified, members, now, s.records[k])
                            then s.records[k].(phase := StopPending) else s.records[k])
      && (forall x :: x in v.supervisions <==> x in s.supervisions && x.inverter !in members)
      && v == s.(latches := v.latches, records := v.records, supervisions := v.supervisions)
  {
    forall r ensures r in Watching(s, verified, members, now) <==> IsWatched(s, verified, members, now, r) {
      WatchedAreLive(s, verified, members, now, r);
    }
    forall x ensures x in Unsupervised(s.supervisions, members) <==> x in s.supervisions && x.inverter !in members {
      OthersAreSupervised(s.supervisions, members, x);
    }
  }

  /** The live record of a member, inside its window. */
  predicate IsWatched(s: Authority, verified: set<string>, members: seq<string>, now: int, r: Record) {
    exists k :: 0 <= k < |members| && LiveRecord(s, verified, members[k], now) == Some(r)
                && r.windowStart <= now < r.windowEnd
  }

  // ---------------------------------------------------------------- expiry

  lemma {:induction false} LatchesKept(latches: seq<Latch>, now: int, x: Latch)
    ensures x in KeptLatches(latches, now) <==> x in latches && now < x.windowEnd
    decreases |latches|
  {
    if latches != [] {
      LatchesKept(latches[1..], now, x);
      var first := if latches[0].windowEnd > now then [latches[0]] else [];
      assert KeptLatches(latches, now) == first + KeptLatches(latches[1..], now);
      assert latches == [latches[0]] + latches[1..];
    }
  }

  lemma {:induction false} SupervisionsKept(rows: seq<Supervision>, now: int, x: Supervision)
    ensures x in KeptSupervisions(rows, now) <==> x in rows && now < x.endsAt
    ensures |KeptSupervisions(rows, now)| <= |rows|
    ensures |KeptSupervisions(rows, now)| == |rows| ==> KeptSupervisions(rows, now) == rows
    decreases |rows|
  {
    if rows != [] {
      SupervisionsKept(rows[1..], now, x);
      var first := if rows[0].endsAt > now then [rows[0]] else [];
      assert KeptSupervisions(rows, now) == first + KeptSupervisions(rows[1..], now);
      assert rows == [rows[0]] + rows[1..];
    }
  }

  /** An expiry takes away exactly the latches whose window has ended and the supervisions
      that have, and touches nothing else. */
  lemma ExpiryChangesExactly(w: World, now: int)
    requires w.memory.Some? && Consistent(w)
    ensures
      var s, v := w.disk, Next(w, Expire(now, Clean));
      && (forall x :: x in v.disk.latches <==> x in s.latches && now < x.windowEnd)
      && (forall x :: x in v.disk.supervisions <==> x in s.supervisions && now < x.endsAt)
      && v.disk == s.(latches := v.disk.latches, supervisions := v.disk.supervisions)
      && v.memory == Some(v.disk)
  {
    var s := w.disk;
    forall x ensures x in KeptLatches(s.latches, now) <==> x in s.latches && now < x.windowEnd {
      LatchesKept(s.latches, now, x);
    }
    forall x ensures x in KeptSupervisions(s.supervisions, now) <==> x in s.supervisions && now < x.endsAt {
      SupervisionsKept(s.supervisions, now, x);
    }
    KeptAll(s.latches, now);
    if s.supervisions != [] {
      SupervisionsKept(s.supervisions, now, s.supervisions[0]);
    }
  }

  /** Where none has ended it saves nothing, so no fault of a save can follow. */
  lemma NothingEndedNothingSaved(w: World, now: int, f: WriteFault)
    requires w.memory.Some?
    requires forall x :: x in w.memory.value.latches ==> now < x.windowEnd
    requires forall x :: x in w.memory.value.supervisions ==> now < x.endsAt
    ensures Next(w, Expire(now, f)) == w
  {
    NoLatchEnds(w.memory.value.latches, now);
    NoSupervisionEnds(w.memory.value.supervisions, now);
  }

  lemma {:induction false} NoLatchEnds(latches: seq<Latch>, now: int)
    requires forall x :: x in latches ==> now < x.windowEnd
    ensures KeptLatches(latches, now) == latches
    decreases |latches|
  {
    if latches != [] {
      NoLatchEnds(latches[1..], now);
    }
  }

  lemma {:induction false} NoSupervisionEnds(rows: seq<Supervision>, now: int)
    requires forall x :: x in rows ==> now < x.endsAt
    ensures KeptSupervisions(rows, now) == rows
    decreases |rows|
  {
    if rows != [] {
      NoSupervisionEnds(rows[1..], now);
    }
  }

  // ---------------------------------------------------------------- records and restarts

  lemma {:induction false} WithoutExactly(rows: seq<Record>, inverter: string, x: Record)
    ensures x in Without(rows, inverter) <==> x in rows && x.inverter != inverter
    decreases |rows|
  {
    if rows != [] {
      WithoutExactly(rows[1..], inverter, x);
      var first := if rows[0].inverter == inverter then [] else [rows[0]];
      assert Without(rows, inverter) == first + Without(rows[1..], inverter);
      assert rows == [rows[0]] + rows[1..];
    }
  }

  /** A saved record replaces its inverter's and leaves every other inverter's; one that is
      not a cleanup is also verified by this process. Without one the inverter has none. */
  lemma RecordReplacesItsOwn(w: World, inverter: string, record: Option<Record>)
    requires w.memory.Some? && Consistent(w) && (record.Some? ==> record.value.inverter == inverter)
    ensures
      var s, v := w.disk, Next(w, SaveRecord(inverter, record, Clean));
      && v.memory == Some(v.disk) && v.disk == s.(records := v.disk.records)
      && (forall x :: x in v.disk.records <==> (x in s.records && x.inverter != inverter) || record == Some(x))
      && Latest(v.disk.records, inverter) == record
      && v.verified == if record.Some? && record.value.phase != Cleared then w.verified + {inverter} else w.verified
  {
    var rest := Without(w.disk.records, inverter);
    forall x ensures x in rest <==> x in w.disk.records && x.inverter != inverter {
      WithoutExactly(w.disk.records, inverter, x);
    }
    if record.Some? {
      LatestIsLast(rest + [record.value], inverter, |rest|);
    } else {
      assert rest + [] == rest;
      forall k | 0 <= k < |rest| ensures rest[k].inverter != inverter {
        assert rest[k] in rest;
      }
      NoneIsLast(rest, inverter);
    }
  }

  /** A restart verifies nothing: no record is live until its inverter is read again. */
  lemma RestartUnverifies(w: World, inverter: string, now: int)
    ensures
      var v := Next(w, Restart);
      && v.verified == {} && v.disk == w.disk && LiveRecord(v.disk, v.verified, inverter, now).None?
      && v.memory == (if w.marker == Bound(w.disk.storeId) then Some(w.disk) else None) && !v.saveFailed
    ensures w.memory.Some? ==> Next(w, Reverify(inverter)) == w.(verified := w.verified + {inverter})
    ensures Next(w, Fence) == w.(memory := None, saveFailed := true)
  {
  }

  /** Saves from elsewhere take exactly what they name; without anything published none of
      these steps does anything. */
  lemma ElsewhereSavesExactly(
      w: World, rows: seq<Supervision>, epoch: nat, permits: bool, settled: bool, fallback: bool)
    requires w.memory.Some? && Consistent(w)
    ensures Next(w, Supervise(rows, Clean)).disk == w.disk.(supervisions := rows)
    ensures Next(w, Elsewhere(epoch, permits, settled, fallback, Clean)).disk
         == w.disk.(epoch := epoch, permits := permits, settled := settled, fallback := fallback)
  {
  }

  lemma NothingIsSavedUnpublished(w: World, x: Step)
    requires w.memory.None? && !x.Restart? && !x.Fence? && !x.Confirm? && !x.Retire? && !x.Initialise?
    ensures Next(w, x) == w
  {
  }

  /** A trip with nothing to watch saves nothing. */
  lemma UnwatchedTripsNothing(w: World, members: seq<string>, now: int, f: WriteFault)
    requires w.memory.Some?
    requires forall k :: 0 <= k < |members| ==>
      var r := LiveRecord(w.memory.value, w.verified, members[k], now);
      r.Some? ==> !(r.value.windowStart <= now < r.value.windowEnd)
    ensures Next(w, TripConnection(members, now, f)) == w
  {
    var watched := Watching(w.memory.value, w.verified, members, now);
    if watched != [] {
      WatchedAreLive(w.memory.value, w.verified, members, now, watched[0]);
    }
  }
}
