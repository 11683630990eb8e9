/** Arming an export by clock face. The device's slot holds times of day and no date, so a
    window may only be programmed once its face cannot come round before its own start.

    Instants are integer microseconds; the household zone is a fixed offset. */
module ExportClock {

  const DAY := 86_400_000_000

  /** The time of day a clock at this offset shows. */
  function Face(t: int, offset: int): (f: int)
    ensures 0 <= f < DAY
  {
    (t + offset) % DAY
  }

  function Midnight(t: int, offset: int): int {
    t - Face(t, offset)
  }

  /** Is the time of day within [start, end), wrapping midnight? */
  predicate ClockWindowOpen(moment: int, start: int, end: int) {
    if start < end then start <= moment < end
    else if start > end then moment >= start || moment < end
    else false
  }

  /** The first instant at or after now that shows the wall time's face. */
  function NextOccurrence(wall: int, now: int, offset: int): (t: int)
    ensures now <= t < now + DAY && Face(t, offset) == Face(wall, offset)
    ensures forall s :: now <= s < t ==> Face(s, offset) != Face(wall, offset)
  {
    var today := Midnight(now, offset) + Face(wall, offset);
    NextIsFirst(wall, now, offset);
    if today >= now then today else today + DAY
  }

  lemma NextIsFirst(wall: int, now: int, offset: int)
    ensures
      var today := Midnight(now, offset) + Face(wall, offset);
      var t := if today >= now then today else today + DAY;
      && now <= t < now + DAY && Face(t, offset) == Face(wall, offset)
      && forall s :: now <= s < t ==> Face(s, offset) != Face(wall, offset)
  {
    var today := Midnight(now, offset) + Face(wall, offset);
    var t := if today >= now then today else today + DAY;
    forall s | now <= s < t ensures Face(s, offset) != Face(wall, offset) {
      assert t - s < DAY;
    }
  }

  predicate NotYetArmed(start: int, end: int, now: int, offset: int) {
    && now < start
    && (ClockWindowOpen(Face(now, offset), Face(start, offset), Face(end, offset))
        || NextOccurrence(start, now, offset) != start)
  }

  // ---------------------------------------------------------------- what arming promises

  /** How much of a window its clock face shows: whole days vanish. */
  function Shown(start: int, end: int): (d: int)
    ensures 0 <= d < DAY
  {
    (end - start) % DAY
  }

  /** The face is open exactly for the shown length after each daily start. */
  lemma OpenMeansRecentStart(start: int, end: int, t: int, offset: int)
    ensures ClockWindowOpen(Face(t, offset), Face(start, offset), Face(end, offset))
      <==> (t - start) % DAY < Shown(start, end)
  {
    var f, s := Face(t, offset), Face(start, offset);
    var e := Face(end, offset);
    assert (t - start) % DAY == if f >= s then f - s else f - s + DAY;
    assert Shown(start, end) == if e >= s then e - s else e - s + DAY;
  }

  /** Before its start, a window may be armed exactly from the moment its previous daily
      occurrence is over: the last day but the length shown. */
  lemma ArmedExactlyWhen(start: int, end: int, now: int, offset: int)
    requires now < start
    ensures NotYetArmed(start, end, now, offset) <==> now <= start - DAY || now < start - DAY + Shown(start, end)
  {
    OpenMeansRecentStart(start, end, now, offset);
    if start - DAY < now {
      assert (now - start) % DAY == now - start + DAY;
      var t := NextOccurrence(start, now, offset);
      assert (t - start) % DAY == 0;
    }
  }

  /** Once arming is allowed, the face stays closed until the event's own start: whatever
      is programmed cannot discharge early. */
  lemma ClosedUntilStart(start: int, end: int, now: int, offset: int, t: int)
    requires !NotYetArmed(start, end, now, offset) && now <= t < start
    ensures !ClockWindowOpen(Face(t, offset), Face(start, offset), Face(end, offset))
  {
    ArmedExactlyWhen(start, end, now, offset);
    OpenMeansRecentStart(start, end, t, offset);
    assert (t - start) % DAY == t - start + DAY;
  }

  /** And in the day from the start it is open exactly for the event: once armed, what is
      programmed discharges when the event says and at no other time. */
  lemma OpensExactlyForTheEvent(start: int, end: int, now: int, offset: int, t: int)
    requires !NotYetArmed(start, end, now, offset) && now <= t < start + DAY && start <= end < start + DAY
    ensures ClockWindowOpen(Face(t, offset), Face(start, offset), Face(end, offset)) <==> start <= t < end
  {
    if t < start {
      ClosedUntilStart(start, end, now, offset, t);
    } else {
      OpenMeansRecentStart(start, end, t, offset);
      assert (t - start) % DAY == t - start && Shown(start, end) == end - start;
    }
  }

  /** Every window has a time before its start, and from then on all the time up to it, in
      which arming is allowed. */
  lemma ArmingIsPossible(start: int, end: int, offset: int)
    ensures exists from :: from < start && IsArmingTime(start, end, offset, from)
  {
    var from := start - DAY + (if Shown(start, end) == 0 then 1 else Shown(start, end));
    forall now | from <= now ensures !NotYetArmed(start, end, now, offset) {
      if now < start {
        ArmedExactlyWhen(start, end, now, offset);
      }
    }
    assert IsArmingTime(start, end, offset, from);
  }

  ghost predicate IsArmingTime(start: int, end: int, offset: int, from: int) {
    forall now :: from <= now ==> !NotYetArmed(start, end, now, offset)
  }

  /** Deferring is not over-cautious: at any time before the start at which arming is
      refused, the face does come round before the event, or the day before it. */
  lemma RefusedWithReason(start: int, end: int, now: int, offset: int)
    requires NotYetArmed(start, end, now, offset) && Shown(start, end) > 0
    ensures exists t :: now <= t < start && IsOpenAt(start, end, offset, t)
  {
    if !IsOpenAt(start, end, offset, now) {
      OccursEarly(start, end, now, offset);
      assert IsOpenAt(start, end, offset, NextOccurrence(start, now, offset));
    }
  }

  lemma OccursEarly(start: int, end: int, now: int, offset: int)
    requires NotYetArmed(start, end, now, offset) && !IsOpenAt(start, end, offset, now) && Shown(start, end) > 0
    ensures
      var t := NextOccurrence(start, now, offset);
      now <= t < start && IsOpenAt(start, end, offset, t)
  {
    var t := NextOccurrence(start, now, offset);
    OpenMeansRecentStart(start, end, t, offset);
    SameFaceIsWholeDays(t, start, offset);
  }

  lemma SameFaceIsWholeDays(s: int, t: int, offset: int)
    requires Face(s, offset) == Face(t, offset)
    ensures (s - t) % DAY == 0
  {
  }

  predicate IsOpenAt(start: int, end: int, offset: int, t: int) {
    ClockWindowOpen(Face(t, offset), Face(start, offset), Face(end, offset))
  }
}
