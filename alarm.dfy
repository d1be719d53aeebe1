/** The clock read `updateTime`, the relay helpers and the alarm evaluator
    `checkAlarm` (src/rtc_lamp.cpp:362-410, 451-460). */
module Alarm {
  import opened Bytes
  import opened Types

  /** `updateTime()` (src/rtc_lamp.cpp:362-381): a reading replaces `tm` and
      clears the error flags; a halted clock clears `run`; a missing chip
      also latches `err`. The message it prints is not modelled. */
  function UpdateTime(s: State): (r: Out)
    ensures r.s == s.(tm := r.s.tm, err := r.s.err, run := r.s.run)
    ensures r.ok <==> s.clock.Ok?
    ensures r.ok ==> r.s.tm == s.clock.time && !r.s.err && r.s.run
    ensures !r.ok ==> !r.s.run && (r.s.err <==> s.clock.Absent?)
    ensures s.clock.Stopped? ==> r.s.tm == s.clock.time
    ensures s.clock.Absent? ==> r.s.tm == s.tm
  {
    match s.clock
    case Ok(t) => Out(s.(tm := t, err := false, run := true), true)
    case Stopped(t) => Out(s.(tm := t, err := false, run := false), false)
    case Absent => Out(s.(err := true, run := false), false)
  }

  /** `relayToggle()` (src/rtc_lamp.cpp:451-454); the output pin follows `relay_t`. */
  function RelayToggle(s: State): (r: State)
  {
    s.(relay_t := !s.relay_t)
  }

  /** `relayOff()` (src/rtc_lamp.cpp:457-460). */
  function RelayOff(s: State): (r: State)
  {
    s.(relay_t := false)
  }

  /** The slot `checkAlarm` consults: `Wday = tm.Wday - 1` as a `char`,
      taken from the reading of the PREVIOUS call (src/rtc_lamp.cpp:385).
      A weekday 1..7 selects slot 0..6; a weekday 0 gives -1. */
  function Slot(s: State): (r: int8)
    ensures s.tm.Wday as int <= 128 ==> r as int == s.tm.Wday as int - 1
    ensures 0 <= r < 7 <==> 1 <= s.tm.Wday <= 7
  {
    Int8(s.tm.Wday as int - 1)
  }

  /** Toggling the relay twice restores the state: `relayToggle` is its own inverse. */
  lemma {:induction false} RelayToggleTwice(s: State)
    ensures RelayToggle(s).relay_t != s.relay_t
    ensures RelayToggle(RelayToggle(s)) == s
  {
  }

  /** `relayOff` leaves the relay off whatever its state, and a second call changes nothing. */
  lemma {:induction false} RelayOffIdempotent(s: State)
    ensures !RelayOff(s).relay_t && RelayOff(s) == s.(relay_t := false)
    ensures RelayOff(RelayOff(s)) == RelayOff(s)
  {
  }

  /** The evaluator changes the clock-derived fields, `Wday` and the relay
      state, and nothing else. */
  predicate AlarmFrame(s: State, t: State)
  {
    t == s.(tm := t.tm, wday := t.wday, err := t.err, run := t.run,
            relay_t := t.relay_t, recentlyFlipped := t.recentlyFlipped)
  }

  /** `checkAlarm()` (src/rtc_lamp.cpp:384-410), with a range check on the
      slot that the source lacks (see `Findings.ConsultedSlotAsWritten`). */
  function CheckAlarm(s: State): (r: State)
    requires Wf(s)
    ensures AlarmFrame(s, r)
  {
    var slot := Slot(s);
    var u := UpdateTime(s.(wday := slot));
    if !u.ok || !(0 <= slot < 7) || !u.s.dayIsSet[slot] then u.s
    else
      var t := u.s.tm;
      var a := u.s.alm[slot];
      if t.Hour == a.Hour then
        if t.Minute == a.Minute then
          (if !u.s.recentlyFlipped then RelayToggle(u.s) else u.s).(recentlyFlipped := true)
        else u.s.(recentlyFlipped := false)
      else if t.Hour as int == a.Hour as int + 1 then
        var v := u.s.(recentlyFlipped := false);
        if t.Minute == a.Minute && v.relay_t then RelayOff(v) else v
      else u.s.(recentlyFlipped := false)
  }

  /** The call reads the clock, the consulted slot is inside the table and
      that weekday's alarm is set: only then is anything decided. */
  predicate Evaluates(s: State)
    requires Wf(s)
  {
    s.clock.Ok? && 0 <= Slot(s) < 7 && s.dayIsSet[Slot(s)]
  }

  /** The reading matches the consulted alarm's hour and minute. */
  predicate Matches(s: State)
    requires Wf(s) && s.clock.Ok? && 0 <= Slot(s) < 7
  {
    var t := s.clock.time;
    var a := s.alm[Slot(s)];
    t.Hour == a.Hour && t.Minute == a.Minute
  }

  /** The reading is one hour after the consulted alarm, same minute. */
  predicate OffTime(s: State)
    requires Wf(s) && s.clock.Ok? && 0 <= Slot(s) < 7
  {
    var t := s.clock.time;
    var a := s.alm[Slot(s)];
    t.Hour as int == a.Hour as int + 1 && t.Minute == a.Minute
  }

  // ---------------------------------------------------------------------
  // Properties

  /** A failed read, a slot outside the table or a disabled slot leaves the
      relay, the debounce flag and the alarm table as they were; a missing
      chip also leaves `tm`, a halted one fills it from its registers. */
  lemma {:induction false} CheckAlarmNoEvaluation(s: State)
    requires Wf(s) && !Evaluates(s)
    ensures var r := CheckAlarm(s);
      r.relay_t == s.relay_t && r.recentlyFlipped == s.recentlyFlipped &&
      r.alm == s.alm && r.dayIsSet == s.dayIsSet &&
      (s.clock.Absent? ==> r.tm == s.tm) &&
      (s.clock.Stopped? ==> r.tm == s.clock.time)
  {
  }

  /** In the matching minute the relay toggles unless the debounce flag is
      already up, and the flag is up afterwards. */
  lemma {:induction false} CheckAlarmOnMatch(s: State)
    requires Wf(s) && Evaluates(s) && Matches(s)
    ensures var r := CheckAlarm(s);
      r.recentlyFlipped &&
      r.relay_t == (if s.recentlyFlipped then s.relay_t else !s.relay_t)
  {
  }

  /** One hour after the alarm, same minute, the relay ends off whatever it was. */
  lemma {:induction false} CheckAlarmAutoOff(s: State)
    requires Wf(s) && Evaluates(s) && OffTime(s)
    ensures var r := CheckAlarm(s);
      !r.relay_t && !r.recentlyFlipped
  {
  }

  /** Every evaluated reading other than the matching minute clears the
      debounce flag, and the relay changes only at the auto-off time. */
  lemma {:induction false} CheckAlarmOtherTime(s: State)
    requires Wf(s) && Evaluates(s) && !Matches(s)
    ensures var r := CheckAlarm(s);
      !r.recentlyFlipped &&
      r.relay_t == (if OffTime(s) then false else s.relay_t)
  {
  }

  /** `checkAlarm` applied to a run of readings, one per call. */
  function RunChecks(s: State, readings: seq<Tm>): (r: State)
    requires Wf(s)
    ensures Wf(r) && r.alm == s.alm && r.dayIsSet == s.dayIsSet
    decreases |readings|
  {
    if readings == [] then s
    else RunChecks(CheckAlarm(s.(clock := Ok(readings[0]))), readings[1..])
  }

  /** Any number of calls that all read weekday `w` and the hour and minute of
      its enabled alarm toggle the relay once at most: exactly once when the
      debounce flag starts down, never when it starts up. */
  lemma {:induction false} ChecksInMatchingMinute(s: State, w: int, readings: seq<Tm>)
    requires Wf(s) && 1 <= w <= 7 && s.tm.Wday as int == w && s.dayIsSet[w - 1]
    requires readings != []
    requires forall j :: 0 <= j < |readings| ==>
      readings[j].Wday as int == w && readings[j].Hour == s.alm[w - 1].Hour &&
      readings[j].Minute == s.alm[w - 1].Minute
    ensures var r := RunChecks(s, readings);
      r.recentlyFlipped &&
      r.relay_t == (if s.recentlyFlipped then s.relay_t else !s.relay_t)
    decreases |readings|
  {
    var s1 := s.(clock := Ok(readings[0]));
    assert Slot(s1) as int == w - 1;
    CheckAlarmOnMatch(s1);
    var t := CheckAlarm(s1);
    if |readings| > 1 {
      assert t.tm == readings[0];
      ChecksInMatchingMinute(t, w, readings[1..]);
      assert RunChecks(s, readings) == RunChecks(t, readings[1..]);
    }
  }
}
