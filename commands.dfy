/** The console commands: `setAlarm`, `setNewTime` and the dispatcher
    `processRequest` (src/rtc_lamp.cpp:158-188, 236-359). */
module Commands {
  import opened Bytes
  import opened Types
  import opened Entry
  import opened Alarm

  /** `printStatus()` (src/rtc_lamp.cpp:413-448): its text is not modelled,
      but it starts by calling `updateTime`, which does change state. */
  function PrintStatus(s: State): (r: State)
    ensures r == s.(tm := r.tm, err := r.err, run := r.run)
  {
    UpdateTime(s).s
  }

  /** The byte `(char)dayIsSet[w]` stores. */
  function Flag(b: bool): (r: int8)
    ensures r != 0 <==> b
  {
    if b then 1 else 0
  }

  /** The write at a success point of `setAlarm` (src/rtc_lamp.cpp:254-257,
      283-286): `mem = {dayIsSet[w], alm[w].Hour, alm[w].Minute}` sent to
      slot `w`'s record. */
  function SaveSlot(s: State, w: int): (r: State)
    requires Wf(s) && 0 <= w < 7
    ensures Wf(r) && r == s.(mem := r.mem, store := r.store)
    ensures Record(r.store, w) ==
      [Flag(s.dayIsSet[w]) as int as uint8, s.alm[w].Hour, s.alm[w].Minute]
    ensures forall i :: 0 <= i < 7 && i != w ==> Record(r.store, i) == Record(s.store, i)
    ensures forall a :: 0 <= a < StoreSize && !(RecordAddr(w) <= a < RecordAddr(w) + 3) ==>
      r.store[a] == s.store[a]
  {
    var m := [Flag(s.dayIsSet[w]), Int8(s.alm[w].Hour as int), Int8(s.alm[w].Minute as int)];
    ByteThroughChar(s.alm[w].Hour);
    ByteThroughChar(s.alm[w].Minute);
    var r := s.(mem := m, store := WriteMem(s.store, m, RecordAddr(w)));
    assert Record(r.store, w) == [Flag(s.dayIsSet[w]) as int as uint8, s.alm[w].Hour, s.alm[w].Minute];
    r
  }

  /** A success point of `setAlarm` (src/rtc_lamp.cpp:253-258, 282-288):
      slot `w`'s enabled flag becomes `enabled`, its record is saved, and the
      status is printed. */
  function CommitSlot(s: State, w: int, enabled: bool): (r: State)
    requires Wf(s) && 0 <= w < 7
    ensures Wf(r) && r.dayIsSet == s.dayIsSet[w := enabled] && r.alm == s.alm
    ensures r == s.(dayIsSet := r.dayIsSet, mem := r.mem, store := r.store,
                    tm := r.tm, err := r.err, run := r.run)
    ensures Record(r.store, w) == [Flag(enabled) as int as uint8, s.alm[w].Hour, s.alm[w].Minute]
    ensures forall a :: 0 <= a < StoreSize && !(RecordAddr(w) <= a < RecordAddr(w) + 3) ==>
      r.store[a] == s.store[a]
  {
    PrintStatus(SaveSlot(s.(dayIsSet := s.dayIsSet[w := enabled]), w))
  }

  /** What every stage of `setAlarm` keeps: the clock, the relay and the idle
      counter are never
      touched, and a failed command has written no record and changed no
      enabled flag (the hour it may already have stored stays in RAM). */
  predicate AlarmUntouched(s: State, r: Out)
  {
    r.s.clock == s.clock && r.s.relay_t == s.relay_t && r.s.cnt == s.cnt &&
    (!r.ok ==> r.s.store == s.store && r.s.dayIsSet == s.dayIsSet)
  }

  /** `setAlarm()` (src/rtc_lamp.cpp:236-289), up to the hour prompt: a
      weekday digit 1..7 selects slot `Wday = rec - 1`. */
  function SetAlarm(s: State): (r: Out)
    requires Wf(s)
    ensures Wf(r.s) && AlarmUntouched(s, r)
  {
    var d := SelectDigit(s);
    if !d.ok || d.s.rec > 7 || d.s.rec < 1 then Out(d.s, false)
    else
      var n := d.s.rec as int;
      var s1 := d.s.(alm := d.s.alm[n - 1 := d.s.alm[n - 1].(Wday := Uint8(n))]);
      SetAlarmHour(s1.(wday := Int8(s1.alm[n - 1].Wday as int - 1)))
  }

  /** The hour field (src/rtc_lamp.cpp:249-265): an hour below 24 is stored
      at once; `'*'` (or the two digits 42, which is `'*'`) flips the slot's
      enabled flag, saves the record and ends the command with success. */
  function SetAlarmHour(s: State): (r: Out)
    requires Wf(s) && 0 <= s.wday < 7
    ensures Wf(r.s) && AlarmUntouched(s, r)
  {
    var w := s.wday as int;
    var h := Select2Digits(s);
    if !h.ok then Out(h.s, false)
    else if 0 <= h.s.finalDigit < 24 then
      SetAlarmMinute(h.s.(alm := h.s.alm[w := h.s.alm[w].(Hour := Uint8(h.s.finalDigit as int))]))
    else if h.s.finalDigit as int == '*' as int then
      Out(CommitSlot(h.s, w, !h.s.dayIsSet[w]), true)
    else Out(h.s, false)
  }

  /** The minute field and the success point (src/rtc_lamp.cpp:271-288). */
  function SetAlarmMinute(s: State): (r: Out)
    requires Wf(s) && 0 <= s.wday < 7
    ensures Wf(r.s) && AlarmUntouched(s, r)
    ensures !r.ok ==> r.s.alm == s.alm
  {
    var w := s.wday as int;
    var m := Select2Digits(s);
    if !m.ok || !(0 <= m.s.finalDigit < 60) then Out(m.s, false)
    else
      var t := m.s.(alm := m.s.alm[w := m.s.alm[w].(Minute := Uint8(m.s.finalDigit as int))]);
      Out(CommitSlot(t, w, true), true)
  }

  /** `CalendarYrToTm` of the Time library: years are kept as an offset from 1970. */
  function CalendarYrToTm(year: int): int
  {
    year - 1970
  }

  /** `RTC.write(tm)`: a chip that answers takes the new time and runs;
      a missing chip ignores the write. */
  function RtcWrite(clock: ClockRead, t: Tm): ClockRead
  {
    if clock.Absent? then clock else Ok(t)
  }

  /** A time written with `RTC.write` is what the next `updateTime` reads
      back, on a chip that answers, halted or not; on a missing chip the
      write is lost and the read latches `err`. */
  lemma {:induction false} WrittenTimeReadBack(s: State, t: Tm)
    ensures var u := UpdateTime(s.(clock := RtcWrite(s.clock, t)));
      (u.ok <==> !s.clock.Absent?) &&
      (u.ok ==> u.s.tm == t && u.s.run && !u.s.err) &&
      (!u.ok ==> u.s.tm == s.tm && u.s.err)
  {
  }

  /** What every stage of `setNewTime` keeps: the alarm table, the store,
      the relay and the idle counter are never touched, and the clock is written with the new `tm`
      on success and not at all on failure. */
  predicate TimeOnly(s: State, r: Out)
  {
    r.s.alm == s.alm && r.s.dayIsSet == s.dayIsSet && r.s.store == s.store &&
    r.s.relay_t == s.relay_t && r.s.cnt == s.cnt &&
    r.s.clock == (if r.ok then RtcWrite(s.clock, r.s.tm) else s.clock)
  }

  /** The ranges `setNewTime` checks before it writes the clock: day 1..31,
      month 1..12, weekday 1..7, hour below 24 and minute below 60; the year,
      a two-digit entry taken as 2000 + n, is 30..129 counted from 1970. */
  predicate SetTimeRanges(t: Tm)
  {
    1 <= t.Day <= 31 && 1 <= t.Month <= 12 && 30 <= t.Year <= 129 &&
    1 <= t.Wday <= 7 && t.Hour < 24 && t.Minute < 60
  }

  /** `setNewTime()` (src/rtc_lamp.cpp:292-359): day, month, year, weekday,
      hour and minute, each assigned to `tm` as soon as it is accepted; the
      clock is written only once all six are. This is the day field
      (src/rtc_lamp.cpp:293-302); each later field is its own stage below. */
  function SetNewTime(s: State): (r: Out)
    requires Wf(s)
    ensures Wf(r.s) && TimeOnly(s, r)
    ensures r.s.tm.Second == s.tm.Second
    ensures r.ok ==> SetTimeRanges(r.s.tm)
  {
    var a := Select2Digits(s);
    if !a.ok || !(0 < a.s.finalDigit < 32) then Out(a.s, false)
    else SetNewTimeMonth(a.s.(tm := a.s.tm.(Day := Uint8(a.s.finalDigit as int))))
  }

  /** The month field (src/rtc_lamp.cpp:304-313). */
  function SetNewTimeMonth(s: State): (r: Out)
    requires Wf(s)
    ensures Wf(r.s) && TimeOnly(s, r)
    ensures r.s.tm == s.tm.(Month := r.s.tm.Month, Year := r.s.tm.Year, Wday := r.s.tm.Wday,
                            Hour := r.s.tm.Hour, Minute := r.s.tm.Minute)
    ensures r.ok ==> 1 <= r.s.tm.Month <= 12 && 30 <= r.s.tm.Year <= 129 &&
                     1 <= r.s.tm.Wday <= 7 && r.s.tm.Hour < 24 && r.s.tm.Minute < 60
  {
    var b := Select2Digits(s);
    if !b.ok || !(0 < b.s.finalDigit < 13) then Out(b.s, false)
    else SetNewTimeYear(b.s.(tm := b.s.tm.(Month := Uint8(b.s.finalDigit as int))))
  }

  /** The year field (src/rtc_lamp.cpp:315-320): any two-digit entry, or the
      `'*'` shortcut's 42, is taken as 2000 + n and kept from 1970 on. */
  function SetNewTimeYear(s: State): (r: Out)
    requires Wf(s)
    ensures Wf(r.s) && TimeOnly(s, r)
    ensures r.s.tm == s.tm.(Year := r.s.tm.Year, Wday := r.s.tm.Wday,
                            Hour := r.s.tm.Hour, Minute := r.s.tm.Minute)
    ensures r.ok ==> 30 <= r.s.tm.Year <= 129 &&
                     1 <= r.s.tm.Wday <= 7 && r.s.tm.Hour < 24 && r.s.tm.Minute < 60
  {
    var c := Select2Digits(s);
    if !c.ok then Out(c.s, false)
    else SetNewTimeWeekday(c.s.(tm := c.s.tm.(Year := Uint8(CalendarYrToTm(2000 + c.s.finalDigit as int)))))
  }

  /** The weekday field (src/rtc_lamp.cpp:322-329). */
  function SetNewTimeWeekday(s: State): (r: Out)
    requires Wf(s)
    ensures Wf(r.s) && TimeOnly(s, r)
    ensures r.s.tm == s.tm.(Wday := r.s.tm.Wday, Hour := r.s.tm.Hour, Minute := r.s.tm.Minute)
    ensures r.ok ==> 1 <= r.s.tm.Wday <= 7 && r.s.tm.Hour < 24 && r.s.tm.Minute < 60
  {
    var d := SelectDigit(s);
    if !d.ok || d.s.rec > 7 || d.s.rec < 1 then Out(d.s, false)
    else SetNewTimeHour(d.s.(tm := d.s.tm.(Wday := Uint8(d.s.rec as int))))
  }

  /** The hour field (src/rtc_lamp.cpp:330-343). */
  function SetNewTimeHour(s: State): (r: Out)
    requires Wf(s)
    ensures Wf(r.s) && TimeOnly(s, r)
    ensures r.s.tm == s.tm.(Hour := r.s.tm.Hour, Minute := r.s.tm.Minute)
    ensures r.ok ==> r.s.tm.Hour < 24 && r.s.tm.Minute < 60
  {
    var e := Select2Digits(s);
    if !e.ok || !(0 <= e.s.finalDigit < 24) then Out(e.s, false)
    else SetNewTimeMinute(e.s.(tm := e.s.tm.(Hour := Uint8(e.s.finalDigit as int))))
  }

  /** The minute field and the success point, where the clock is written
      (src/rtc_lamp.cpp:345-358). */
  function SetNewTimeMinute(s: State): (r: Out)
    requires Wf(s)
    ensures Wf(r.s) && TimeOnly(s, r)
    ensures r.s.tm == s.tm.(Minute := r.s.tm.Minute)
    ensures r.ok ==> r.s.tm.Minute < 60
  {
    var f := Select2Digits(s);
    if !f.ok || !(0 <= f.s.finalDigit < 60) then Out(f.s, false)
    else
      var t := f.s.(tm := f.s.tm.(Minute := Uint8(f.s.finalDigit as int)));
      Out(PrintStatus(t.(clock := RtcWrite(t.clock, t.tm))), true)
  }

  /** One pass of the `while (inProcess)` body of `processRequest`
      (src/rtc_lamp.cpp:168-183) on the command byte in `rec`. */
  function Dispatch(s: State): (r: State)
    requires Wf(s)
    ensures Wf(r) && r.cnt == s.cnt
    ensures s.rec as int != 'a' as int ==>
      r.alm == s.alm && r.dayIsSet == s.dayIsSet && r.store == s.store
    ensures r.relay_t != s.relay_t ==> s.rec as int == '!' as int
    ensures r.clock != s.clock ==> s.rec as int == 't' as int
    ensures s.rec as int !in {'?' as int, 'a' as int, 't' as int, '!' as int} ==> r == s
  {
    var c := s.rec as int;
    if c == '?' as int then PrintStatus(s)
    else if c == 'a' as int then SetAlarm(s).s
    else if c == 't' as int then SetNewTime(s).s
    else if c == '!' as int then RelayToggle(s)
    else s
  }

  /** `processRequest()` (src/rtc_lamp.cpp:158-188): a latched `err` answers
      "Er" and touches nothing, not even the pending input; otherwise one
      byte is read and its command runs once; `inProcess` ends true. */
  function ProcessRequest(s: State): (r: State)
    requires Wf(s)
    ensures Wf(r) && r.cnt == s.cnt
    ensures s.err ==> r == s
    ensures !s.err ==> r.inProcess
  {
    if s.err then s
    else
      var t := ReadRec(s);
      (if t.inProcess then Dispatch(t) else t).(inProcess := true)
  }
}
