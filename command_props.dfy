/** What the console commands promise: the fields they accept, what they
    change in RAM along the way, and the points at which they persist. */
module CommandProperties {
  import opened Bytes
  import opened Types
  import opened Entry
  import opened Alarm
  import opened Commands

  /** The value of a digit character. */
  function DigitVal(b: uint8): (r: int)
    requires IsDigit(b)
    ensures 0 <= r <= 9
  {
    b as int - '0' as int
  }

  /** The two-digit number typed as `hi`, `lo`. */
  function TwoDigits(hi: uint8, lo: uint8): (r: int)
    requires IsDigit(hi) && IsDigit(lo)
    ensures 0 <= r <= 99
  {
    10 * DigitVal(hi) + DigitVal(lo)
  }

  predicate IsWeekdayKey(b: uint8)
  {
    '1' as int <= b as int <= '7' as int
  }

  // ---------------------------------------------------------------------
  // One field of `select2Digits`, typed with any pauses that fit the poll budget

  /** The keys of a field that `select2Digits` accepts: `'*'` alone, or a
      digit followed by a digit or by `'*'`. */
  predicate Entered(ks: seq<Stroke>)
  {
    (|ks| == 1 && IsStar(ks[0].key)) ||
    (|ks| == 2 && IsDigit(ks[0].key) && (IsDigit(ks[1].key) || IsStar(ks[1].key)))
  }

  /** The keys of a field that `select2Digits` refuses: a first key that is
      neither a digit nor `'*'`, or a digit followed by such a key. */
  predicate Refused(ks: seq<Stroke>)
  {
    (|ks| == 1 && !IsDigit(ks[0].key) && !IsStar(ks[0].key)) ||
    (|ks| == 2 && IsDigit(ks[0].key) && !IsDigit(ks[1].key) && !IsStar(ks[1].key))
  }

  /** The number an accepted field leaves in `finalDigit`: two digits give
      their value; a field with `'*'` in it gives the code of `'*'`, 42. */
  function EntryValue(ks: seq<Stroke>): (r: int)
    requires Entered(ks)
    ensures 0 <= r <= 99
  {
    if |ks| == 2 && IsDigit(ks[1].key) then TwoDigits(ks[0].key, ks[1].key) else '*' as int
  }

  /** An accepted field, each key in time, leaves its value in `finalDigit`
      and consumes exactly its own polls. */
  lemma {:induction false} FieldAccepted(s: State, ks: seq<Stroke>, rest: seq<Poll>)
    requires |s.digit| == 2 && InTime(ks) && Entered(ks)
    requires s.input == Typed(ks) + rest
    ensures var f := Select2Digits(s);
      f.ok && f.s.finalDigit as int == EntryValue(ks) && f.s.input == rest && EntryFrame(s, f.s)
  {
    if |ks| == 1 {
      assert ks == [ks[0]];
      TypedOne(ks[0], rest);
      assert ks[0].key == Key('*');
      Select2DigitsStarFirst(s, ks[0].pause, rest);
    } else {
      assert ks == [ks[0], ks[1]];
      TypedTwo(ks[0], ks[1], rest);
      Select2DigitsArrive(s, ks[0].pause, ks[0].key, ks[1].pause, ks[1].key, rest);
    }
  }

  /** A refused field fails `select2Digits` once its polls are consumed. */
  lemma {:induction false} FieldRefused(s: State, ks: seq<Stroke>, rest: seq<Poll>)
    requires |s.digit| == 2 && InTime(ks) && Refused(ks)
    requires s.input == Typed(ks) + rest
    ensures var f := Select2Digits(s);
      !f.ok && f.s.input == rest && EntryFrame(s, f.s)
  {
    if |ks| == 1 {
      assert ks == [ks[0]];
      TypedOne(ks[0], rest);
      SelectDigitArrives(s, ks[0].pause, ks[0].key, rest);
    } else {
      assert ks == [ks[0], ks[1]];
      TypedTwo(ks[0], ks[1], rest);
      Select2DigitsArrive(s, ks[0].pause, ks[0].key, ks[1].pause, ks[1].key, rest);
    }
  }

  /** The weekday prompt of `selectDigit` on one key typed in time. */
  lemma {:induction false} WeekdayTyped(s: State, w: Stroke, rest: seq<Poll>)
    requires w.pause < PollLimit
    requires s.input == Typed([w]) + rest
    ensures var d := SelectDigit(s);
      d.s.input == rest && (d.ok && 1 <= d.s.rec <= 7 <==> IsWeekdayKey(w.key)) &&
      (IsWeekdayKey(w.key) ==> d.s.rec as int == DigitVal(w.key))
  {
    TypedOne(w, rest);
    SelectDigitArrives(s, w.pause, w.key, rest);
  }

  // ---------------------------------------------------------------------
  // setAlarm

  /** The weekday prompt of `setAlarm` on a weekday key: the slot is
      selected and its `Wday` field set; nothing else changes but the entry state. */
  lemma {:induction false} SetAlarmWeekday(s: State, w: Stroke, rest: seq<Poll>)
    requires Wf(s) && w.pause < PollLimit && IsWeekdayKey(w.key)
    requires s.input == Typed([w]) + rest
    ensures var d := SelectDigit(s);
      var n := DigitVal(w.key) - 1;
      var s1 := d.s.(alm := d.s.alm[n := d.s.alm[n].(Wday := Uint8(n + 1))]);
      var s2 := s1.(wday := n as int8);
      d.ok && d.s.rec as int == n + 1 && d.s.input == rest &&
      SetAlarm(s) == SetAlarmHour(s2)
  {
    WeekdayTyped(s, w, rest);
  }

  /** The hour field on a value below 24: the hour is stored in RAM at
      once and the minute prompt follows. */
  lemma {:induction false} SetAlarmHourStores(s: State, hk: seq<Stroke>, rest: seq<Poll>)
    requires Wf(s) && 0 <= s.wday < 7
    requires InTime(hk) && Entered(hk) && EntryValue(hk) < 24
    requires s.input == Typed(hk) + rest
    ensures var w := s.wday as int; var h := Select2Digits(s);
      h.ok && h.s.finalDigit as int == EntryValue(hk) && h.s.input == rest &&
      EntryFrame(s, h.s) &&
      SetAlarmHour(s) == SetAlarmMinute(h.s.(alm := h.s.alm[w := h.s.alm[w].(Hour := Uint8(EntryValue(hk)))]))
  {
    FieldAccepted(s, hk, rest);
  }

  /** The hour field on `'*'`, which also covers the two digits 42 and a digit
      followed by `'*'`: the flag flips and the slot is saved with its old
      hour and minute. */
  lemma {:induction false} SetAlarmHourToggles(s: State, hk: seq<Stroke>, rest: seq<Poll>)
    requires Wf(s) && 0 <= s.wday < 7
    requires InTime(hk) && Entered(hk) && EntryValue(hk) == '*' as int
    requires s.input == Typed(hk) + rest
    ensures var r := SetAlarmHour(s); var w := s.wday as int;
      r.ok && r.s.dayIsSet == s.dayIsSet[w := !s.dayIsSet[w]] && r.s.alm == s.alm &&
      Record(r.s.store, w) ==
        [Flag(!s.dayIsSet[w]) as int as uint8, s.alm[w].Hour, s.alm[w].Minute] &&
      r.s.input == rest
  {
    FieldAccepted(s, hk, rest);
  }

  /** The hour field fails on a refused field or on a value from 24 to 99
      other than 42; nothing but the entry state changes. */
  lemma {:induction false} SetAlarmHourFails(s: State, hk: seq<Stroke>, rest: seq<Poll>)
    requires Wf(s) && 0 <= s.wday < 7 && InTime(hk)
    requires Refused(hk) || (Entered(hk) && EntryValue(hk) >= 24 && EntryValue(hk) != '*' as int)
    requires s.input == Typed(hk) + rest
    ensures var r := SetAlarmHour(s);
      !r.ok && r.s.alm == s.alm && r.s.dayIsSet == s.dayIsSet && r.s.store == s.store &&
      r.s.input == rest
  {
    if Refused(hk) {
      FieldRefused(s, hk, rest);
    } else {
      FieldAccepted(s, hk, rest);
    }
  }

  /** The minute field on a value below 60 (`'*'` gives minute 42) reaches
      the success point: the slot is enabled, the minute stored, and the
      record `{1, hour, minute}` written. */
  lemma {:induction false} SetAlarmMinuteSaves(s: State, mk: seq<Stroke>, rest: seq<Poll>)
    requires Wf(s) && 0 <= s.wday < 7
    requires InTime(mk) && Entered(mk) && EntryValue(mk) < 60
    requires s.input == Typed(mk) + rest
    ensures var w := s.wday as int; var r := SetAlarmMinute(s);
      r.ok && r.s.dayIsSet == s.dayIsSet[w := true] &&
      r.s.alm == s.alm[w := s.alm[w].(Minute := Uint8(EntryValue(mk)))] &&
      Record(r.s.store, w) == [1, s.alm[w].Hour, Uint8(EntryValue(mk))] &&
      (forall a :: 0 <= a < StoreSize && !(RecordAddr(w) <= a < RecordAddr(w) + 3) ==>
         r.s.store[a] == s.store[a]) &&
      r.s.input == rest && r.s.relay_t == s.relay_t && r.s.clock == s.clock
  {
    var w := s.wday as int;
    FieldAccepted(s, mk, rest);
    var m := Select2Digits(s);
    var t := m.s.(alm := m.s.alm[w := m.s.alm[w].(Minute := Uint8(m.s.finalDigit as int))]);
    assert SetAlarmMinute(s) == Out(CommitSlot(t, w, true), true);
  }

  /** The minute field fails on a refused field or a value from 60 to 99,
      and writes nothing. */
  lemma {:induction false} SetAlarmMinuteFails(s: State, mk: seq<Stroke>, rest: seq<Poll>)
    requires Wf(s) && 0 <= s.wday < 7 && InTime(mk)
    requires Refused(mk) || (Entered(mk) && EntryValue(mk) >= 60)
    requires s.input == Typed(mk) + rest
    ensures var r := SetAlarmMinute(s);
      !r.ok && r.s.alm == s.alm && r.s.dayIsSet == s.dayIsSet && r.s.store == s.store &&
      r.s.input == rest
  {
    if Refused(mk) {
      FieldRefused(s, mk, rest);
    } else {
      FieldAccepted(s, mk, rest);
    }
  }

  /** An hour below 24, then a minute below 60, on the selected slot. */
  lemma {:induction false} SetAlarmHourSets(s: State, hk: seq<Stroke>, mk: seq<Stroke>, rest: seq<Poll>)
    requires Wf(s) && 0 <= s.wday < 7 && InTime(hk) && InTime(mk)
    requires Entered(hk) && Entered(mk) && EntryValue(hk) < 24 && EntryValue(mk) < 60
    requires s.input == Typed(hk) + (Typed(mk) + rest)
    ensures var r := SetAlarmHour(s); var w := s.wday as int;
      r.ok && r.s.dayIsSet == s.dayIsSet[w := true] &&
      r.s.alm == s.alm[w := s.alm[w].(Hour := Uint8(EntryValue(hk)), Minute := Uint8(EntryValue(mk)))] &&
      Record(r.s.store, w) == [1, Uint8(EntryValue(hk)), Uint8(EntryValue(mk))] &&
      (forall a :: 0 <= a < StoreSize && !(RecordAddr(w) <= a < RecordAddr(w) + 3) ==>
         r.s.store[a] == s.store[a]) &&
      r.s.input == rest
  {
    var w := s.wday as int;
    SetAlarmHourStores(s, hk, Typed(mk) + rest);
    var h := Select2Digits(s);
    var s3 := h.s.(alm := h.s.alm[w := h.s.alm[w].(Hour := Uint8(EntryValue(hk)))]);
    SetAlarmMinuteSaves(s3, mk, rest);
  }

  /** A weekday, an hour below 24 and a minute below 60 set the slot: it is
      enabled, holds the new time, and its record `{1, hour, minute}` is
      written; no other slot and no other record changes. */
  lemma {:induction false} SetAlarmSets(s: State, w: Stroke, hk: seq<Stroke>, mk: seq<Stroke>, rest: seq<Poll>)
    requires Wf(s) && w.pause < PollLimit && IsWeekdayKey(w.key) && InTime(hk) && InTime(mk)
    requires Entered(hk) && Entered(mk) && EntryValue(hk) < 24 && EntryValue(mk) < 60
    requires s.input == Typed([w]) + (Typed(hk) + (Typed(mk) + rest))
    ensures var r := SetAlarm(s); var n := DigitVal(w.key) - 1;
      r.ok && r.s.dayIsSet == s.dayIsSet[n := true] &&
      r.s.alm[n].Hour as int == EntryValue(hk) &&
      r.s.alm[n].Minute as int == EntryValue(mk) &&
      (forall i :: 0 <= i < 7 && i != n ==> r.s.alm[i] == s.alm[i]) &&
      Record(r.s.store, n) == [1, Uint8(EntryValue(hk)), Uint8(EntryValue(mk))] &&
      (forall a :: 0 <= a < StoreSize && !(RecordAddr(n) <= a < RecordAddr(n) + 3) ==>
         r.s.store[a] == s.store[a]) &&
      r.s.input == rest && r.s.relay_t == s.relay_t && r.s.clock == s.clock
  {
    var n := DigitVal(w.key) - 1;
    SetAlarmWeekday(s, w, Typed(hk) + (Typed(mk) + rest));
    var d := SelectDigit(s);
    var s1 := d.s.(alm := d.s.alm[n := d.s.alm[n].(Wday := Uint8(n + 1))]);
    var s2 := s1.(wday := n as int8);
    SetAlarmHourSets(s2, hk, mk, rest);
  }

  /** `'*'` in the hour field (or the digits 42, or a digit and `'*'`) flips
      the slot's enabled flag and saves `{flag, old hour, old minute}`; hour
      and minute stay as they were and the minute prompt never comes. */
  lemma {:induction false} SetAlarmShortcut(s: State, w: Stroke, hk: seq<Stroke>, rest: seq<Poll>)
    requires Wf(s) && w.pause < PollLimit && IsWeekdayKey(w.key) && InTime(hk)
    requires Entered(hk) && EntryValue(hk) == '*' as int
    requires s.input == Typed([w]) + (Typed(hk) + rest)
    ensures var r := SetAlarm(s); var n := DigitVal(w.key) - 1;
      r.ok && r.s.dayIsSet == s.dayIsSet[n := !s.dayIsSet[n]] &&
      r.s.alm[n].Hour == s.alm[n].Hour && r.s.alm[n].Minute == s.alm[n].Minute &&
      Record(r.s.store, n) ==
        [Flag(!s.dayIsSet[n]) as int as uint8, s.alm[n].Hour, s.alm[n].Minute] &&
      r.s.input == rest
  {
    var n := DigitVal(w.key) - 1;
    SetAlarmWeekday(s, w, Typed(hk) + rest);
    var d := SelectDigit(s);
    var s1 := d.s.(alm := d.s.alm[n := d.s.alm[n].(Wday := Uint8(n + 1))]);
    var s2 := s1.(wday := n as int8);
    SetAlarmHourToggles(s2, hk, rest);
  }

  /** A key other than 1..7 at the weekday prompt fails the command before
      anything in the alarm table or the store changes. */
  lemma {:induction false} SetAlarmBadWeekday(s: State, w: Stroke, rest: seq<Poll>)
    requires Wf(s) && w.pause < PollLimit && !IsWeekdayKey(w.key)
    requires s.input == Typed([w]) + rest
    ensures var r := SetAlarm(s);
      !r.ok && r.s.alm == s.alm && r.s.dayIsSet == s.dayIsSet && r.s.store == s.store &&
      r.s.input == rest
  {
    WeekdayTyped(s, w, rest);
  }

  /** A refused hour field, or a value from 24 to 99 other than 42, fails
      `setAlarm`: the slot's time, its flag and the store are untouched. */
  lemma {:induction false} SetAlarmHourRejected(s: State, w: Stroke, hk: seq<Stroke>, rest: seq<Poll>)
    requires Wf(s) && w.pause < PollLimit && IsWeekdayKey(w.key) && InTime(hk)
    requires Refused(hk) || (Entered(hk) && EntryValue(hk) >= 24 && EntryValue(hk) != '*' as int)
    requires s.input == Typed([w]) + (Typed(hk) + rest)
    ensures var r := SetAlarm(s); var n := DigitVal(w.key) - 1;
      !r.ok && r.s.alm[n].Hour == s.alm[n].Hour && r.s.alm[n].Minute == s.alm[n].Minute &&
      r.s.dayIsSet == s.dayIsSet && r.s.store == s.store && r.s.input == rest
  {
    var n := DigitVal(w.key) - 1;
    SetAlarmWeekday(s, w, Typed(hk) + rest);
    var d := SelectDigit(s);
    var s1 := d.s.(alm := d.s.alm[n := d.s.alm[n].(Wday := Uint8(n + 1))]);
    var s2 := s1.(wday := n as int8);
    SetAlarmHourFails(s2, hk, rest);
  }

  /** A valid hour followed by a refused minute field or a minute from 60 to
      99 fails; the hour has already been stored in RAM and is not rolled
      back, but the flag and the store are untouched. */
  lemma {:induction false} SetAlarmMinuteRejected(s: State, w: Stroke, hk: seq<Stroke>,
                                                  mk: seq<Stroke>, rest: seq<Poll>)
    requires Wf(s) && w.pause < PollLimit && IsWeekdayKey(w.key) && InTime(hk) && InTime(mk)
    requires Entered(hk) && EntryValue(hk) < 24
    requires Refused(mk) || (Entered(mk) && EntryValue(mk) >= 60)
    requires s.input == Typed([w]) + (Typed(hk) + (Typed(mk) + rest))
    ensures var r := SetAlarm(s); var n := DigitVal(w.key) - 1;
      !r.ok && r.s.alm[n].Hour as int == EntryValue(hk) &&
      r.s.alm[n].Minute == s.alm[n].Minute &&
      r.s.dayIsSet == s.dayIsSet && r.s.store == s.store && r.s.input == rest
  {
    var n := DigitVal(w.key) - 1;
    SetAlarmWeekday(s, w, Typed(hk) + (Typed(mk) + rest));
    var d := SelectDigit(s);
    var s1 := d.s.(alm := d.s.alm[n := d.s.alm[n].(Wday := Uint8(n + 1))]);
    var s2 := s1.(wday := n as int8);
    SetAlarmHourStores(s2, hk, Typed(mk) + rest);
    var h := Select2Digits(s2);
    var s3 := h.s.(alm := h.s.alm[n := h.s.alm[n].(Hour := Uint8(EntryValue(hk)))]);
    SetAlarmMinuteFails(s3, mk, rest);
  }

  // ---------------------------------------------------------------------
  // setNewTime

  /** The minute field on a value below 60 (`'*'` gives minute 42): the
      success point is reached and the clock is written with `tm` carrying
      the new minute. */
  lemma {:induction false} SetNewTimeMinuteSets(s: State, nk: seq<Stroke>, rest: seq<Poll>)
    requires Wf(s) && InTime(nk) && Entered(nk) && EntryValue(nk) < 60
    requires s.input == Typed(nk) + rest
    ensures var r := SetNewTimeMinute(s);
      r.ok && r.s.tm == s.tm.(Minute := Uint8(EntryValue(nk))) && r.s.input == rest
  {
    FieldAccepted(s, nk, rest);
  }

  /** Hour and minute in range. */
  lemma {:induction false} SetNewTimeHourSets(s: State, hk: seq<Stroke>, nk: seq<Stroke>, rest: seq<Poll>)
    requires Wf(s) && InTime(hk) && InTime(nk) && Entered(hk) && Entered(nk)
    requires EntryValue(hk) < 24 && EntryValue(nk) < 60
    requires s.input == Typed(hk) + (Typed(nk) + rest)
    ensures var r := SetNewTimeHour(s);
      r.ok && r.s.input == rest &&
      r.s.tm == s.tm.(Hour := Uint8(EntryValue(hk)), Minute := Uint8(EntryValue(nk)))
  {
    FieldAccepted(s, hk, Typed(nk) + rest);
    var e := Select2Digits(s);
    var s5 := e.s.(tm := e.s.tm.(Hour := Uint8(e.s.finalDigit as int)));
    SetNewTimeMinuteSets(s5, nk, rest);
  }

  /** Weekday, hour and minute in range. */
  lemma {:induction false} SetNewTimeWeekdaySets(s: State, w: Stroke, hk: seq<Stroke>,
                                                 nk: seq<Stroke>, rest: seq<Poll>)
    requires Wf(s) && w.pause < PollLimit && IsWeekdayKey(w.key)
    requires InTime(hk) && InTime(nk) && Entered(hk) && Entered(nk)
    requires EntryValue(hk) < 24 && EntryValue(nk) < 60
    requires s.input == Typed([w]) + (Typed(hk) + (Typed(nk) + rest))
    ensures var r := SetNewTimeWeekday(s);
      r.ok && r.s.input == rest &&
      r.s.tm == s.tm.(Wday := Uint8(DigitVal(w.key)), Hour := Uint8(EntryValue(hk)),
                      Minute := Uint8(EntryValue(nk)))
  {
    WeekdayTyped(s, w, Typed(hk) + (Typed(nk) + rest));
    var d := SelectDigit(s);
    var s4 := d.s.(tm := d.s.tm.(Wday := Uint8(d.s.rec as int)));
    SetNewTimeHourSets(s4, hk, nk, rest);
  }

  /** A year (any accepted field, `'*'` giving 2042), then weekday, hour and
      minute in range. */
  lemma {:induction false} SetNewTimeYearSets(s: State, yk: seq<Stroke>, w: Stroke, hk: seq<Stroke>,
                                              nk: seq<Stroke>, rest: seq<Poll>)
    requires Wf(s) && InTime(yk) && Entered(yk) && w.pause < PollLimit && IsWeekdayKey(w.key)
    requires InTime(hk) && InTime(nk) && Entered(hk) && Entered(nk)
    requires EntryValue(hk) < 24 && EntryValue(nk) < 60
    requires s.input == Typed(yk) + (Typed([w]) + (Typed(hk) + (Typed(nk) + rest)))
    ensures var r := SetNewTimeYear(s);
      r.ok && r.s.input == rest &&
      r.s.tm == s.tm.(Year := Uint8(CalendarYrToTm(2000 + EntryValue(yk))),
                      Wday := Uint8(DigitVal(w.key)), Hour := Uint8(EntryValue(hk)),
                      Minute := Uint8(EntryValue(nk)))
  {
    FieldAccepted(s, yk, Typed([w]) + (Typed(hk) + (Typed(nk) + rest)));
    var c := Select2Digits(s);
    var s3 := c.s.(tm := c.s.tm.(Year := Uint8(CalendarYrToTm(2000 + c.s.finalDigit as int))));
    SetNewTimeWeekdaySets(s3, w, hk, nk, rest);
  }

  /** Month, year, weekday, hour and minute in range. */
  lemma {:induction false} SetNewTimeMonthSets(s: State, mo: seq<Stroke>, yk: seq<Stroke>, w: Stroke,
                                               hk: seq<Stroke>, nk: seq<Stroke>, rest: seq<Poll>)
    requires Wf(s) && InTime(mo) && Entered(mo) && 1 <= EntryValue(mo) <= 12
    requires InTime(yk) && Entered(yk) && w.pause < PollLimit && IsWeekdayKey(w.key)
    requires InTime(hk) && InTime(nk) && Entered(hk) && Entered(nk)
    requires EntryValue(hk) < 24 && EntryValue(nk) < 60
    requires s.input == Typed(mo) + (Typed(yk) + (Typed([w]) + (Typed(hk) + (Typed(nk) + rest))))
    ensures var r := SetNewTimeMonth(s);
      r.ok && r.s.input == rest &&
      r.s.tm == s.tm.(Month := Uint8(EntryValue(mo)),
                      Year := Uint8(CalendarYrToTm(2000 + EntryValue(yk))),
                      Wday := Uint8(DigitVal(w.key)), Hour := Uint8(EntryValue(hk)),
                      Minute := Uint8(EntryValue(nk)))
  {
    FieldAccepted(s, mo, Typed(yk) + (Typed([w]) + (Typed(hk) + (Typed(nk) + rest))));
    var b := Select2Digits(s);
    var s2 := b.s.(tm := b.s.tm.(Month := Uint8(b.s.finalDigit as int)));
    SetNewTimeYearSets(s2, yk, w, hk, nk, rest);
  }

  /** Day, month, year, weekday, hour and minute in range, each typed with
      any pauses that fit the poll budget: `setNewTime` succeeds and the
      clock is written with exactly those fields (the year as 2000 + n, kept
      from 1970 on; the seconds as they were), on a chip that answers. */
  lemma {:induction false} SetNewTimeSets(s: State, dk: seq<Stroke>, mo: seq<Stroke>, yk: seq<Stroke>,
                                          w: Stroke, hk: seq<Stroke>, nk: seq<Stroke>, rest: seq<Poll>)
    requires Wf(s) && InTime(dk) && Entered(dk) && 1 <= EntryValue(dk) <= 31
    requires InTime(mo) && Entered(mo) && 1 <= EntryValue(mo) <= 12
    requires InTime(yk) && Entered(yk) && w.pause < PollLimit && IsWeekdayKey(w.key)
    requires InTime(hk) && InTime(nk) && Entered(hk) && Entered(nk)
    requires EntryValue(hk) < 24 && EntryValue(nk) < 60
    requires s.input ==
      Typed(dk) + (Typed(mo) + (Typed(yk) + (Typed([w]) + (Typed(hk) + (Typed(nk) + rest)))))
    ensures var r := SetNewTime(s);
      var t := Tm(s.tm.Second, Uint8(EntryValue(nk)), Uint8(EntryValue(hk)),
                  Uint8(DigitVal(w.key)), Uint8(EntryValue(dk)), Uint8(EntryValue(mo)),
                  Uint8(CalendarYrToTm(2000 + EntryValue(yk))));
      r.ok && r.s.tm == t && r.s.clock == RtcWrite(s.clock, t) && r.s.input == rest &&
      r.s.store == s.store && r.s.alm == s.alm && r.s.dayIsSet == s.dayIsSet
  {
    FieldAccepted(s, dk, Typed(mo) + (Typed(yk) + (Typed([w]) + (Typed(hk) + (Typed(nk) + rest)))));
    var a := Select2Digits(s);
    var s1 := a.s.(tm := a.s.tm.(Day := Uint8(a.s.finalDigit as int)));
    SetNewTimeMonthSets(s1, mo, yk, w, hk, nk, rest);
    assert SetNewTime(s) == SetNewTimeMonth(s1);
  }

  /** A refused day field, or a day outside 1..31 (`'*'` is 42), fails
      `setNewTime`: `tm` and the clock are as they were. */
  lemma {:induction false} SetNewTimeDayRejected(s: State, dk: seq<Stroke>, rest: seq<Poll>)
    requires Wf(s) && InTime(dk)
    requires Refused(dk) || (Entered(dk) && !(1 <= EntryValue(dk) <= 31))
    requires s.input == Typed(dk) + rest
    ensures var r := SetNewTime(s);
      !r.ok && r.s.tm == s.tm && r.s.clock == s.clock && r.s.input == rest
  {
    if Refused(dk) {
      FieldRefused(s, dk, rest);
    } else {
      FieldAccepted(s, dk, rest);
    }
  }

  /** A refused month field or a month outside 1..12 fails, leaving `tm`
      as it was after the day and the clock unwritten. */
  lemma {:induction false} SetNewTimeMonthRejected(s: State, mo: seq<Stroke>, rest: seq<Poll>)
    requires Wf(s) && InTime(mo)
    requires Refused(mo) || (Entered(mo) && !(1 <= EntryValue(mo) <= 12))
    requires s.input == Typed(mo) + rest
    ensures var r := SetNewTimeMonth(s);
      !r.ok && r.s.tm == s.tm && r.s.clock == s.clock && r.s.input == rest
  {
    if Refused(mo) {
      FieldRefused(s, mo, rest);
    } else {
      FieldAccepted(s, mo, rest);
    }
  }

  /** The year is only refused as a field: every accepted value is taken. */
  lemma {:induction false} SetNewTimeYearRejected(s: State, yk: seq<Stroke>, rest: seq<Poll>)
    requires Wf(s) && InTime(yk) && Refused(yk)
    requires s.input == Typed(yk) + rest
    ensures var r := SetNewTimeYear(s);
      !r.ok && r.s.tm == s.tm && r.s.clock == s.clock && r.s.input == rest
  {
    FieldRefused(s, yk, rest);
  }

  /** A key other than 1..7 at the weekday prompt fails `setNewTime`. */
  lemma {:induction false} SetNewTimeWeekdayRejected(s: State, w: Stroke, rest: seq<Poll>)
    requires Wf(s) && w.pause < PollLimit && !IsWeekdayKey(w.key)
    requires s.input == Typed([w]) + rest
    ensures var r := SetNewTimeWeekday(s);
      !r.ok && r.s.tm == s.tm && r.s.clock == s.clock && r.s.input == rest
  {
    WeekdayTyped(s, w, rest);
  }

  /** A refused hour field or an hour from 24 to 99 (`'*'` is 42) fails. */
  lemma {:induction false} SetNewTimeHourRejected(s: State, hk: seq<Stroke>, rest: seq<Poll>)
    requires Wf(s) && InTime(hk)
    requires Refused(hk) || (Entered(hk) && EntryValue(hk) >= 24)
    requires s.input == Typed(hk) + rest
    ensures var r := SetNewTimeHour(s);
      !r.ok && r.s.tm == s.tm && r.s.clock == s.clock && r.s.input == rest
  {
    if Refused(hk) {
      FieldRefused(s, hk, rest);
    } else {
      FieldAccepted(s, hk, rest);
    }
  }

  /** A refused minute field or a minute from 60 to 99 fails, and the clock
      is not written although every earlier field is already in `tm`. */
  lemma {:induction false} SetNewTimeMinuteRejected(s: State, nk: seq<Stroke>, rest: seq<Poll>)
    requires Wf(s) && InTime(nk)
    requires Refused(nk) || (Entered(nk) && EntryValue(nk) >= 60)
    requires s.input == Typed(nk) + rest
    ensures var r := SetNewTimeMinute(s);
      !r.ok && r.s.tm == s.tm && r.s.clock == s.clock && r.s.input == rest
  {
    if Refused(nk) {
      FieldRefused(s, nk, rest);
    } else {
      FieldAccepted(s, nk, rest);
    }
  }

  /** A latched `err` makes `processRequest` a no-op: the pending byte is not
      consumed, so every later tick finds it again. */
  lemma {:induction false} ProcessRequestLatched(s: State)
    requires Wf(s) && s.err
    ensures ProcessRequest(s) == s
  {
  }

  /** `'!'` flips the relay and changes nothing else but `rec` and the input. */
  lemma {:induction false} ProcessRequestToggle(s: State, rest: seq<Poll>)
    requires Wf(s) && !s.err && s.inProcess
    requires s.input == [Some(Key('!'))] + rest
    ensures ProcessRequest(s) == s.(relay_t := !s.relay_t, rec := '!' as int as int8, input := rest)
  {
  }

  /** A byte that is no command is only consumed: nothing else changes. */
  lemma {:induction false} ProcessRequestInvalid(s: State, b: uint8, rest: seq<Poll>)
    requires Wf(s) && !s.err && s.inProcess
    requires b as int !in {'?' as int, 'a' as int, 't' as int, '!' as int}
    requires s.input == [Some(b)] + rest
    ensures ProcessRequest(s) == s.(rec := Int8(b as int), input := rest)
  {
    if b < 128 {
      assert Int8(b as int) as int == b as int;
    } else {
      assert Int8(b as int) < 0;
    }
  }
}
