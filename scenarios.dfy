/** Whole interactions with the lamp: the evaluator over a morning, console
    sessions typed at `processRequest`, and an alarm that survives a reset. */
module Scenarios {
  import opened Bytes
  import opened Types
  import opened Entry
  import opened Alarm
  import opened Commands
  import opened CommandProperties
  import opened Driver

  /** Monday's slot (Wday 2) is set for 06:34, the relay is off, and the
      previous reading was a Monday. Readings at 06:34, 06:35 and 07:34
      turn the relay on, keep it on with the debounce flag cleared, and
      turn it off again. */
  lemma {:induction false} MorningAlarm(s: State, t1: Tm, t2: Tm, t3: Tm)
    requires Wf(s) && s.tm.Wday == 2 && s.dayIsSet[1] && !s.relay_t && !s.recentlyFlipped
    requires s.alm[1].Hour == 6 && s.alm[1].Minute == 34
    requires t1.Wday == 2 && t1.Hour == 6 && t1.Minute == 34
    requires t2.Wday == 2 && t2.Hour == 6 && t2.Minute == 35
    requires t3.Wday == 2 && t3.Hour == 7 && t3.Minute == 34
    ensures var r1 := CheckAlarm(s.(clock := Ok(t1)));
      var r2 := CheckAlarm(r1.(clock := Ok(t2)));
      var r3 := CheckAlarm(r2.(clock := Ok(t3)));
      r1.relay_t && r1.recentlyFlipped && r2.relay_t && !r2.recentlyFlipped && !r3.relay_t
  {
    var s1 := s.(clock := Ok(t1));
    CheckAlarmOnMatch(s1);
    var r1 := CheckAlarm(s1);
    var s2 := r1.(clock := Ok(t2));
    CheckAlarmOtherTime(s2);
    var r2 := CheckAlarm(s2);
    var s3 := r2.(clock := Ok(t3));
    CheckAlarmAutoOff(s3);
  }

  /** A command byte reaching `processRequest`: it is read into `rec` and its
      command runs exactly once. */
  lemma {:induction false} ProcessRequestDispatches(s: State, b: uint8, rest: seq<Poll>)
    requires Wf(s) && !s.err && s.inProcess
    requires s.input == [Some(b)] + rest
    ensures ProcessRequest(s) == Dispatch(s.(rec := Int8(b as int), input := rest)).(inProcess := true)
  {
  }

  /** `a` having been read, `2`, `0`, `6`, `3`, `4`, each after a pause
      within the poll budget, make `setAlarm` set Monday's alarm to 06:34,
      enabled, and persist `{1, 6, 34}` at 0x0B. */
  lemma {:induction false} SetAlarmMonday(t: State, p: seq<nat>, rest: seq<Poll>)
    requires Wf(t) && |p| == 5 && forall j :: 0 <= j < 5 ==> p[j] < PollLimit
    requires t.input == Typed([Stroke(p[0], Key('2'))]) +
      (Typed([Stroke(p[1], Key('0')), Stroke(p[2], Key('6'))]) +
       (Typed([Stroke(p[3], Key('3')), Stroke(p[4], Key('4'))]) + rest))
    ensures var r := SetAlarm(t).s;
      r.dayIsSet[1] && r.alm[1].Hour == 6 && r.alm[1].Minute == 34 &&
      r.store[0x0B] == 1 && r.store[0x0C] == 6 && r.store[0x0D] == 34 && r.input == rest
  {
    var w := Stroke(p[0], Key('2'));
    var hk := [Stroke(p[1], Key('0')), Stroke(p[2], Key('6'))];
    var mk := [Stroke(p[3], Key('3')), Stroke(p[4], Key('4'))];
    MondayKeys(p);
    SetAlarmSets(t, w, hk, mk, rest);
    RecordOfMonday(SetAlarm(t).s.store);
  }

  /** The keys `2`, `0` `6`, `3` `4` as fields. */
  lemma {:induction false} MondayKeys(p: seq<nat>)
    requires |p| == 5 && forall j :: 0 <= j < 5 ==> p[j] < PollLimit
    ensures var hk := [Stroke(p[1], Key('0')), Stroke(p[2], Key('6'))];
      var mk := [Stroke(p[3], Key('3')), Stroke(p[4], Key('4'))];
      DigitVal(Key('2')) == 2 && IsWeekdayKey(Key('2')) &&
      InTime(hk) && InTime(mk) && Entered(hk) && Entered(mk) &&
      EntryValue(hk) == 6 && EntryValue(mk) == 34
  {
  }

  /** Monday's record lies at registers 0x0B..0x0D. */
  lemma {:induction false} RecordOfMonday(store: seq<uint8>)
    requires |store| == StoreSize && Record(store, 1) == [1, Uint8(6), Uint8(34)]
    ensures store[0x0B] == 1 && store[0x0C] == 6 && store[0x0D] == 34
  {
    assert RecordAddr(1) == 0x0B;
    assert store[0x0B] == Record(store, 1)[0];
    assert store[0x0C] == Record(store, 1)[1];
    assert store[0x0D] == Record(store, 1)[2];
  }

  /** `a`, then `2`, `0`, `6`, `3`, `4` with pauses: Monday's alarm is set to
      06:34, enabled and persisted as `{1, 6, 34}` at register 0x0B. */
  lemma {:induction false} SessionSetAlarm(s: State, p: seq<nat>, rest: seq<Poll>)
    requires Wf(s) && !s.err && s.inProcess
    requires |p| == 5 && forall j :: 0 <= j < 5 ==> p[j] < PollLimit
    requires s.input == [Some(Key('a'))] + (Typed([Stroke(p[0], Key('2'))]) +
      (Typed([Stroke(p[1], Key('0')), Stroke(p[2], Key('6'))]) +
       (Typed([Stroke(p[3], Key('3')), Stroke(p[4], Key('4'))]) + rest)))
    ensures var r := ProcessRequest(s);
      r.dayIsSet[1] && r.alm[1].Hour == 6 && r.alm[1].Minute == 34 &&
      r.store[0x0B] == 1 && r.store[0x0C] == 6 && r.store[0x0D] == 34 &&
      r.input == rest && r.inProcess
  {
    var keys := s.input[1..];
    ProcessRequestDispatches(s, Key('a'), keys);
    var t := s.(rec := Int8(Key('a') as int), input := keys);
    SetAlarmMonday(t, p, rest);
    assert ProcessRequest(s) == SetAlarm(t).s.(inProcess := true);
  }

  /** `a`, `2`, `*` with pauses: Monday's enabled flag flips, its time stays,
      and the flipped flag is persisted with the old time. */
  lemma {:induction false} SessionToggleAlarm(s: State, p0: nat, p1: nat, rest: seq<Poll>)
    requires Wf(s) && !s.err && s.inProcess && p0 < PollLimit && p1 < PollLimit
    requires s.input == [Some(Key('a'))] +
      (Typed([Stroke(p0, Key('2'))]) + (Typed([Stroke(p1, Key('*'))]) + rest))
    ensures var r := ProcessRequest(s);
      r.dayIsSet[1] == !s.dayIsSet[1] && r.alm[1].Hour == s.alm[1].Hour &&
      r.alm[1].Minute == s.alm[1].Minute &&
      Record(r.store, 1) == [Flag(!s.dayIsSet[1]) as int as uint8, s.alm[1].Hour, s.alm[1].Minute] &&
      r.input == rest
  {
    var keys := s.input[1..];
    ProcessRequestDispatches(s, Key('a'), keys);
    var t := s.(rec := Int8(Key('a') as int), input := keys);
    var hk := [Stroke(p1, Key('*'))];
    assert InTime(hk) && EntryValue(hk) == '*' as int;
    SetAlarmShortcut(t, Stroke(p0, Key('2')), hk, rest);
    assert DigitVal(Key('2')) - 1 == 1;
    assert ProcessRequest(s) == SetAlarm(t).s.(inProcess := true);
  }

  /** `t`, `0`, `5`, `1`, `3` with pauses: the month 13 is refused, so the
      clock is not written; the day 5 already assigned to `tm` is not rolled back. */
  lemma {:induction false} SessionBadMonth(s: State, p: seq<nat>, rest: seq<Poll>)
    requires Wf(s) && !s.err && s.inProcess
    requires |p| == 4 && forall j :: 0 <= j < 4 ==> p[j] < PollLimit
    requires s.input == [Some(Key('t'))] +
      (Typed([Stroke(p[0], Key('0')), Stroke(p[1], Key('5'))]) +
       (Typed([Stroke(p[2], Key('1')), Stroke(p[3], Key('3'))]) + rest))
    ensures var r := ProcessRequest(s);
      r.clock == s.clock && r.tm == s.tm.(Day := 5) && r.store == s.store && r.alm == s.alm &&
      r.input == rest
  {
    var dk := [Stroke(p[0], Key('0')), Stroke(p[1], Key('5'))];
    var mo := [Stroke(p[2], Key('1')), Stroke(p[3], Key('3'))];
    var keys := s.input[1..];
    ProcessRequestDispatches(s, Key('t'), keys);
    var t := s.(rec := Int8(Key('t') as int), input := keys);
    assert InTime(dk) && EntryValue(dk) == 5;
    assert InTime(mo) && EntryValue(mo) == 13;
    FieldAccepted(t, dk, Typed(mo) + rest);
    var a := Select2Digits(t);
    var t1 := a.s.(tm := a.s.tm.(Day := Uint8(a.s.finalDigit as int)));
    assert SetNewTime(t) == SetNewTimeMonth(t1);
    SetNewTimeMonthRejected(t1, mo, rest);
    assert ProcessRequest(s) == SetNewTime(t).s.(inProcess := true);
  }

  /** What `setup` loads for slot `w` with the clock running is that slot's record. */
  lemma {:induction false} ReloadRecord(store: seq<uint8>, w: int, t: Tm, input: seq<Poll>)
    requires |store| == StoreSize && 0 <= w < 7
    ensures var q := Setup(Ok(t), store, input); var rec := Record(store, w);
      q.dayIsSet[w] == (rec[0] != 0) && q.alm[w].Hour == rec[1] && q.alm[w].Minute == rec[2]
  {
    SetupLoads(t, store, input);
  }

  /** A slot set through `setAlarm` is what `setup` loads after a reset with
      the clock running: the store carries it across. */
  lemma {:induction false} AlarmSurvivesReset(s: State, w: Stroke, hk: seq<Stroke>, mk: seq<Stroke>,
                                              rest: seq<Poll>, t: Tm, input: seq<Poll>)
    requires Wf(s) && w.pause < PollLimit && IsWeekdayKey(w.key) && InTime(hk) && InTime(mk)
    requires Entered(hk) && Entered(mk) && EntryValue(hk) < 24 && EntryValue(mk) < 60
    requires s.input == Typed([w]) + (Typed(hk) + (Typed(mk) + rest))
    ensures var n := DigitVal(w.key) - 1;
      var q := Setup(Ok(t), SetAlarm(s).s.store, input);
      q.dayIsSet[n] && q.alm[n].Hour as int == EntryValue(hk) &&
      q.alm[n].Minute as int == EntryValue(mk)
  {
    SetAlarmSets(s, w, hk, mk, rest);
    ReloadRecord(SetAlarm(s).s.store, DigitVal(w.key) - 1, t, input);
  }

  /** The enabled flag flipped by the `'*'` shortcut is what `setup` loads
      after a reset with the clock running. */
  lemma {:induction false} ToggleSurvivesReset(s: State, w: Stroke, hk: seq<Stroke>, rest: seq<Poll>,
                                               t: Tm, input: seq<Poll>)
    requires Wf(s) && w.pause < PollLimit && IsWeekdayKey(w.key) && InTime(hk)
    requires Entered(hk) && EntryValue(hk) == '*' as int
    requires s.input == Typed([w]) + (Typed(hk) + rest)
    ensures var n := DigitVal(w.key) - 1;
      var q := Setup(Ok(t), SetAlarm(s).s.store, input);
      q.dayIsSet[n] == !s.dayIsSet[n] && q.alm[n].Hour == s.alm[n].Hour &&
      q.alm[n].Minute == s.alm[n].Minute
  {
    var n := DigitVal(w.key) - 1;
    SetAlarmShortcut(s, w, hk, rest);
    ReloadSlot(SetAlarm(s).s.store, n, !s.dayIsSet[n], s.alm[n].Hour, s.alm[n].Minute, t, input);
  }

  /** A record `{flag, hour, minute}` reloads as that flag, hour and minute. */
  lemma {:induction false} ReloadSlot(store: seq<uint8>, n: int, on: bool, h: uint8, m: uint8,
                                      t: Tm, input: seq<Poll>)
    requires |store| == StoreSize && 0 <= n < 7
    requires Record(store, n) == [Flag(on) as int as uint8, h, m]
    ensures var q := Setup(Ok(t), store, input);
      q.dayIsSet[n] == on && q.alm[n].Hour == h && q.alm[n].Minute == m
  {
    ReloadRecord(store, n, t, input);
  }
}
