/** Two places where the sketch as written departs from what it evidently
    intends; the rest of the model uses the intended behaviour. */
module Findings {
  import opened Bytes
  import opened Types
  import opened Entry
  import opened Alarm
  import opened Driver

  // ---------------------------------------------------------------------
  // `selectVal`'s poll counter (src/rtc_lamp.cpp:192-201)

  /** `time++` on the `char` counter: 127 wraps to -128. */
  function PollCounterStep(time: int8): (r: int8)
    ensures time < 127 ==> r as int == time as int + 1
    ensures time == 127 ==> r == -128
  {
    Int8(time as int + 1)
  }

  /** `selectVal` as written, from counter value `time`: `Some` of the
      outcome when the call returns, `None` when it never does (no byte
      will ever arrive and the loop polls on for ever). */
  function SelectValAsWritten(s: State, time: int8): (r: Option<Out>)
    decreases |s.input|
  {
    if time as int >= PollLimit then Some(Out(s, false))
    else if Available(s) then Some(Out(ReadRec(s), true))
    else if s.input == [] then None
    else SelectValAsWritten(IdlePoll(s), PollCounterStep(time))
  }

  /** The `char` counter never reaches 200, so the call as written never
      times out: whenever it returns, it has read a byte. */
  lemma {:induction false} SelectValAsWrittenNeverTimesOut(s: State, time: int8)
    ensures var r := SelectValAsWritten(s, time); r.Some? ==> r.value.ok
    decreases |s.input|
  {
    if Available(s) || s.input == [] {
    } else {
      SelectValAsWrittenNeverTimesOut(IdlePoll(s), PollCounterStep(time));
    }
  }

  /** With nothing ever typed, the call as written never returns. */
  lemma {:induction false} SelectValAsWrittenHangs(s: State, time: int8, k: nat)
    requires s.input == Nones(k)
    ensures SelectValAsWritten(s, time) == None
    decreases k
  {
    if k > 0 {
      assert Nones(k) == [None] + Nones(k - 1);
      SelectValAsWrittenHangs(IdlePoll(s), PollCounterStep(time), k - 1);
    }
  }

  /** A byte after any number of empty polls is read by the call as written. */
  lemma {:induction false} SelectValAsWrittenArrives(s: State, time: int8, k: nat, b: uint8, rest: seq<Poll>)
    requires s.input == Nones(k) + [Some(b)] + rest
    ensures SelectValAsWritten(s, time) == Some(Out(s.(rec := Int8(b as int), input := rest), true))
    decreases k
  {
    if k > 0 {
      assert Nones(k) == [None] + Nones(k - 1);
      var t := IdlePoll(s);
      assert t.input == Nones(k - 1) + [Some(b)] + rest;
      SelectValAsWrittenArrives(t, PollCounterStep(time), k - 1, b, rest);
    } else {
      assert s.input == [Some(b)] + rest;
    }
  }

  /** A byte typed after 200 empty polls: the intended `selectVal` has given
      up and left it pending, the one as written reads it. */
  lemma {:induction false} SelectValCounterexample(s: State, k: nat, b: uint8, rest: seq<Poll>)
    requires k == PollLimit && s.input == Nones(k) + [Some(b)] + rest
    ensures SelectVal(s) == Out(s.(input := [Some(b)] + rest), false)
    ensures SelectValAsWritten(s, 0) == Some(Out(s.(rec := Int8(b as int), input := rest), true))
  {
    SelectValAsWrittenArrives(s, 0, k, b, rest);
    forall j | 0 <= j < PollLimit && j < |s.input| ensures s.input[j].None? {
      assert s.input[j] == Nones(k)[j];
    }
    SelectValTimesOut(s);
    PollsAfterNones(k, Some(b), rest);
  }

  /** What follows `k` empty polls. */
  lemma {:induction false} PollsAfterNones(k: nat, p: Poll, rest: seq<Poll>)
    ensures (Nones(k) + [p] + rest)[k..] == [p] + rest
  {
    var q := Nones(k) + [p] + rest;
    assert |q| == k + 1 + |rest|;
    forall j | 0 <= j < |q| - k ensures q[k..][j] == ([p] + rest)[j] {
      assert q[k + j] == ([p] + rest)[j];
    }
  }

  // ---------------------------------------------------------------------
  // `checkAlarm`'s slot index (src/rtc_lamp.cpp:385-387)

  /** The index at which `checkAlarm` as written reads `dayIsSet`: `tm.Wday - 1`
      of the previous reading, as a `char`, read whenever the new reading
      succeeds. */
  function ConsultedSlotAsWritten(s: State): (r: Option<int>)
    ensures r.Some? <==> s.clock.Ok?
    ensures r.Some? && s.tm.Wday as int <= 128 ==> r.value == s.tm.Wday as int - 1
  {
    if UpdateTime(s).ok then Some(Slot(s) as int) else None
  }

  /** A previous reading with weekday 0 makes `checkAlarm` as written read
      `dayIsSet[-1]`, outside the array, as soon as the clock answers; the
      corrected `CheckAlarm` then leaves the relay and its flag alone. */
  lemma {:induction false} SlotOutOfRange(s: State)
    requires Wf(s) && s.tm.Wday == 0 && s.clock.Ok?
    ensures ConsultedSlotAsWritten(s) == Some(-1)
    ensures CheckAlarm(s).relay_t == s.relay_t && CheckAlarm(s).recentlyFlipped == s.recentlyFlipped
  {
    CheckAlarmNoEvaluation(s);
  }

  /** A start-up without a chip on the bus leaves `tm` zero-filled (and a
      halted chip whose weekday register holds 0 leaves weekday 0), so once
      the chip answers, the first `checkAlarm` as written reads
      `dayIsSet[-1]`. */
  lemma {:induction false} SlotOutOfRangeAfterFailedStart(clock: ClockRead, store: seq<uint8>,
                                                          input: seq<Poll>, t: Tm)
    requires |store| == StoreSize
    requires clock.Absent? || (clock.Stopped? && clock.time.Wday == 0)
    ensures ConsultedSlotAsWritten(Setup(clock, store, input).(clock := Ok(t))) == Some(-1)
  {
    SetupDefaults(clock, store, input);
    SlotOutOfRange(Setup(clock, store, input).(clock := Ok(t)));
  }
}
