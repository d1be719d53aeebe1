/** The sketch as it runs: its globals as the fields of one object, and each
    routine of src/rtc_lamp.cpp as a method that updates them in place. Each
    method is proved to leave the object in the state the corresponding
    function of `Alarm`, `Entry`, `Commands` or `Driver` computes. */
module Lamp {
  import opened Bytes
  import opened Types
  import Entry
  import Alarm
  import Commands
  import Driver

  class RtcLamp {
    // the globals of src/rtc_lamp.cpp:21-36
    var tm: Tm
    const alm: array<Tm>
    const dayIsSet: array<bool>
    var relay_t: bool
    var recentlyFlipped: bool
    var rec: int8
    const digit: array<int8>
    var finalDigit: int8
    var cnt: int8
    var err: bool
    var run: bool
    var inProcess: bool
    var wday: int8
    const mem: array<int8>
    // the collaborators: the clock's answer, the chip's RAM, the pending polls
    var clock: ClockRead
    const store: array<uint8>
    var input: seq<Poll>

    /** The arrays have the sketch's sizes; the two `char` buffers are distinct. */
    ghost predicate Valid()
    {
      alm.Length == 7 && dayIsSet.Length == 7 && digit.Length == 2 && mem.Length == 3 &&
      store.Length == StoreSize && digit != mem
    }

    /** The object's state as a value. */
    ghost function Abs(): (r: State)
      requires Valid()
      reads this, alm, dayIsSet, digit, mem, store
      ensures Wf(r)
    {
      State(tm, alm[..], dayIsSet[..], relay_t, recentlyFlipped, rec, [digit[0], digit[1]],
            finalDigit, cnt, err, run, inProcess, wday, [mem[0], mem[1], mem[2]], clock, store[..],
            input)
    }

    /** `mySerial.available()`. */
    predicate Pending()
      reads this
    {
      input != [] && input[0].Some?
    }

    /** The wait after a poll that found nothing uses up that poll. */
    method Wait()
      requires Valid() && !Pending()
      modifies this
      ensures Valid() && Abs() == Entry.IdlePoll(old(Abs()))
    {
      if input != [] {
        input := input[1..];
      }
    }

    /** `rec = mySerial.read()`: -1 when nothing is pending. */
    method Read()
      requires Valid()
      modifies this
      ensures Valid() && Abs() == Entry.ReadRec(old(Abs()))
    {
      if Pending() {
        rec := Int8(input[0].value as int);
        input := input[1..];
      } else {
        rec := -1;
      }
    }

    /** `updateTime()` (src/rtc_lamp.cpp:362-381). */
    method UpdateTime() returns (ok: bool)
      requires Valid()
      modifies this
      ensures Valid() && Abs() == Alarm.UpdateTime(old(Abs())).s
      ensures ok == Alarm.UpdateTime(old(Abs())).ok
    {
      match clock
      case Ok(t) =>
        tm := t;
        err := false;
        run := true;
        return true;
      case Stopped(t) =>
        tm := t;
        err := false;
        run := false;
        return false;
      case Absent =>
        err := true;
        run := false;
        return false;
    }

    /** `relayToggle()` (src/rtc_lamp.cpp:451-454). */
    method RelayToggle()
      requires Valid()
      modifies this
      ensures Valid() && Abs() == Alarm.RelayToggle(old(Abs()))
    {
      relay_t := !relay_t;
    }

    /** `relayOff()` (src/rtc_lamp.cpp:457-460). */
    method RelayOff()
      requires Valid()
      modifies this
      ensures Valid() && Abs() == Alarm.RelayOff(old(Abs()))
    {
      relay_t := false;
    }

    /** `checkAlarm()` (src/rtc_lamp.cpp:384-410), with the range check on
        the slot that `Alarm.CheckAlarm` adds. */
    method CheckAlarm()
      requires Valid()
      modifies this
      ensures Valid() && Abs() == Alarm.CheckAlarm(old(Abs()))
    {
      wday := Int8(tm.Wday as int - 1);
      var ok := UpdateTime();
      if !ok || !(0 <= wday < 7) || !dayIsSet[wday] {
        return;
      }
      var a := alm[wday];
      if tm.Hour == a.Hour {
        if tm.Minute == a.Minute {
          if !recentlyFlipped {
            RelayToggle();
          }
          recentlyFlipped := true;
        } else {
          recentlyFlipped := false;
        }
      } else if tm.Hour as int == a.Hour as int + 1 {
        recentlyFlipped := false;
        if tm.Minute == a.Minute {
          if relay_t {
            RelayOff();
          }
        }
      } else {
        recentlyFlipped := false;
      }
    }

    /** `printStatus()` (src/rtc_lamp.cpp:413-448): only its clock read
        changes state; the text it prints is not modelled. */
    method PrintStatus()
      requires Valid()
      modifies this
      ensures Valid() && Abs() == Commands.PrintStatus(old(Abs()))
    {
      var ok := UpdateTime();
      if !ok {
        return;
      }
    }

    /** `selectVal()` (src/rtc_lamp.cpp:191-202), with a counter that does
        reach 200 (see `Findings.SelectValAsWritten` for the `char` one). */
    method SelectVal() returns (ok: bool)
      requires Valid()
      modifies this
      ensures Valid() && Abs() == Entry.SelectVal(old(Abs())).s
      ensures ok == Entry.SelectVal(old(Abs())).ok
    {
      ghost var s0 := Abs();
      var time := 0;
      while time < PollLimit
        invariant Valid() && 0 <= time <= PollLimit
        invariant Entry.SelectValFrom(Abs(), time) == Entry.SelectValFrom(s0, 0)
        decreases PollLimit - time
      {
        if Pending() {
          Read();
          return true;
        }
        Wait();
        time := time + 1;
      }
      return false;
    }

    /** `selectDigit()` (src/rtc_lamp.cpp:205-216). */
    method SelectDigit() returns (ok: bool)
      requires Valid()
      modifies this
      ensures Valid() && Abs() == Entry.SelectDigit(old(Abs())).s
      ensures ok == Entry.SelectDigit(old(Abs())).ok
    {
      ok := SelectVal();
      if ok {
        rec := Int8(rec as int - '0' as int);
        ok := !(rec > 9 || rec < 0);
      }
    }

    /** `digit[i] = rec`. */
    method StoreDigit(i: int)
      requires Valid() && 0 <= i < 2
      modifies digit
      ensures Valid() && Abs() == old(Abs()).(digit := old(Abs()).digit[i := rec])
    {
      digit[i] := rec;
    }

    /** `select2Digits()` (src/rtc_lamp.cpp:219-233). */
    method Select2Digits() returns (ok: bool)
      requires Valid()
      modifies this, digit
      ensures Valid() && Abs() == Entry.Select2Digits(old(Abs())).s
      ensures ok == Entry.Select2Digits(old(Abs())).ok
    {
      ghost var s0 := Abs();
      var i := 0;
      while i < 2
        invariant Valid() && 0 <= i <= 2
        invariant (i >= 1 ==> 0 <= digit[0] <= 9) && (i >= 2 ==> 0 <= digit[1] <= 9)
        invariant Entry.Select2From(Abs(), i) == Entry.Select2From(s0, 0)
      {
        ghost var u := Abs();
        ok := SelectDigit();
        if ok {
          StoreDigit(i);
        } else if rec as int + '0' as int == '*' as int {
          finalDigit := '*' as int as int8;
          return true;
        } else {
          return false;
        }
        i := i + 1;
      }
      ghost var u := Abs();
      finalDigit := Int8(10 * digit[0] as int + digit[1] as int);
      assert Abs() == u.(finalDigit := Int8(10 * u.digit[0] as int + u.digit[1] as int));
      return true;
    }
    /** `rtcReadMem(mem, reg)` (src/rtc_lamp.cpp:539-553) on the global `mem`. */
    method RtcReadMem(reg: int)
      requires Valid() && 0 <= reg && reg + 3 <= StoreSize
      modifies mem
      ensures Valid() && Abs() == old(Abs()).(mem := ReadMem(old(Abs()).store, reg))
    {
      mem[0] := Int8(store[reg] as int);
      mem[1] := Int8(store[reg + 1] as int);
      mem[2] := Int8(store[reg + 2] as int);
    }

    /** `rtcWriteMem(mem, reg)` (src/rtc_lamp.cpp:556-566) on the global `mem`. */
    method RtcWriteMem(reg: int)
      requires Valid() && 0 <= reg && reg + 3 <= StoreSize
      modifies store
      ensures Valid() && Abs() == old(Abs()).(store := WriteMem(old(Abs()).store, old(Abs()).mem, reg))
    {
      store[reg] := Uint8(mem[0] as int);
      store[reg + 1] := Uint8(mem[1] as int);
      store[reg + 2] := Uint8(mem[2] as int);
    }

    /** The record write at either success point of `setAlarm`
        (src/rtc_lamp.cpp:254-257, 283-286). */
    method SaveSlot(w: int)
      requires Valid() && 0 <= w < 7
      modifies mem, store
      ensures Valid() && Abs() == Commands.SaveSlot(old(Abs()), w)
    {
      mem[0] := Commands.Flag(dayIsSet[w]);
      mem[1] := Int8(alm[w].Hour as int);
      mem[2] := Int8(alm[w].Minute as int);
      RtcWriteMem(RecordAddr(w));
    }
    /** `setAlarm()` (src/rtc_lamp.cpp:236-289), up to the hour prompt;
        `printInvalidEntry()` returns false. */
    method SetAlarm() returns (ok: bool)
      requires Valid()
      modifies this, alm, dayIsSet, digit, mem, store
      ensures Valid() && Abs() == Commands.SetAlarm(old(Abs())).s
      ensures ok == Commands.SetAlarm(old(Abs())).ok
    {
      ghost var s0 := Abs();
      ok := SelectDigit();
      if !ok || rec > 7 || rec < 1 {
        return false;
      }
      alm[rec - 1] := alm[rec - 1].(Wday := Uint8(rec as int));
      wday := Int8(alm[rec - 1].Wday as int - 1);
      ghost var d := Entry.SelectDigit(s0);
      ghost var n := d.s.rec as int;
      ghost var s1 := d.s.(alm := d.s.alm[n - 1 := d.s.alm[n - 1].(Wday := Uint8(n))]);
      ghost var s2 := s1.(wday := Int8(s1.alm[n - 1].Wday as int - 1));
      ok := SetAlarmHour(s2);
    }

    /** The hour field of `setAlarm` (src/rtc_lamp.cpp:249-265). */
    method SetAlarmHour(ghost s: State) returns (ok: bool)
      requires Valid() && Abs() == s && 0 <= wday < 7
      modifies this, alm, dayIsSet, digit, mem, store
      ensures Valid() && Abs() == Commands.SetAlarmHour(s).s
      ensures ok == Commands.SetAlarmHour(s).ok
    {
      ghost var w := s.wday as int;
      ok := Select2Digits();
      if !ok {
        return false;
      }
      ghost var h := Entry.Select2Digits(s);
      if finalDigit < 24 && finalDigit >= 0 {
        alm[wday] := alm[wday].(Hour := Uint8(finalDigit as int));
        ok := SetAlarmMinute(h.s.(alm := h.s.alm[w := h.s.alm[w].(Hour := Uint8(h.s.finalDigit as int))]));
      } else if finalDigit as int == '*' as int {
        CommitSlot(h.s, wday as int, !dayIsSet[wday]);
        return true;
      } else {
        return false;
      }
    }

    /** The minute field and the success point of `setAlarm` (src/rtc_lamp.cpp:271-288). */
    method SetAlarmMinute(ghost s: State) returns (ok: bool)
      requires Valid() && Abs() == s && 0 <= wday < 7
      modifies this, alm, dayIsSet, digit, mem, store
      ensures Valid() && Abs() == Commands.SetAlarmMinute(s).s
      ensures ok == Commands.SetAlarmMinute(s).ok
    {
      ghost var w := s.wday as int;
      ok := Select2Digits();
      if !ok || !(finalDigit < 60 && finalDigit >= 0) {
        return false;
      }
      ghost var m := Entry.Select2Digits(s);
      alm[wday] := alm[wday].(Minute := Uint8(finalDigit as int));
      CommitSlot(m.s.(alm := m.s.alm[w := m.s.alm[w].(Minute := Uint8(m.s.finalDigit as int))]), wday as int, true);
      return true;
    }

    /** A success point of `setAlarm` (src/rtc_lamp.cpp:253-258, 282-288). */
    method CommitSlot(ghost s: State, w: int, enabled: bool)
      requires Valid() && Abs() == s && 0 <= w < 7
      modifies this, dayIsSet, mem, store
      ensures Valid() && Abs() == Commands.CommitSlot(s, w, enabled)
    {
      dayIsSet[w] := enabled;
      SaveSlot(w);
      PrintStatus();
    }

    /** `alm[w] = t`. */
    method PutAlarm(w: int, t: Tm)
      requires Valid() && 0 <= w < 7
      modifies alm
      ensures Valid() && Abs() == old(Abs()).(alm := old(Abs()).alm[w := t])
    {
      alm[w] := t;
    }

    /** `dayIsSet[w] = b`. */
    method PutDayIsSet(w: int, b: bool)
      requires Valid() && 0 <= w < 7
      modifies dayIsSet
      ensures Valid() && Abs() == old(Abs()).(dayIsSet := old(Abs()).dayIsSet[w := b])
    {
      dayIsSet[w] := b;
    }
    /** `setNewTime()` (src/rtc_lamp.cpp:292-359), its day field
        (src/rtc_lamp.cpp:293-302); each later field is its own method. */
    method SetNewTime(ghost s: State) returns (ok: bool)
      requires Valid() && Abs() == s
      modifies this, digit
      ensures Valid() && Abs() == Commands.SetNewTime(s).s
      ensures ok == Commands.SetNewTime(s).ok
    {
      ok := Select2Digits();
      if !ok || !(finalDigit < 32 && finalDigit > 0) {
        return false;
      }
      ghost var a := Entry.Select2Digits(s).s;
      tm := tm.(Day := Uint8(finalDigit as int));
      ok := SetNewTimeMonth(a.(tm := a.tm.(Day := Uint8(a.finalDigit as int))));
    }

    /** The month field of `setNewTime` (src/rtc_lamp.cpp:304-313). */
    method SetNewTimeMonth(ghost s: State) returns (ok: bool)
      requires Valid() && Abs() == s
      modifies this, digit
      ensures Valid() && Abs() == Commands.SetNewTimeMonth(s).s
      ensures ok == Commands.SetNewTimeMonth(s).ok
    {
      ok := Select2Digits();
      if !ok || !(finalDigit < 13 && finalDigit > 0) {
        return false;
      }
      ghost var b := Entry.Select2Digits(s).s;
      tm := tm.(Month := Uint8(finalDigit as int));
      ok := SetNewTimeYear(b.(tm := b.tm.(Month := Uint8(b.finalDigit as int))));
    }

    /** The year field of `setNewTime` (src/rtc_lamp.cpp:315-320). */
    method SetNewTimeYear(ghost s: State) returns (ok: bool)
      requires Valid() && Abs() == s
      modifies this, digit
      ensures Valid() && Abs() == Commands.SetNewTimeYear(s).s
      ensures ok == Commands.SetNewTimeYear(s).ok
    {
      ok := Select2Digits();
      if !ok {
        return false;
      }
      var year := Uint8(Commands.CalendarYrToTm(2000 + finalDigit as int));
      ghost var c := Entry.Select2Digits(s).s;
      tm := tm.(Year := year);
      ok := SetNewTimeWeekday(c.(tm := c.tm.(Year := year)));
    }

    /** The weekday field of `setNewTime` (src/rtc_lamp.cpp:322-329). */
    method SetNewTimeWeekday(ghost s: State) returns (ok: bool)
      requires Valid() && Abs() == s
      modifies this, digit
      ensures Valid() && Abs() == Commands.SetNewTimeWeekday(s).s
      ensures ok == Commands.SetNewTimeWeekday(s).ok
    {
      ok := SelectDigit();
      if !ok || rec > 7 || rec < 1 {
        return false;
      }
      ghost var d := Entry.SelectDigit(s).s;
      tm := tm.(Wday := Uint8(rec as int));
      ok := SetNewTimeHour(d.(tm := d.tm.(Wday := Uint8(d.rec as int))));
    }

    /** The hour field of `setNewTime` (src/rtc_lamp.cpp:330-343). */
    method SetNewTimeHour(ghost s: State) returns (ok: bool)
      requires Valid() && Abs() == s
      modifies this, digit
      ensures Valid() && Abs() == Commands.SetNewTimeHour(s).s
      ensures ok == Commands.SetNewTimeHour(s).ok
    {
      ok := Select2Digits();
      if !ok || !(finalDigit < 24 && finalDigit >= 0) {
        return false;
      }
      ghost var e := Entry.Select2Digits(s).s;
      tm := tm.(Hour := Uint8(finalDigit as int));
      ok := SetNewTimeMinute(e.(tm := e.tm.(Hour := Uint8(e.finalDigit as int))));
    }

    /** The minute field and the success point of `setNewTime`, where the
        clock is written (src/rtc_lamp.cpp:345-358). */
    method SetNewTimeMinute(ghost s: State) returns (ok: bool)
      requires Valid() && Abs() == s
      modifies this, digit
      ensures Valid() && Abs() == Commands.SetNewTimeMinute(s).s
      ensures ok == Commands.SetNewTimeMinute(s).ok
    {
      ok := Select2Digits();
      if !ok || !(finalDigit < 60 && finalDigit >= 0) {
        return false;
      }
      tm := tm.(Minute := Uint8(finalDigit as int));
      clock := Commands.RtcWrite(clock, tm);
      PrintStatus();
      return true;
    }
    /** The command chain inside `processRequest`'s `while (inProcess)`
        (src/rtc_lamp.cpp:168-182); `printInvalidEntry()` returns false. */
    method Dispatch()
      requires Valid()
      modifies this, alm, dayIsSet, digit, mem, store
      ensures Valid() && Abs() == Commands.Dispatch(old(Abs())).(inProcess := inProcess)
    {
      if rec as int == '?' as int {
        PrintStatus();
      } else if rec as int == 'a' as int {
        inProcess := SetAlarm();
      } else if rec as int == 't' as int {
        inProcess := SetNewTime(Abs());
        inProcess := false;
      } else if rec as int == '!' as int {
        RelayToggle();
        inProcess := false;
      } else {
        inProcess := false;
      }
    }

    /** `processRequest()` (src/rtc_lamp.cpp:158-188). */
    method ProcessRequest()
      requires Valid()
      modifies this, alm, dayIsSet, digit, mem, store
      ensures Valid() && Abs() == Commands.ProcessRequest(old(Abs()))
    {
      if err {
        return;
      }
      Read();
      ghost var t := Abs();
      while inProcess
        invariant Valid()
        invariant inProcess ==> Abs() == t
        invariant !inProcess ==> Abs() == (if t.inProcess then Commands.Dispatch(t) else t).(inProcess := false)
        decreases if inProcess then 1 else 0
      {
        Dispatch();
        inProcess := false;
      }
      inProcess := true;
    }

    /** `loop()` (src/rtc_lamp.cpp:143-152) without its delays. */
    method Loop()
      requires Valid()
      modifies this, alm, dayIsSet, digit, mem, store
      ensures Valid() && Abs() == Driver.LoopTick(old(Abs()))
    {
      if Pending() {
        ProcessRequest();
      } else if cnt >= IdleLimit as int8 {
        Wait();
        cnt := 0;
        CheckAlarm();
      } else {
        Wait();
        cnt := Int8(cnt as int + 1);
      }
    }

    /** One pass of the `if (run)` loop of `setup` (src/rtc_lamp.cpp:78-81). */
    method LoadSlot(i: int)
      requires Valid() && 0 <= i < 7
      modifies alm, dayIsSet, mem
      ensures Valid() && Abs() == Driver.LoadSlot(old(Abs()), i)
    {
      RtcReadMem(RecordAddr(i));
      PutDayIsSet(i, mem[0] != 0);
      PutAlarm(i, alm[i].(Hour := Uint8(mem[1] as int), Minute := Uint8(mem[2] as int)));
    }

    /** The `if (run)` loop of `setup` (src/rtc_lamp.cpp:76-82). */
    method LoadAlarms()
      requires Valid()
      modifies alm, dayIsSet, mem
      ensures Valid() && Abs() == Driver.LoadAlarms(old(Abs()), 0)
    {
      ghost var s0 := Abs();
      var i := 0;
      while i < 7
        invariant Valid() && 0 <= i <= 7
        invariant Driver.LoadAlarms(Abs(), i) == Driver.LoadAlarms(s0, 0)
      {
        LoadSlot(i);
        i := i + 1;
      }
    }

    /** One pass of the `else` loop of `setup` (src/rtc_lamp.cpp:85-86). */
    method DefaultSlot(i: int)
      requires Valid() && 0 <= i < 7
      modifies alm, store
      ensures Valid() && Abs() == Driver.DefaultSlot(old(Abs()), i)
    {
      RtcWriteMem(RecordAddr(i));
      PutAlarm(i, alm[i].(Hour := Uint8(mem[1] as int)));
    }

    /** The `else` loop of `setup` (src/rtc_lamp.cpp:83-88). */
    method DefaultAlarms()
      requires Valid()
      modifies alm, store
      ensures Valid() && Abs() == Driver.DefaultAlarms(old(Abs()), 0)
    {
      ghost var s0 := Abs();
      var i := 0;
      while i < 7
        invariant Valid() && 0 <= i <= 7
        invariant Driver.DefaultAlarms(Abs(), i) == Driver.DefaultAlarms(s0, 0)
      {
        DefaultSlot(i);
        i := i + 1;
      }
    }

    /** The globals as the start-up code initialises them
        (src/rtc_lamp.cpp:21-36), then `setup()` (src/rtc_lamp.cpp:40-105)
        without its pin and serial set-up. */
    constructor (clock0: ClockRead, store0: seq<uint8>, input0: seq<Poll>)
      requires |store0| == StoreSize
      ensures Valid() && fresh(alm) && fresh(dayIsSet) && fresh(digit) && fresh(mem) && fresh(store)
      ensures Abs() == Driver.Setup(clock0, store0, input0)
    {
      tm := ZeroTm;
      alm := new Tm[7](_ => ZeroTm);
      dayIsSet := new bool[7](_ => false);
      relay_t := false;
      recentlyFlipped := false;
      rec := 0;
      digit := new int8[2](_ => 0);
      finalDigit := 0;
      cnt := 0;
      err := false;
      run := false;
      inProcess := true;
      wday := 1;
      mem := new int8[3](j => if j == 1 then 7 else 0);
      clock := clock0;
      store := new uint8[StoreSize](j requires 0 <= j < |store0| => store0[j]);
      input := input0;
      new;
      assert alm[..] == seq(7, _ => ZeroTm);
      assert dayIsSet[..] == seq(7, _ => false);
      assert store[..] == store0;
      assert Abs() == Driver.Initial(clock0, store0, input0);
      Setup();
    }

    /** The body of `setup()` (src/rtc_lamp.cpp:70-88). */
    method Setup()
      requires Valid()
      modifies this, alm, dayIsSet, mem, store
      ensures Valid() && Abs() == Driver.Boot(old(Abs()))
    {
      var ok := UpdateTime();
      if ok {
        run := true;
      }
      if run {
        LoadAlarms();
      } else {
        DefaultAlarms();
      }
    }
  }
}
