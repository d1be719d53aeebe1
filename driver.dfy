/** The sketch's entry points: the start-up routine `setup` with its
    load-or-default of the alarm records, and one pass of `loop`
    (src/rtc_lamp.cpp:40-152). */
module Driver {
  import opened Bytes
  import opened Types
  import opened Entry
  import opened Alarm
  import opened Commands

  /** The globals as the C start-up code leaves them (src/rtc_lamp.cpp:21-36):
      the initialisers written out, `tm` and `alm[]` zero-filled. */
  function Initial(clock: ClockRead, store: seq<uint8>, input: seq<Poll>): (r: State)
    requires |store| == StoreSize
    ensures Wf(r) && r.clock == clock && r.store == store && r.input == input
    ensures r.mem == [0, 7, 0] && r.tm == ZeroTm && !r.relay_t && !r.err && !r.run
  {
    State(tm := ZeroTm, alm := seq(7, _ => ZeroTm), dayIsSet := seq(7, _ => false),
          relay_t := false, recentlyFlipped := false, rec := 0, digit := [0, 0],
          finalDigit := 0, cnt := 0, err := false, run := false, inProcess := true,
          wday := 1, mem := [0, 7, 0], clock := clock, store := store, input := input)
  }

  /** One pass of the `if (run)` loop of `setup` (src/rtc_lamp.cpp:78-81):
      record `i` is read through `mem`; its first byte enables the slot when
      non-zero, the other two are the hour and the minute. */
  function LoadSlot(s: State, i: int): (r: State)
    requires Wf(s) && 0 <= i < 7
    ensures Wf(r) && r == s.(alm := r.alm, dayIsSet := r.dayIsSet, mem := r.mem)
    ensures r.dayIsSet == s.dayIsSet[i := s.store[RecordAddr(i)] != 0]
    ensures r.alm == s.alm[i := s.alm[i].(Hour := s.store[RecordAddr(i) + 1],
                                          Minute := s.store[RecordAddr(i) + 2])]
  {
    var m := ReadMem(s.store, RecordAddr(i));
    assert m[0] != 0 <==> s.store[RecordAddr(i)] != 0 by {
      assert Uint8(m[0] as int) == s.store[RecordAddr(i)];
    }
    s.(mem := m, dayIsSet := s.dayIsSet[i := m[0] != 0],
       alm := s.alm[i := s.alm[i].(Hour := Uint8(m[1] as int), Minute := Uint8(m[2] as int))])
  }

  /** The `if (run)` loop of `setup` from slot `i` on (src/rtc_lamp.cpp:76-82). */
  function LoadAlarms(s: State, i: nat): (r: State)
    requires Wf(s) && i <= 7
    ensures Wf(r) && r == s.(alm := r.alm, dayIsSet := r.dayIsSet, mem := r.mem)
    ensures forall j :: 0 <= j < i ==> r.alm[j] == s.alm[j] && r.dayIsSet[j] == s.dayIsSet[j]
    ensures forall j :: i <= j < 7 ==>
      r.dayIsSet[j] == (s.store[RecordAddr(j)] != 0) &&
      r.alm[j] == s.alm[j].(Hour := s.store[RecordAddr(j) + 1], Minute := s.store[RecordAddr(j) + 2])
    decreases 7 - i
  {
    if i == 7 then s
    else
      var t := LoadSlot(s, i);
      assert t.store == s.store && t.alm[i] == s.alm[i].(Hour := s.store[RecordAddr(i) + 1],
                                                         Minute := s.store[RecordAddr(i) + 2]);
      LoadAlarms(t, i + 1)
  }

  /** One pass of the `else` loop of `setup` (src/rtc_lamp.cpp:85-86):
      `mem` is written to record `i` and its hour becomes slot `i`'s. */
  function DefaultSlot(s: State, i: int): (r: State)
    requires Wf(s) && 0 <= i < 7
    ensures Wf(r) && r == s.(alm := r.alm, store := r.store)
    ensures r.alm == s.alm[i := s.alm[i].(Hour := Uint8(s.mem[1] as int))]
    ensures r.store == WriteMem(s.store, s.mem, RecordAddr(i))
    ensures Record(r.store, i) == [Uint8(s.mem[0] as int), Uint8(s.mem[1] as int), Uint8(s.mem[2] as int)]
    ensures forall j :: 0 <= j < 7 && j != i ==> Record(r.store, j) == Record(s.store, j)
  {
    s.(store := WriteMem(s.store, s.mem, RecordAddr(i)),
       alm := s.alm[i := s.alm[i].(Hour := Uint8(s.mem[1] as int))])
  }

  /** The `else` loop of `setup` from slot `i` on (src/rtc_lamp.cpp:83-88):
      `mem`, still `{0, 7, 0}`, is written to every record and every alarm
      hour becomes 7. */
  function DefaultAlarms(s: State, i: nat): (r: State)
    requires Wf(s) && i <= 7
    ensures Wf(r) && r == s.(alm := r.alm, store := r.store)
    ensures forall j :: 0 <= j < i ==> r.alm[j] == s.alm[j] && Record(r.store, j) == Record(s.store, j)
    ensures forall j :: i <= j < 7 ==>
      r.alm[j] == s.alm[j].(Hour := Uint8(s.mem[1] as int)) &&
      Record(r.store, j) == [Uint8(s.mem[0] as int), Uint8(s.mem[1] as int), Uint8(s.mem[2] as int)]
    ensures forall a :: 0 <= a < StoreSize && !(RecordAddr(i) <= a < RecordAddr(7)) ==>
      r.store[a] == s.store[a]
    decreases 7 - i
  {
    if i == 7 then s else DefaultAlarms(DefaultSlot(s, i), i + 1)
  }

  /** `setup()` (src/rtc_lamp.cpp:40-105) without its pin and serial set-up. */
  function Setup(clock: ClockRead, store: seq<uint8>, input: seq<Poll>): (r: State)
    requires |store| == StoreSize
    ensures Wf(r) && r.clock == clock && r.input == input && !r.relay_t && r.cnt == 0
    ensures r.run <==> clock.Ok?
    ensures r.err <==> clock.Absent?
  {
    Boot(Initial(clock, store, input))
  }

  /** The body of `setup()` (src/rtc_lamp.cpp:70-88) on the globals `s`. */
  function Boot(s: State): (r: State)
    requires Wf(s)
    ensures Wf(r) && r.clock == s.clock && r.input == s.input
    ensures r.relay_t == s.relay_t && r.cnt == s.cnt
    ensures r.run <==> s.clock.Ok?
    ensures r.err <==> s.clock.Absent?
  {
    var u := UpdateTime(s);
    var t := if u.ok then u.s.(run := true) else u.s;
    if t.run then LoadAlarms(t, 0) else DefaultAlarms(t, 0)
  }

  /** One pass of `loop()` (src/rtc_lamp.cpp:143-152): pending input is
      handled; otherwise the pass is idle. */
  function LoopTick(s: State): (r: State)
    requires Wf(s)
    ensures Wf(r)
    ensures 0 <= s.cnt as int <= IdleLimit ==> 0 <= r.cnt as int <= IdleLimit
    ensures !Available(s) ==>
      r.alm == s.alm && r.dayIsSet == s.dayIsSet && r.store == s.store && r.clock == s.clock
  {
    if Available(s) then ProcessRequest(s) else IdleTick(s)
  }

  /** An idle pass of `loop` (src/rtc_lamp.cpp:145-150): the poll finds
      nothing; the alarm is evaluated once the counter has reached 20, which
      restarts it, and otherwise the counter goes up by one. */
  function IdleTick(s: State): (r: State)
    requires Wf(s) && !Available(s)
    ensures Wf(r)
    ensures 0 <= s.cnt as int <= IdleLimit ==> 0 <= r.cnt as int <= IdleLimit
    ensures r.alm == s.alm && r.dayIsSet == s.dayIsSet && r.store == s.store && r.clock == s.clock
  {
    if s.cnt >= IdleLimit as int8 then CheckAlarm(IdlePoll(s).(cnt := 0))
    else IdlePoll(s).(cnt := Int8(s.cnt as int + 1))
  }

  /** `n` passes of `loop`; the idle counter stays within 0..20 throughout. */
  function Ticks(s: State, n: nat): (r: State)
    requires Wf(s)
    ensures Wf(r)
    ensures 0 <= s.cnt as int <= IdleLimit ==> 0 <= r.cnt as int <= IdleLimit
    decreases n
  {
    if n == 0 then s else Ticks(LoopTick(s), n - 1)
  }

  // ---------------------------------------------------------------------
  // Properties

  /** With the clock running, `setup` loads every slot from its record. */
  lemma {:induction false} SetupLoads(t: Tm, store: seq<uint8>, input: seq<Poll>)
    requires |store| == StoreSize
    ensures var r := Setup(Ok(t), store, input);
      r.tm == t && r.run && !r.err && !r.relay_t && r.store == store && r.input == input &&
      forall j :: 0 <= j < 7 ==>
        r.dayIsSet[j] == (store[RecordAddr(j)] != 0) &&
        r.alm[j].Hour == store[RecordAddr(j) + 1] && r.alm[j].Minute == store[RecordAddr(j) + 2]
  {
  }

  /** With the clock halted or missing, `setup` writes `{0, 7, 0}` to every
      record, gives every slot the hour 7, leaves every slot disabled and
      every other register untouched; a missing chip also latches `err`
      and leaves `tm` zero, a halted one leaves its registers in `tm`. */
  lemma {:induction false} SetupDefaults(clock: ClockRead, store: seq<uint8>, input: seq<Poll>)
    requires |store| == StoreSize && !clock.Ok?
    ensures var r := Setup(clock, store, input);
      !r.run && (r.err <==> clock.Absent?) && !r.relay_t && r.input == input &&
      r.tm == (if clock.Stopped? then clock.time else ZeroTm) &&
      (forall j :: 0 <= j < 7 ==>
         Record(r.store, j) == [0, 7, 0] && !r.dayIsSet[j] && r.alm[j] == ZeroTm.(Hour := 7)) &&
      (forall a :: 0 <= a < StoreSize && !(RecordAddr(0) <= a < RecordAddr(7)) ==> r.store[a] == store[a])
  {
    var u := UpdateTime(Initial(clock, store, input));
    assert !u.ok && !u.s.run;
    var r := DefaultAlarms(u.s, 0);
    assert Setup(clock, store, input) == r;
    forall j | 0 <= j < 7
      ensures Record(r.store, j) == [0, 7, 0] && r.alm[j] == ZeroTm.(Hour := 7)
    {
      assert u.s.mem == [0, 7, 0] && u.s.alm[j] == ZeroTm;
    }
  }

  /** A tick with input pending runs `processRequest` and leaves the counter alone. */
  lemma {:induction false} PendingTickKeepsCount(s: State)
    requires Wf(s) && Available(s)
    ensures LoopTick(s) == ProcessRequest(s) && LoopTick(s).cnt == s.cnt
  {
  }

  /** Removing one empty poll from the front of `k` of them. */
  lemma {:induction false} NonesTail(k: nat, rest: seq<Poll>)
    requires 0 < k
    ensures (Nones(k) + rest)[0] == None && (Nones(k) + rest)[1..] == Nones(k - 1) + rest
  {
    assert Nones(k) == [None] + Nones(k - 1);
  }

  /** An idle pass below the limit counts and uses up one empty poll. */
  lemma {:induction false} IdleStep(s: State, k: nat, rest: seq<Poll>)
    requires Wf(s) && 0 <= s.cnt as int < IdleLimit && 0 < k
    requires s.input == Nones(k) + rest
    ensures LoopTick(s) == s.(cnt := (s.cnt as int + 1) as int8, input := Nones(k - 1) + rest)
  {
    NonesTail(k, rest);
  }

  /** Idle passes below the limit only count and use up their polls. */
  lemma {:induction false} IdleTicksCount(s: State, k: nat, rest: seq<Poll>)
    requires Wf(s) && 0 <= s.cnt as int && 0 < k && s.cnt as int + k <= IdleLimit
    requires s.input == Nones(k) + rest
    ensures Ticks(s, k) == s.(cnt := (s.cnt as int + k) as int8, input := rest)
    decreases k
  {
    IdleStep(s, k, rest);
    var u := s.(cnt := (s.cnt as int + 1) as int8, input := Nones(k - 1) + rest);
    if k == 1 {
      assert Nones(0) + rest == rest;
    } else {
      IdleTicksCount(u, k - 1, rest);
    }
  }

  /** The idle passes that bring the counter from `cnt` past the limit end
      in one `checkAlarm`, run with the counter back at zero. */
  lemma {:induction false} IdleTicksCheck(s: State, k: nat, rest: seq<Poll>)
    requires Wf(s) && 0 <= s.cnt as int && 0 < k && s.cnt as int + k == IdleLimit + 1
    requires s.input == Nones(k) + rest
    ensures Ticks(s, k) == CheckAlarm(s.(cnt := 0, input := rest))
    decreases k
  {
    if k == 1 {
      NonesTail(k, rest);
      assert Ticks(s, k) == LoopTick(s);
    } else {
      IdleStep(s, k, rest);
      var u := s.(cnt := (s.cnt as int + 1) as int8, input := Nones(k - 1) + rest);
      IdleTicksCheck(u, k - 1, rest);
    }
  }

  /** From a zero counter, `n` = 21 idle passes of `loop` amount to exactly
      one `checkAlarm`, and leave the counter at zero again: the alarm is
      evaluated once every 21 idle passes. */
  lemma {:induction false} IdleCycle(s: State, n: nat, rest: seq<Poll>)
    requires n == IdleLimit + 1
    requires Wf(s) && s.cnt == 0 && s.input == Nones(n) + rest
    ensures Ticks(s, n) == CheckAlarm(s.(input := rest))
    ensures Ticks(s, n).cnt == 0
  {
    IdleTicksCheck(s, n, rest);
    assert s.(cnt := 0, input := rest) == s.(input := rest);
  }

  /** A latched `err` with a byte pending freezes the sketch: every later
      tick finds the same byte, `processRequest` returns at once, and the
      idle branch that could clear `err` through `checkAlarm` is never taken. */
  lemma {:induction false} LatchedErrorFreezes(s: State, n: nat)
    requires Wf(s) && s.err && Available(s)
    ensures Ticks(s, n) == s
    decreases n
  {
    if n > 0 {
      assert LoopTick(s) == s;
      LatchedErrorFreezes(s, n - 1);
    }
  }
}
