/** The sketch's data: the `tmElements_t` record, the collaborators' answers,
    and the whole of the sketch's global state as one value. */
module Types {
  import opened Bytes

  datatype Option<T> = None | Some(value: T)

  /** `tmElements_t` of the Time library: every field is a `uint8_t`;
      `Wday` is 1 = Sunday .. 7 = Saturday and `Year` counts from 1970. */
  datatype Tm = Tm(Second: uint8, Minute: uint8, Hour: uint8, Wday: uint8,
                   Day: uint8, Month: uint8, Year: uint8)

  /** A zero-initialised global `tmElements_t`. */
  const ZeroTm := Tm(0, 0, 0, 0, 0, 0, 0)

  /** What `RTC.read` and `RTC.chipPresent` tell together: a reading, a chip
      that answers but whose oscillator is halted (its registers are still
      read into `tm`, and `RTC.read` then reports the halt), or no chip on
      the bus (nothing is read). */
  datatype ClockRead = Ok(time: Tm) | Stopped(time: Tm) | Absent

  /** One poll of the serial port: the byte `available()` reports, or none. */
  type Poll = Option<uint8>

  /** The DS1307 register space (clock registers 0x00..0x07, RAM above). */
  const StoreSize := 64
  /** First register of the alarm records (src/rtc_lamp.cpp:78). */
  const AlarmBase := 0x08
  /** The number of polls `selectVal` waits for a byte (src/rtc_lamp.cpp:193). */
  const PollLimit := 200
  /** The idle ticks `loop` counts before it evaluates the alarm (src/rtc_lamp.cpp:145). */
  const IdleLimit := 20

  /** The global variables of the sketch, together with the collaborators
      they talk to: the clock's answer, the chip's RAM and the pending input. */
  datatype State = State(
    tm: Tm,
    alm: seq<Tm>,
    dayIsSet: seq<bool>,
    relay_t: bool,
    recentlyFlipped: bool,
    rec: int8,
    digit: seq<int8>,
    finalDigit: int8,
    cnt: int8,
    err: bool,
    run: bool,
    inProcess: bool,
    wday: int8,
    mem: seq<int8>,
    clock: ClockRead,
    store: seq<uint8>,
    input: seq<Poll>)

  /** The fixed sizes of the sketch's arrays. */
  predicate Wf(s: State)
  {
    |s.alm| == 7 && |s.dayIsSet| == 7 && |s.digit| == 2 && |s.mem| == 3 &&
    |s.store| == StoreSize
  }

  /** The result of a sub-routine returning `bool`: the new state and the flag. */
  datatype Out = Out(s: State, ok: bool)

  /** The register of weekday slot `i`'s 3-byte record `{set, hour, minute}`. */
  function RecordAddr(i: int): (r: int)
    ensures 0 <= i < 7 ==> AlarmBase <= r && r + 3 <= AlarmBase + 21 <= StoreSize
  {
    AlarmBase + 3 * i
  }

  /** The three bytes of slot `i`'s record in the store. */
  function Record(store: seq<uint8>, i: int): (r: seq<uint8>)
    requires 0 <= i < 7 && |store| == StoreSize
    ensures |r| == 3 && forall j :: 0 <= j < 3 ==> r[j] == store[RecordAddr(i) + j]
  {
    store[RecordAddr(i)..RecordAddr(i) + 3]
  }

  /** `rtcWriteMem(mem, reg)`: the three `char`s of `mem` sent as bytes to
      registers `reg`, `reg+1`, `reg+2` (src/rtc_lamp.cpp:556-566). */
  function WriteMem(store: seq<uint8>, mem: seq<int8>, reg: int): (r: seq<uint8>)
    requires |mem| == 3 && 0 <= reg && reg + 3 <= |store|
    ensures |r| == |store|
    ensures forall j :: 0 <= j < 3 ==> r[reg + j] == Uint8(mem[j] as int)
    ensures forall a :: 0 <= a < |store| && !(reg <= a < reg + 3) ==> r[a] == store[a]
  {
    store[reg := Uint8(mem[0] as int)][reg + 1 := Uint8(mem[1] as int)][reg + 2 := Uint8(mem[2] as int)]
  }

  /** `rtcReadMem(mem, reg)`: three bytes from registers `reg..reg+2`, each
      stored into a `char` (src/rtc_lamp.cpp:539-553). */
  function ReadMem(store: seq<uint8>, reg: int): (r: seq<int8>)
    requires 0 <= reg && reg + 3 <= |store|
    ensures |r| == 3 && forall j :: 0 <= j < 3 ==> Uint8(r[j] as int) == store[reg + j]
  {
    ByteThroughChar(store[reg]);
    ByteThroughChar(store[reg + 1]);
    ByteThroughChar(store[reg + 2]);
    [Int8(store[reg] as int), Int8(store[reg + 1] as int), Int8(store[reg + 2] as int)]
  }

  /** `n` polls that find nothing. */
  function Nones(n: nat): (r: seq<Poll>)
    ensures |r| == n && forall j :: 0 <= j < n ==> r[j] == None
  {
    if n == 0 then [] else [None] + Nones(n - 1)
  }

  /** A key typed at the console after `pause` polls that found nothing. */
  datatype Stroke = Stroke(pause: nat, key: uint8)

  /** The polls that see the keys `ks` typed one after another. */
  function Typed(ks: seq<Stroke>): (r: seq<Poll>)
    ensures |r| >= |ks|
    decreases |ks|
  {
    if ks == [] then [] else Nones(ks[0].pause) + [Some(ks[0].key)] + Typed(ks[1..])
  }

  /** Every key comes before a `selectVal` waiting for it gives up. */
  predicate InTime(ks: seq<Stroke>)
  {
    forall j :: 0 <= j < |ks| ==> ks[j].pause < PollLimit
  }

  lemma {:induction false} TypedOne(a: Stroke, rest: seq<Poll>)
    ensures Typed([a]) + rest == Nones(a.pause) + [Some(a.key)] + rest
  {
    assert [a][1..] == [];
  }

  lemma {:induction false} TypedTwo(a: Stroke, b: Stroke, rest: seq<Poll>)
    ensures Typed([a, b]) + rest == Nones(a.pause) + [Some(a.key)] + Nones(b.pause) + [Some(b.key)] + rest
  {
    assert [a, b][1..] == [b];
    TypedOne(b, rest);
  }
}
