/** Console input: the serial polls of `loop` and `selectVal`, and the
    digit-entry routines `selectVal`, `selectDigit` and `select2Digits`
    (src/rtc_lamp.cpp:191-233), each as a function of the sketch's state. */
module Entry {
  import opened Bytes
  import opened Types

  /** `mySerial.available()`: the next poll finds a byte. */
  predicate Available(s: State)
  {
    s.input != [] && s.input[0].Some?
  }

  /** A poll that found nothing uses up one empty poll result. */
  function IdlePoll(s: State): (r: State)
    requires !Available(s)
    ensures r == s.(input := r.input)
    ensures |r.input| == if s.input == [] then 0 else |s.input| - 1
  {
    if s.input == [] then s else s.(input := s.input[1..])
  }

  /** `rec = mySerial.read()`: the pending byte stored into the `char` `rec`;
      with nothing pending `read()` returns -1 and nothing is consumed. */
  function ReadRec(s: State): (r: State)
    ensures r == s.(rec := r.rec, input := r.input)
    ensures Available(s) ==> r.rec == Int8(s.input[0].value as int) && r.input == s.input[1..]
    ensures !Available(s) ==> r.rec == -1 && r.input == s.input
  {
    if Available(s) then s.(rec := Int8(s.input[0].value as int), input := s.input[1..])
    else s.(rec := -1)
  }

  /** The digit-entry routines change `rec`, `digit`, `finalDigit` and the
      pending input, and nothing else. */
  predicate EntryFrame(s: State, t: State)
  {
    t == s.(rec := t.rec, digit := t.digit, finalDigit := t.finalDigit, input := t.input) &&
    |t.digit| == |s.digit|
  }

  lemma {:induction false} EntryFrameTrans(s: State, t: State, u: State)
    requires EntryFrame(s, t) && EntryFrame(t, u)
    ensures EntryFrame(s, u)
  {
  }

  predicate IsDigit(b: uint8)
  {
    '0' as int <= b as int <= '9' as int
  }

  predicate IsStar(b: uint8)
  {
    b as int == '*' as int
  }

  /** The polls of `selectVal` from the `time`-th on: the first byte found is
      stored into `rec`; after `PollLimit` empty polls the call fails. */
  function SelectValFrom(s: State, time: nat): (r: Out)
    requires time <= PollLimit
    ensures EntryFrame(s, r.s) && r.s.digit == s.digit && r.s.finalDigit == s.finalDigit
    ensures !r.ok ==> r.s.rec == s.rec
    decreases PollLimit - time
  {
    if time == PollLimit then Out(s, false)
    else if Available(s) then Out(ReadRec(s), true)
    else SelectValFrom(IdlePoll(s), time + 1)
  }

  /** `selectVal()` (src/rtc_lamp.cpp:191-202), with the 200-poll bound its
      counter is meant to give; see `Findings` for the counter as written. */
  function SelectVal(s: State): (r: Out)
    ensures EntryFrame(s, r.s) && r.s.digit == s.digit && r.s.finalDigit == s.finalDigit
    ensures !r.ok ==> r.s.rec == s.rec
  {
    SelectValFrom(s, 0)
  }

  /** `selectDigit()` (src/rtc_lamp.cpp:205-216): a byte arrives and `rec`
      becomes `rec - '0'` as a `char`; success iff that lies in 0..9. */
  function SelectDigit(s: State): (r: Out)
    ensures EntryFrame(s, r.s) && r.s.digit == s.digit && r.s.finalDigit == s.finalDigit
    ensures r.ok ==> 0 <= r.s.rec <= 9
  {
    var v := SelectVal(s);
    if v.ok then
      var d := Int8(v.s.rec as int - '0' as int);
      Out(v.s.(rec := d), 0 <= d <= 9)
    else v
  }

  /** The loop of `select2Digits()` from position `i` on (src/rtc_lamp.cpp:221-230):
      a digit goes to `digit[i]`; a failed digit whose `rec + '0'` is `'*'`
      ends the entry with `finalDigit = '*'`; anything else fails. */
  function Select2From(s: State, i: nat): (r: Out)
    requires |s.digit| == 2 && i <= 2
    requires (i >= 1 ==> 0 <= s.digit[0] <= 9) && (i >= 2 ==> 0 <= s.digit[1] <= 9)
    ensures EntryFrame(s, r.s)
    ensures r.ok ==> 0 <= r.s.finalDigit <= 99
    decreases 2 - i
  {
    if i == 2 then
      Out(s.(finalDigit := Int8(10 * s.digit[0] as int + s.digit[1] as int)), true)
    else
      var d := SelectDigit(s);
      if d.ok then
        var t := d.s.(digit := d.s.digit[i := d.s.rec]);
        var r := Select2From(t, i + 1);
        EntryFrameTrans(s, t, r.s);
        r
      else if d.s.rec as int + '0' as int == '*' as int then Out(d.s.(finalDigit := '*' as int as int8), true)
      else Out(d.s, false)
  }

  /** `select2Digits()` (src/rtc_lamp.cpp:219-233). */
  function Select2Digits(s: State): (r: Out)
    requires |s.digit| == 2
    ensures EntryFrame(s, r.s)
    ensures r.ok ==> 0 <= r.s.finalDigit <= 99
  {
    Select2From(s, 0)
  }

  // ---------------------------------------------------------------------
  // Properties

  /** A byte that arrives within the poll budget is read into `rec` and
      consumed, together with the empty polls before it. */
  lemma {:induction false} SelectValFromArrives(s: State, time: nat, k: nat, b: uint8, rest: seq<Poll>)
    requires time + k < PollLimit
    requires s.input == Nones(k) + [Some(b)] + rest
    ensures SelectValFrom(s, time) == Out(s.(rec := Int8(b as int), input := rest), true)
    decreases k
  {
    if k == 0 {
      assert s.input[0] == Some(b) && s.input[1..] == rest;
    } else {
      assert s.input[0] == None;
      var t := IdlePoll(s);
      assert t.input == Nones(k - 1) + [Some(b)] + rest by {
        assert s.input == [None] + (Nones(k - 1) + [Some(b)] + rest);
      }
      SelectValFromArrives(t, time + 1, k - 1, b, rest);
    }
  }

  lemma {:induction false} SelectValArrives(s: State, k: nat, b: uint8, rest: seq<Poll>)
    requires k < PollLimit
    requires s.input == Nones(k) + [Some(b)] + rest
    ensures SelectVal(s) == Out(s.(rec := Int8(b as int), input := rest), true)
  {
    SelectValFromArrives(s, 0, k, b, rest);
  }

  /** When the polls from the `time`-th on find no byte, the call fails,
      `rec` keeps its old value and the empty polls are used up. */
  lemma {:induction false} SelectValFromTimesOut(s: State, time: nat)
    requires time <= PollLimit
    requires forall j :: 0 <= j < PollLimit - time && j < |s.input| ==> s.input[j].None?
    ensures var n := if PollLimit - time < |s.input| then PollLimit - time else |s.input|;
      SelectValFrom(s, time) == Out(s.(input := s.input[n..]), false)
    decreases PollLimit - time
  {
    if time < PollLimit {
      var t := IdlePoll(s);
      if s.input != [] {
        assert s.input[0].None?;
        forall j | 0 <= j < PollLimit - (time + 1) && j < |t.input|
          ensures t.input[j].None?
        {
          assert t.input[j] == s.input[j + 1];
        }
      }
      SelectValFromTimesOut(t, time + 1);
      if s.input != [] {
        assert t.input[(if PollLimit - time - 1 < |t.input| then PollLimit - time - 1 else |t.input|)..]
            == s.input[(if PollLimit - time < |s.input| then PollLimit - time else |s.input|)..];
      }
    }
  }

  lemma {:induction false} SelectValTimesOut(s: State)
    requires forall j :: 0 <= j < PollLimit && j < |s.input| ==> s.input[j].None?
    ensures !SelectVal(s).ok && SelectVal(s).s.rec == s.rec
    ensures SelectVal(s).s == s.(input := s.input[(if PollLimit < |s.input| then PollLimit else |s.input|)..])
  {
    SelectValFromTimesOut(s, 0);
  }

  /** The `char` arithmetic of `selectDigit` and `select2Digits` on a byte `b`:
      `b - '0'` lies in 0..9 exactly for the ten digit characters, and its
      `rec + '0' == '*'` test holds exactly for `'*'`. */
  lemma {:induction false} DigitConversion(b: uint8)
    ensures var d := Int8(Int8(b as int) as int - '0' as int);
      (0 <= d <= 9 <==> IsDigit(b)) &&
      (IsDigit(b) ==> d as int == b as int - '0' as int) &&
      (d as int + '0' as int == '*' as int <==> IsStar(b))
  {
    var c := Int8(b as int);
    var d := Int8(c as int - '0' as int);
    if b < 128 {
      assert c as int == b as int;
      assert d as int == b as int - 48;
    } else {
      assert c as int == b as int - 256;
      if c as int - 48 >= -128 {
        assert d as int == c as int - 48;
      } else {
        assert d as int == c as int - 48 + 256;
      }
    }
  }

  /** `selectDigit` on a byte that arrives in time: success exactly for a
      digit character, with `rec` its value; `rec + '0'` is `'*'` exactly for `'*'`. */
  lemma {:induction false} SelectDigitArrives(s: State, k: nat, b: uint8, rest: seq<Poll>)
    requires k < PollLimit
    requires s.input == Nones(k) + [Some(b)] + rest
    ensures var r := SelectDigit(s);
      r.s.input == rest &&
      (r.ok <==> IsDigit(b)) &&
      (IsDigit(b) ==> r.s.rec as int == b as int - '0' as int) &&
      (r.s.rec as int + '0' as int == '*' as int <==> IsStar(b))
  {
    SelectValArrives(s, k, b, rest);
    DigitConversion(b);
  }

  /** The second position of `select2Digits` in terms of its `selectDigit` call. */
  lemma {:induction false} Select2FromOne(t: State)
    requires |t.digit| == 2 && 0 <= t.digit[0] <= 9
    ensures var d := SelectDigit(t); var r := Select2From(t, 1);
      r.s.input == d.s.input &&
      (d.ok ==> r.ok &&
                r.s.finalDigit as int == 10 * t.digit[0] as int + d.s.rec as int) &&
      (!d.ok ==> (r.ok <==> d.s.rec as int + '0' as int == '*' as int) &&
                 (r.ok ==> r.s.finalDigit as int == '*' as int))
  {
    var d := SelectDigit(t);
    if d.ok {
      var u := d.s.(digit := d.s.digit[1 := d.s.rec]);
      assert Select2From(t, 1) == Select2From(u, 2);
    }
  }

  /** The second position of `select2Digits`, after a first digit. */
  lemma {:induction false} Select2SecondArrives(t: State, k1: nat, b1: uint8, rest: seq<Poll>)
    requires |t.digit| == 2 && 0 <= t.digit[0] <= 9 && k1 < PollLimit
    requires t.input == Nones(k1) + [Some(b1)] + rest
    ensures var r := Select2From(t, 1);
      r.s.input == rest &&
      (r.ok <==> IsDigit(b1) || IsStar(b1)) &&
      (IsDigit(b1) ==> r.s.finalDigit as int == 10 * t.digit[0] as int + (b1 as int - '0' as int)) &&
      (r.ok && !IsDigit(b1) ==> r.s.finalDigit as int == '*' as int)
  {
    SelectDigitArrives(t, k1, b1, rest);
    Select2FromOne(t);
  }

  /** `select2Digits` on two bytes typed in time: two digits give their
      two-digit value; `'*'` in either position gives `finalDigit == '*'`;
      any other byte fails. A first digit is always followed by a read of
      the second byte. */
  lemma {:induction false} Select2DigitsArrive(s: State, k0: nat, b0: uint8, k1: nat, b1: uint8, rest: seq<Poll>)
    requires |s.digit| == 2 && k0 < PollLimit && k1 < PollLimit
    requires s.input == Nones(k0) + [Some(b0)] + Nones(k1) + [Some(b1)] + rest
    ensures var r := Select2Digits(s);
      (r.ok <==> IsStar(b0) || (IsDigit(b0) && (IsDigit(b1) || IsStar(b1)))) &&
      (IsDigit(b0) ==> r.s.input == rest) &&
      (IsDigit(b0) && IsDigit(b1) ==>
         r.s.finalDigit as int == 10 * (b0 as int - '0' as int) + (b1 as int - '0' as int)) &&
      (r.ok && !(IsDigit(b0) && IsDigit(b1)) ==> r.s.finalDigit as int == '*' as int)
  {
    var rest0 := Nones(k1) + [Some(b1)] + rest;
    assert s.input == Nones(k0) + [Some(b0)] + rest0;
    SelectDigitArrives(s, k0, b0, rest0);
    var d0 := SelectDigit(s);
    if d0.ok {
      var t := d0.s.(digit := d0.s.digit[0 := d0.s.rec]);
      assert Select2Digits(s) == Select2From(t, 1);
      assert t.input == rest0;
      Select2SecondArrives(t, k1, b1, rest);
    } else {
      assert !IsDigit(b0);
    }
  }

  /** `'*'` as the first byte ends `select2Digits` at once with
      `finalDigit == '*'`; nothing after it is read. */
  lemma {:induction false} Select2DigitsStarFirst(s: State, k0: nat, rest: seq<Poll>)
    requires |s.digit| == 2 && k0 < PollLimit
    requires s.input == Nones(k0) + [Some(Key('*'))] + rest
    ensures var r := Select2Digits(s);
      r.ok && r.s.finalDigit as int == '*' as int && r.s.input == rest
  {
    SelectDigitArrives(s, k0, Key('*'), rest);
  }

  /** No byte in the first polls fails `select2Digits`, unless the stale `rec`
      left by an earlier read already satisfies the `'*'` test. */
  lemma {:induction false} Select2DigitsTimesOut(s: State)
    requires |s.digit| == 2
    requires forall j :: 0 <= j < PollLimit && j < |s.input| ==> s.input[j].None?
    ensures Select2Digits(s).ok <==> s.rec as int + '0' as int == '*' as int
  {
    SelectValTimesOut(s);
  }

  /** A first digit followed by silence fails: the stale `rec` is then that digit. */
  lemma {:induction false} Select2DigitsSecondTimesOut(s: State, k0: nat, b0: uint8, rest: seq<Poll>)
    requires |s.digit| == 2 && k0 < PollLimit && IsDigit(b0)
    requires s.input == Nones(k0) + [Some(b0)] + rest
    requires forall j :: 0 <= j < PollLimit && j < |rest| ==> rest[j].None?
    ensures !Select2Digits(s).ok
  {
    SelectDigitArrives(s, k0, b0, rest);
    var d0 := SelectDigit(s);
    var t := d0.s.(digit := d0.s.digit[0 := d0.s.rec]);
    SelectValTimesOut(t);
  }
}
