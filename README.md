# rtc-relay: a verified model of the RTC lamp sketch

The rtc-relay sketch runs on an ATtiny. It switches a lamp relay at a
per-weekday alarm time and switches it off again one hour later. The time
comes from a DS1307 real-time clock. The alarm table is kept in the clock
chip's battery-backed RAM, so it survives a reset. A one-character console
on a software serial port lets the user ask for the status (`?`), set an
alarm (`a`), set the clock (`t`) and toggle the relay by hand (`!`).

The model has two layers.

- **Functions over a state value.** `Types.State` holds every global of
  `src/rtc_lamp.cpp`. It also holds the three collaborators:
  - the clock's next answer (`Ok(tm)`, `Stopped(tm)` or `Absent`);
  - the chip's 64 RAM registers;
  - the pending serial polls, each `Some(byte)` or `None`. A key typed after
    some empty polls is a `Types.Stroke`, and `Types.Typed` turns keys into
    the polls that see them.

  Each routine of the sketch is a function of that state:
  - `Entry`: `selectVal`, `selectDigit`, `select2Digits`;
  - `Alarm`: `updateTime`, `checkAlarm`, `relayToggle`, `relayOff`;
  - `Commands`: `setAlarm`, `setNewTime`, `processRequest`;
  - `Driver`: `setup`, `loop`;
  - `Format`: `print2digits`.

  The lemmas in `Alarm`, `Entry`, `CommandProperties`, `Driver`, `Format`
  and `Scenarios` state what the sketch promises about these functions.
- **The sketch as it runs.** `Lamp.RtcLamp` is a class.
  - Its fields are the globals. The arrays `alm`, `dayIsSet`, `digit`,
    `mem` and the register file are Dafny arrays.
  - Each routine is a method that updates the fields in place. Each method
    is proved to leave the object in exactly the state that the
    corresponding function computes from the old state.
  - The polling loops of `selectVal` and `select2Digits`, the dispatch loop
    of `processRequest` and the two start-up loops of `setup` are `while`
    loops with invariants.

The target's `char` is a signed 8-bit type. `Bytes.int8` and `Bytes.uint8`
model `char` and `uint8_t`. `Int8` and `Uint8` write out the wrap-around C
applies when a value is stored. The model relies on this for three facts:

- `rec - '0'` on a non-digit byte can wrap, and the model handles it;
- the `'*'` test `rec + '0' == '*'` holds exactly for `'*'`;
- a record byte survives the trip through the `char mem[3]` buffer.

`setAlarm` and `setNewTime` are single C functions. Each prompt of theirs
is its own stage, as a function in `Commands` and as a method in
`Lamp.RtcLamp`. Each stage ends by calling the next, so the stages
together are the C function.

Four behaviours of the code a reader may not expect:

- **`'*'` is accepted in either digit of a field.** `select2Digits` takes
  it at either position (src/rtc_lamp.cpp:221-226), not only the first.
- **`'*'` counts as the number 42.** `'*'` is 42, so `setNewTime` takes `*`
  as the year 2042 or as the minute 42.
- **The two digits `4`, `2` act as `*`.** In the hour field of `setAlarm`
  they are the enable-toggle shortcut.
- **The year field is never range-checked.**

## Model

| member | source | states |
|---|---|---|
| Bytes.Uint8 | src/rtc_lamp.cpp:251 | storing into a `uint8_t` field keeps an in-range value and otherwise shifts it by 256 |
| Bytes.Int8 | src/rtc_lamp.cpp:207 | storing into a signed `char` keeps a value in -128..127 and otherwise shifts it by 256 |
| Bytes.ByteThroughChar | src/rtc_lamp.cpp:78-81 | a byte stored into a `char` and read back into a `uint8_t` is unchanged |
| Types.Record | src/rtc_lamp.cpp:78 | slot `i`'s record is the three registers from `0x08 + 3*i` on |
| Types.RecordAddr | src/rtc_lamp.cpp:78 | the records of the seven slots lie inside the 64 registers, from 0x08 to 0x1C |
| Types.WriteMem | src/rtc_lamp.cpp:556-566 | `rtcWriteMem` puts the three `mem` bytes at `reg..reg+2` and leaves every other register alone |
| Types.ReadMem | src/rtc_lamp.cpp:539-553 | `rtcReadMem` yields three `char`s that read back as the registers `reg..reg+2` |
| Entry.IdlePoll | src/rtc_lamp.cpp:194 | a poll that finds nothing uses up one empty poll and changes nothing else |
| Entry.ReadRec | src/rtc_lamp.cpp:195 | `read()` stores the pending byte into `rec` and consumes it; with nothing pending it gives -1 and consumes nothing |
| Entry.SelectValFrom | src/rtc_lamp.cpp:191-202 | the polls change only the entry state; a failed call leaves `rec` as it was |
| Entry.SelectVal | src/rtc_lamp.cpp:191-202 | `selectVal` changes only `rec` and the input, and a failed call leaves `rec` as it was |
| Entry.SelectValFromArrives | src/rtc_lamp.cpp:193-197 | a byte after `k` empty polls, within the budget, is read into `rec`, and it and those polls are consumed |
| Entry.SelectValArrives | src/rtc_lamp.cpp:191-197 | `selectVal` reads a byte that arrives within 200 polls and succeeds |
| Entry.SelectValFromTimesOut | src/rtc_lamp.cpp:193-201 | when the rest of the budget finds no byte, the call fails, `rec` is kept and only the empty polls are used up |
| Entry.SelectValTimesOut | src/rtc_lamp.cpp:191-202 | 200 empty polls fail `selectVal` with `rec` unchanged |
| Entry.SelectDigit | src/rtc_lamp.cpp:205-216 | success leaves `rec` in 0..9; only the entry state changes |
| Entry.DigitConversion | src/rtc_lamp.cpp:207-224 | `rec - '0'` with `char` wrap-around lies in 0..9 exactly for a digit character and is its value; `rec + '0' == '*'` holds exactly for `'*'` |
| Entry.SelectDigitArrives | src/rtc_lamp.cpp:205-216 | on a byte that arrives in time, success iff it is a digit, with `rec` its value |
| Entry.Select2From | src/rtc_lamp.cpp:221-231 | the digit loop changes only the entry state; its success value is 0..99 |
| Entry.Select2Digits | src/rtc_lamp.cpp:219-233 | `select2Digits` changes only the entry state, and its success value is 0..99 |
| Entry.Select2FromOne | src/rtc_lamp.cpp:221-232 | the second position adds its digit to ten times the first, or ends with `'*'` |
| Entry.Select2SecondArrives | src/rtc_lamp.cpp:221-231 | after a first digit, a second digit gives the two-digit value and `'*'` gives `'*'`; anything else fails |
| Entry.Select2DigitsArrive | src/rtc_lamp.cpp:219-233 | two digits give `10*d0 + d1`; a `'*'` at either position gives `'*'`; any other byte fails; after a first digit the second byte is always read |
| Entry.Select2DigitsStarFirst | src/rtc_lamp.cpp:224-226 | `'*'` first ends the entry at once with `finalDigit == '*'`; nothing after it is read |
| Entry.Select2DigitsTimesOut | src/rtc_lamp.cpp:219-233 | silence fails the entry, unless the stale `rec` already passes the `'*'` test |
| Entry.Select2DigitsSecondTimesOut | src/rtc_lamp.cpp:221-230 | a first digit followed by silence fails |
| Alarm.UpdateTime | src/rtc_lamp.cpp:361-380 | success iff the clock answers and runs; a reading replaces `tm` and sets `run`; a halted clock's registers still fill `tm`, and `run` and `err` are cleared; a missing chip latches `err` and leaves `tm` alone |
| Alarm.RelayToggleTwice | src/rtc_lamp.cpp:451-454 | `relayToggle` (`Alarm.RelayToggle`) changes the relay, and toggling twice restores the state |
| Alarm.RelayOffIdempotent | src/rtc_lamp.cpp:457-460 | `relayOff` (`Alarm.RelayOff`) leaves the relay off and changes nothing else; a second call changes nothing |
| Alarm.Slot | src/rtc_lamp.cpp:385 | `Wday = tm.Wday - 1` is the previous weekday less one, and is a slot 0..6 exactly when that weekday is 1..7 |
| Alarm.CheckAlarm | src/rtc_lamp.cpp:383-409 | the evaluator changes only `tm`, `Wday`, `err`, `run`, `relay_t` and `recentlyFlipped` |
| Alarm.CheckAlarmNoEvaluation | src/rtc_lamp.cpp:385-387 | a reading that is not evaluated (no clock answer, a slot outside 0..6 or a disabled slot) leaves the relay, the debounce flag and the alarm table unchanged; `tm` is unchanged for a missing chip and the halted registers for a halted one |
| Alarm.CheckAlarmOnMatch | src/rtc_lamp.cpp:389-394 | in the matching minute the relay toggles unless the debounce flag is up, and the flag is up afterwards |
| Alarm.CheckAlarmAutoOff | src/rtc_lamp.cpp:399-405 | one hour after the alarm, same minute, the relay ends off and the flag is cleared |
| Alarm.CheckAlarmOtherTime | src/rtc_lamp.cpp:395-408 | every other evaluated time clears the flag; the relay changes only at the auto-off time |
| Alarm.RunChecks | src/rtc_lamp.cpp:383-409 | repeated evaluations never change the alarm table |
| Alarm.ChecksInMatchingMinute | src/rtc_lamp.cpp:389-397 | any number of evaluations in the matching minute toggle the relay exactly once from a lowered flag and never from a raised one |
| Commands.PrintStatus | src/rtc_lamp.cpp:412-413 | `printStatus` changes only what its clock read changes |
| Commands.SaveSlot | src/rtc_lamp.cpp:283-286 | slot `w`'s record becomes `{flag, hour, minute}`; no other record and no other register changes |
| Commands.CommitSlot | src/rtc_lamp.cpp:253-258 | a success point of `setAlarm` sets slot `w`'s flag, writes `{flag, hour, minute}` to its record only, and changes nothing else but the clock read |
| Commands.SetAlarm | src/rtc_lamp.cpp:236-269 | `setAlarm` never touches the clock, the relay or the counter, and on failure has written no record and changed no flag |
| Commands.SetAlarmHour | src/rtc_lamp.cpp:249-265 | the hour stage keeps the same promise |
| Commands.SetAlarmMinute | src/rtc_lamp.cpp:271-288 | the minute stage keeps it too, and on failure leaves the alarm table unchanged |
| Commands.WrittenTimeReadBack | src/rtc_lamp.cpp:356 | the time `RTC.write` (`Commands.RtcWrite`) sends is what the next `updateTime` reads, on a chip that answers, halted or not; on a missing chip the read fails and latches `err` |
| Commands.SetNewTime | src/rtc_lamp.cpp:292-359 | `setNewTime` leaves the alarm table, the store and the relay alone and writes the clock with the new `tm` exactly when it succeeds; success implies day 1..31, month 1..12, year 2000..2099, weekday 1..7, hour below 24 and minute below 60; the seconds are kept |
| Commands.SetNewTimeMonth | src/rtc_lamp.cpp:304-313 | the month stage keeps the same promise, changes only the month and later fields of `tm`, and succeeds only with those fields in range |
| Commands.SetNewTimeYear | src/rtc_lamp.cpp:315-320 | the year stage keeps the same promise, changes only the year and later fields, and succeeds only with those in range |
| Commands.SetNewTimeWeekday | src/rtc_lamp.cpp:322-329 | the weekday stage keeps the same promise, changes only the weekday, hour and minute, and succeeds only with them in range |
| Commands.SetNewTimeHour | src/rtc_lamp.cpp:330-343 | the hour stage keeps the same promise, changes only the hour and minute, and succeeds only with both in range |
| Commands.SetNewTimeMinute | src/rtc_lamp.cpp:345-358 | the minute stage keeps the same promise, changes only the minute, and succeeds only with a minute below 60 |
| Commands.Dispatch | src/rtc_lamp.cpp:168-182 | only `a` can change the alarm table or the store, only `!` the relay, only `t` the clock; any other byte changes nothing; the counter is never touched |
| Commands.ProcessRequest | src/rtc_lamp.cpp:158-188 | a latched `err` changes nothing; otherwise `inProcess` ends true; the idle counter never changes |
| CommandProperties.FieldAccepted | src/rtc_lamp.cpp:219-233 | a field accepted by `select2Digits` (`'*'`, or a digit and then a digit or `'*'`), each key after any pause within the poll budget, leaves its value (`'*'` is 42) in `finalDigit` and consumes exactly its polls |
| CommandProperties.FieldRefused | src/rtc_lamp.cpp:221-230 | a first key that is neither a digit nor `'*'`, or a digit and then such a key, fails the field once its polls are consumed |
| CommandProperties.WeekdayTyped | src/rtc_lamp.cpp:205-216 | one key at a `selectDigit` prompt yields a weekday 1..7 exactly for the keys `1`..`7` |
| CommandProperties.SetAlarmWeekday | src/rtc_lamp.cpp:238-248 | a key 1..7 after any in-time pause selects slot `key - 1`, sets its `Wday` and moves on to the hour prompt |
| CommandProperties.SetAlarmHourStores | src/rtc_lamp.cpp:249-251 | an accepted hour below 24 is stored in RAM at once and the minute prompt follows |
| CommandProperties.SetAlarmHourToggles | src/rtc_lamp.cpp:252-259 | an hour field worth 42 (`'*'`, `42`, or a digit and `'*'`) flips the flag and saves the slot with its old time |
| CommandProperties.SetAlarmHourFails | src/rtc_lamp.cpp:249-262 | a refused hour field, or 24..99 other than 42, fails and leaves the alarm table, the flags and the store unchanged |
| CommandProperties.SetAlarmMinuteSaves | src/rtc_lamp.cpp:272-288 | an accepted minute below 60 (`'*'` gives 42) enables the slot, stores the minute and writes `{1, hour, minute}` to its record only |
| CommandProperties.SetAlarmMinuteFails | src/rtc_lamp.cpp:272-277 | a refused minute field or 60..99 fails and writes nothing |
| CommandProperties.SetAlarmHourSets | src/rtc_lamp.cpp:249-288 | a valid hour and minute set the slot and its record and nothing else in the store |
| CommandProperties.SetAlarmSets | src/rtc_lamp.cpp:236-288 | weekday, hour and minute in range, typed with any in-time pauses: the slot is enabled, holds the time, `{1, hour, minute}` is written at `0x08+3*(w-1)`, and no other slot or register changes |
| CommandProperties.SetAlarmShortcut | src/rtc_lamp.cpp:249-259 | an hour field worth 42 flips the flag, saves `{flag, old hour, old minute}` and keeps the slot's time |
| CommandProperties.SetAlarmBadWeekday | src/rtc_lamp.cpp:238-240 | a key other than 1..7 fails before the alarm table or the store changes |
| CommandProperties.SetAlarmHourRejected | src/rtc_lamp.cpp:249-262 | a refused hour field, or 24..99 other than 42, fails `setAlarm` and leaves the slot's time, its flag and the store alone |
| CommandProperties.SetAlarmMinuteRejected | src/rtc_lamp.cpp:249-277 | a valid hour then a refused or out-of-range minute fails; the hour stays in RAM, but the flag and the store are unchanged |
| CommandProperties.SetNewTimeMinuteSets | src/rtc_lamp.cpp:345-358 | an accepted minute below 60 (`'*'` gives 42) reaches the point where the clock is written |
| CommandProperties.SetNewTimeHourSets | src/rtc_lamp.cpp:330-358 | hour and minute in range are assigned to `tm` |
| CommandProperties.SetNewTimeWeekdaySets | src/rtc_lamp.cpp:322-358 | weekday, hour and minute in range are assigned to `tm` |
| CommandProperties.SetNewTimeYearSets | src/rtc_lamp.cpp:315-358 | every accepted year field `n` is taken without a range check (`'*'` is 2042) and stored as `2000 + n` counted from 1970; with weekday, hour and minute in range all four fields are assigned to `tm` |
| CommandProperties.SetNewTimeMonthSets | src/rtc_lamp.cpp:304-358 | month through minute in range are assigned to `tm` |
| CommandProperties.SetNewTimeSets | src/rtc_lamp.cpp:292-359 | six accepted fields in range, typed with any in-time pauses: success, and the clock is written with exactly those fields; the alarm table and the store are unchanged |
| CommandProperties.SetNewTimeDayRejected | src/rtc_lamp.cpp:293-302 | a refused day field or a day outside 1..31 (`'*'` is 42) fails with `tm` and the clock unchanged |
| CommandProperties.SetNewTimeMonthRejected | src/rtc_lamp.cpp:304-313 | a refused month field or a month outside 1..12 fails with `tm` and the clock unchanged |
| CommandProperties.SetNewTimeYearRejected | src/rtc_lamp.cpp:315-320 | the year fails only as a refused field, with `tm` and the clock unchanged |
| CommandProperties.SetNewTimeWeekdayRejected | src/rtc_lamp.cpp:322-329 | a key other than 1..7 fails with `tm` and the clock unchanged |
| CommandProperties.SetNewTimeHourRejected | src/rtc_lamp.cpp:330-343 | a refused hour field or 24..99 fails with `tm` and the clock unchanged |
| CommandProperties.SetNewTimeMinuteRejected | src/rtc_lamp.cpp:345-358 | a refused minute field or 60..99 fails and the clock is not written |
| CommandProperties.ProcessRequestLatched | src/rtc_lamp.cpp:159-162 | a latched `err` makes `processRequest` a no-op that does not consume the pending byte |
| CommandProperties.ProcessRequestToggle | src/rtc_lamp.cpp:176-180 | `!` flips the relay and changes only `rec` and the input |
| CommandProperties.ProcessRequestInvalid | src/rtc_lamp.cpp:181-183 | a byte that is no command is consumed and nothing else changes |
| Driver.Initial | src/rtc_lamp.cpp:21-36 | the globals start as the initialisers say: `mem = {0, 7, 0}`, `tm` zero, relay off, no error, not running |
| Driver.LoadSlot | src/rtc_lamp.cpp:78-81 | one pass enables slot `i` iff its first record byte is non-zero and takes the hour and minute from the record |
| Driver.LoadAlarms | src/rtc_lamp.cpp:76-82 | every slot from `i` on is loaded from its record; earlier slots are unchanged |
| Driver.DefaultSlot | src/rtc_lamp.cpp:85-86 | one pass writes `mem` to record `i` only and copies `mem[1]` to slot `i`'s hour |
| Driver.DefaultAlarms | src/rtc_lamp.cpp:83-88 | every record from `i` on becomes the `mem` bytes and every hour `mem[1]`; registers outside the records are unchanged |
| Driver.Setup | src/rtc_lamp.cpp:40-105 | `setup` leaves the relay off and the counter at 0, and runs exactly when the clock answers; `err` is latched exactly when the chip is missing |
| Driver.Boot | src/rtc_lamp.cpp:70-88 | the body of `setup` keeps the relay and the counter, sets `run` exactly when the clock answers and `err` exactly when the chip is missing |
| Driver.SetupLoads | src/rtc_lamp.cpp:70-82 | with the clock running, `setup` loads every slot from its record |
| Driver.SetupDefaults | src/rtc_lamp.cpp:70-88 | with the clock halted or missing, every record becomes `{0, 7, 0}`, every hour 7, every slot disabled and other registers unchanged; a missing chip latches `err` and leaves `tm` zero, a halted one leaves its registers in `tm` |
| Driver.LoopTick | src/rtc_lamp.cpp:143-152 | one pass keeps the idle counter within 0..20; an idle pass never touches the alarm table, the store or the clock |
| Driver.IdleTick | src/rtc_lamp.cpp:145-150 | an idle pass keeps the counter within 0..20 and never touches the alarm table, the store or the clock |
| Driver.Ticks | src/rtc_lamp.cpp:143-152 | the idle counter stays within 0..20 over any number of passes |
| Driver.IdleStep | src/rtc_lamp.cpp:148-150 | an idle pass below the limit counts up by one and uses one empty poll |
| Driver.PendingTickKeepsCount | src/rtc_lamp.cpp:143-144 | a tick with input pending runs `processRequest` and leaves `cnt` alone |
| Driver.IdleTicksCount | src/rtc_lamp.cpp:148-150 | idle ticks below the limit only count up and use up their polls |
| Driver.IdleTicksCheck | src/rtc_lamp.cpp:145-147 | the idle ticks that pass the limit end in one `checkAlarm` with the counter back at 0 |
| Driver.IdleCycle | src/rtc_lamp.cpp:143-150 | from a zero counter, 21 idle ticks amount to exactly one `checkAlarm` and leave the counter at 0 |
| Driver.LatchedErrorFreezes | src/rtc_lamp.cpp:143-162 | a latched `err` with a byte pending leaves every later tick with the state unchanged |
| Format.Decimal | src/rtc_lamp.cpp:468 | `print(int)` sends at least one decimal digit and no leading zero |
| Format.Print | src/rtc_lamp.cpp:468 | what `print(int)` sends reads back as the number: its digits for `n >= 0`, a minus sign and the digits of `-n` below 0 |
| Format.ParseDecimalOfDecimal | src/rtc_lamp.cpp:468 | the digits sent read back as the number |
| Format.Print2DigitsPads | src/rtc_lamp.cpp:463-469 | `print2digits` (`Format.Print2Digits`) sends exactly two digit characters for 0..99, which read back as the number, with a leading `0` exactly below 10 |
| Format.Print2DigitsUnpadded | src/rtc_lamp.cpp:463-469 | `print2digits` adds nothing to what `print` sends from 10 on and below 0 |
| Findings.PollCounterStep | src/rtc_lamp.cpp:199 | `time++` on the `char` counter wraps 127 to -128 |
| Findings.SelectValAsWrittenNeverTimesOut | src/rtc_lamp.cpp:192-201 | `selectVal` with the `char` counter (`Findings.SelectValAsWritten`), when it returns, has always read a byte |
| Findings.SelectValAsWrittenHangs | src/rtc_lamp.cpp:193-200 | with nothing ever typed, the call with the `char` counter never returns |
| Findings.SelectValAsWrittenArrives | src/rtc_lamp.cpp:193-197 | the call with the `char` counter reads a byte after any number of empty polls |
| Findings.SelectValCounterexample | src/rtc_lamp.cpp:192-201 | a byte after 200 empty polls is read as written but left pending by the intended call |
| Findings.ConsultedSlotAsWritten | src/rtc_lamp.cpp:385-387 | the `dayIsSet` index read as written is `tm.Wday - 1` of the previous reading, read whenever the clock answers |
| Findings.SlotOutOfRange | src/rtc_lamp.cpp:385-387 | weekday 0 in the previous reading makes the index -1; the corrected evaluator then leaves the relay alone |
| Findings.SlotOutOfRangeAfterFailedStart | src/rtc_lamp.cpp:385-387 | after a start-up with the chip missing, or halted with weekday 0 in its registers, the first evaluation once the clock answers reads `dayIsSet[-1]` |
| Scenarios.MorningAlarm | src/rtc_lamp.cpp:383-409 | readings at 06:34, 06:35 and 07:34 turn the relay on, keep it on with the flag cleared, and turn it off |
| Scenarios.ProcessRequestDispatches | src/rtc_lamp.cpp:166-186 | a command byte is read into `rec` and its command runs exactly once |
| Scenarios.SetAlarmMonday | src/rtc_lamp.cpp:236-288 | `2`, `0`, `6`, `3`, `4` at `setAlarm`, with any in-time pauses, set Monday to 06:34 and write `{1, 6, 34}` at 0x0B |
| Scenarios.SessionSetAlarm | src/rtc_lamp.cpp:158-188 | the console session `a20634`, with any in-time pauses, sets and persists Monday's alarm |
| Scenarios.SessionToggleAlarm | src/rtc_lamp.cpp:249-259 | the session `a2*` flips Monday's flag and persists it with the old time |
| Scenarios.SessionBadMonth | src/rtc_lamp.cpp:292-313 | the session `t0513` refuses month 13, leaves the clock unwritten and keeps the day 5 already assigned |
| Scenarios.ReloadRecord | src/rtc_lamp.cpp:76-82 | what `setup` loads for a slot is that slot's record |
| Scenarios.ReloadSlot | src/rtc_lamp.cpp:76-82 | a record `{flag, hour, minute}` is loaded as that flag, hour and minute |
| Scenarios.AlarmSurvivesReset | src/rtc_lamp.cpp:282-286 | a slot set through `setAlarm` is loaded again by `setup` after a reset |
| Scenarios.ToggleSurvivesReset | src/rtc_lamp.cpp:253-257 | the flag flipped by the shortcut is loaded again by `setup` after a reset |
| Lamp.RtcLamp.Wait | src/rtc_lamp.cpp:143 | an empty poll leaves the object as `Entry.IdlePoll` says |
| Lamp.RtcLamp.Read | src/rtc_lamp.cpp:166 | `rec = read()` leaves the object as `Entry.ReadRec` says |
| Lamp.RtcLamp.UpdateTime | src/rtc_lamp.cpp:361-380 | the fields and the result are those of `Alarm.UpdateTime` |
| Lamp.RtcLamp.RelayToggle | src/rtc_lamp.cpp:451-454 | only `relay_t` changes, to its negation |
| Lamp.RtcLamp.RelayOff | src/rtc_lamp.cpp:457-460 | only `relay_t` changes, to false |
| Lamp.RtcLamp.CheckAlarm | src/rtc_lamp.cpp:383-409 | the evaluator leaves the object as `Alarm.CheckAlarm` says |
| Lamp.RtcLamp.PrintStatus | src/rtc_lamp.cpp:412-413 | the object changes as `Commands.PrintStatus` says |
| Lamp.RtcLamp.SelectVal | src/rtc_lamp.cpp:191-202 | the polling loop ends in the state and with the result of `Entry.SelectVal` |
| Lamp.RtcLamp.SelectDigit | src/rtc_lamp.cpp:205-216 | state and result of `Entry.SelectDigit` |
| Lamp.RtcLamp.StoreDigit | src/rtc_lamp.cpp:223 | `digit[i] = rec` changes that element only |
| Lamp.RtcLamp.Select2Digits | src/rtc_lamp.cpp:219-233 | the digit loop ends in the state and with the result of `Entry.Select2Digits` |
| Lamp.RtcLamp.RtcReadMem | src/rtc_lamp.cpp:539-553 | `mem` becomes `Types.ReadMem` of the registers; nothing else changes |
| Lamp.RtcLamp.RtcWriteMem | src/rtc_lamp.cpp:556-566 | the registers become `Types.WriteMem` of `mem`; nothing else changes |
| Lamp.RtcLamp.SaveSlot | src/rtc_lamp.cpp:283-286 | `mem` and the registers change as `Commands.SaveSlot` says |
| Lamp.RtcLamp.SetAlarm | src/rtc_lamp.cpp:236-248 | state and result of `Commands.SetAlarm` |
| Lamp.RtcLamp.SetAlarmHour | src/rtc_lamp.cpp:249-265 | state and result of `Commands.SetAlarmHour` |
| Lamp.RtcLamp.SetAlarmMinute | src/rtc_lamp.cpp:271-288 | state and result of `Commands.SetAlarmMinute` |
| Lamp.RtcLamp.CommitSlot | src/rtc_lamp.cpp:282-288 | the flag, the record and the clock read change as `Commands.CommitSlot` says |
| Lamp.RtcLamp.SetNewTime | src/rtc_lamp.cpp:292-302 | state and result of `Commands.SetNewTime` |
| Lamp.RtcLamp.SetNewTimeMonth | src/rtc_lamp.cpp:304-313 | state and result of `Commands.SetNewTimeMonth` |
| Lamp.RtcLamp.SetNewTimeYear | src/rtc_lamp.cpp:315-320 | state and result of `Commands.SetNewTimeYear` |
| Lamp.RtcLamp.SetNewTimeWeekday | src/rtc_lamp.cpp:322-329 | state and result of `Commands.SetNewTimeWeekday` |
| Lamp.RtcLamp.SetNewTimeHour | src/rtc_lamp.cpp:330-343 | state and result of `Commands.SetNewTimeHour` |
| Lamp.RtcLamp.SetNewTimeMinute | src/rtc_lamp.cpp:345-358 | state and result of `Commands.SetNewTimeMinute` |
| Lamp.RtcLamp.Dispatch | src/rtc_lamp.cpp:168-182 | the command chain leaves the object as `Commands.Dispatch` says, apart from `inProcess` |
| Lamp.RtcLamp.ProcessRequest | src/rtc_lamp.cpp:158-188 | the `while (inProcess)` loop ends in the state of `Commands.ProcessRequest` |
| Lamp.RtcLamp.Loop | src/rtc_lamp.cpp:143-151 | one pass of `loop` leaves the object as `Driver.LoopTick` says |
| Lamp.RtcLamp.LoadSlot | src/rtc_lamp.cpp:78-81 | one loading pass changes the object as `Driver.LoadSlot` says |
| Lamp.RtcLamp.LoadAlarms | src/rtc_lamp.cpp:76-82 | the loading loop ends in the state of `Driver.LoadAlarms` |
| Lamp.RtcLamp.DefaultSlot | src/rtc_lamp.cpp:85-86 | one default pass changes the object as `Driver.DefaultSlot` says |
| Lamp.RtcLamp.DefaultAlarms | src/rtc_lamp.cpp:83-88 | the default loop ends in the state of `Driver.DefaultAlarms` |
| Lamp.RtcLamp.Setup | src/rtc_lamp.cpp:70-88 | the body of `setup` leaves the object as `Driver.Boot` says |
| Lamp.RtcLamp.constructor | src/rtc_lamp.cpp:21-36 | the initialised globals followed by `setup` are the state `Driver.Setup` computes |

## Left out

- Serial output is not modelled. This covers the text of `printStatus`,
  the `print*` helpers, `printClockNotSet`, the `Er` answer and the prompts
  (src/rtc_lamp.cpp:413-448, 471-536). They produce text only.
  `print2digits` is modelled as the characters it sends.
- `printStatus` reads `dayName[tm.Wday-1]` for its text. The same
  out-of-range read as in the second finding can happen there, but it only
  affects what is printed.
- Delays are not modelled: `delay()` and the baud set-up are timing only.
  One empty poll in the input sequence stands for one `available()` check
  that finds nothing, with its delay.
- The I²C transfers of `rtcReadMem` and `rtcWriteMem` are not modelled.
  The DS1307 RAM is a 64-byte register file. A write always lands, even
  when the chip is absent, because transfer failures are not modelled.
- The DS1307 and Time library code is foreign. `RTC.read` and `chipPresent`
  are the environment's clock answer. `RTC.write` is `Commands.RtcWrite`.
  `CalendarYrToTm` is the offset from 1970. The clock does not advance by
  itself: the environment supplies each new answer.
- A halted chip is taken to fill `tm` from its registers before `RTC.read`
  reports failure, as the DS1307RTC library does; `Stopped(tm)` carries
  those registers. A missing chip fills nothing.
- Field lemmas cover keys that arrive within the poll budget. A field that
  times out is covered only at the `select2Digits` level
  (`Entry.Select2DigitsTimesOut`, `Entry.Select2DigitsSecondTimesOut`).
  A field whose first key is `'*'` or a refused key ends after that one key;
  a second key typed after it belongs to the next prompt.
- The `DEBUG_MODE` and `SET_TIME` blocks and the `MCUSR` reset-reason
  printing are compiled out in the sketch (src/rtc_lamp.cpp:47-61, 90-103,
  110-141).
- `pinMode` and `digitalWrite` are not modelled: the relay output is the
  `relay_t` field.
- `tm.Second` is never set by the console. It reaches the clock write as
  it was.
- Entry.SelectVal: uses the 200-poll bound the counter is evidently meant to
  give. The `char` counter as written never reaches 200; see the first
  finding. Lamp.RtcLamp.SelectVal does the same.
- Alarm.CheckAlarm: adds a range check on the consulted slot that the
  source lacks. Without it, an out-of-range weekday reads outside
  `dayIsSet`; see the second finding. Lamp.RtcLamp.CheckAlarm does the same.
- Bytes.Uint8: defined only for -256..511. Bytes.Int8 is defined only for
  -384..383. These cover every value the sketch stores, so the full
  modulo-256 arithmetic is not written out.

## Findings

| source | as written | input that shows it | evidently intended | confidence | as-written member | corrected member |
|---|---|---|---|---|---|---|
| src/rtc_lamp.cpp:192-201 | `char time` counts the polls of `selectVal`. On the target `char` is signed, so `time < 200` always holds: `time++` wraps from 127 to -128. | 200 empty polls, then a byte. As written the byte is read; with nothing ever typed the call never returns. | Give up after 200 polls, and fail the field with `rec` unchanged. | not executed | Findings.SelectValCounterexample | Entry.SelectValTimesOut |
| src/rtc_lamp.cpp:385-387 | `checkAlarm` reads `dayIsSet[Wday]` with `Wday = tm.Wday - 1`, taken from the previous reading, with no range check. | A start-up with the chip missing leaves `tm` zero (a halted chip whose weekday register holds 0 does the same to `tm.Wday`). The first `checkAlarm` after the chip answers reads `dayIsSet[-1]`. | Only a slot in 0..6 is consulted; otherwise nothing is decided. | not executed | Findings.SlotOutOfRangeAfterFailedStart | Alarm.CheckAlarmNoEvaluation |
