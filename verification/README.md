# X1 front-panel LED blink controller (Marlin)

This project is a Dafny model of the LED-blink controller for the X1 printer's four front-panel buttons in Marlin (`Marlin/src/feature/x1-buttons.cpp`). The controller keeps these as file-scope statics:

- the logical level of the start LED;
- the remembered levels of the plus, minus and home LEDs;
- a slow blink deadline (500 ms) and a fast blink deadline (100 ms).

`x1_toggle_start_led` sets or toggles the start LED. It writes the pin only when the level changes. `x1_idle` reads the clock and calls `x1_leds(now)`. That function toggles the start LED each time the slow deadline elapses while a print is active, then moves each elapsed deadline to `now` plus its period.

There are two modules:

- `Millis` (`millis.dfy`) covers the 32-bit millisecond counter: wrapping addition and subtraction, the signed 32-bit reinterpretation, and `Elapsed`, the model of Marlin's `ELAPSED(now, deadline)` macro. The macro is defined elsewhere in Marlin and is not part of this model. The model ASSUMES it is `(int32_t)(now - deadline) >= 0`. The lemma `ElapsedIff` proves what that means: `now` is less than 2^31 ms past the deadline, counting forward around the wrapping counter.
- `X1Buttons` (`x1_buttons.dfy`) holds the controller:
  - `Panel` is a snapshot of the six statics.
  - `ToggleStartStep` and `LedsStep` are pure step functions. Each returns the new snapshot and the pin writes the step performed.
  - Lemmas state the controller's properties about those functions.
  - The class `X1Panel` holds the statics as mutable fields. Its methods update them in place, as the C code does. Each method is proved to follow its step function, and a ghost log records every pin write.

Three things from outside the file become inputs. The clock reading `millis()` becomes the parameter `now`. `printingIsActive()` becomes the boolean `printActive`. Each `WRITE` to a pin becomes an entry appended to the ghost log `writes`. `millis_t` and `unsigned long` are taken to be 32 bits wide, as on the AVR and 32-bit ARM boards Marlin targets. LED levels are C `short` values (`Short`), and 2 is the sentinel for the default argument (toggle).

## Model

| member | source | states |
|---|---|---|
| Millis.Add | Marlin/src/feature/x1-buttons.cpp:60 | `now + period` on the 32-bit counter: the plain sum when it fits, otherwise the sum minus 2^32 |
| Millis.Sub | Marlin/src/feature/x1-buttons.cpp:56 | the unsigned difference `now - deadline` is the forward distance from `deadline` to `now`: adding it to `deadline` gives back `now` |
| Millis.AsInt32 | Marlin/src/feature/x1-buttons.cpp:56 | the `int32_t` reading of a 32-bit pattern lies in [-2^31, 2^31) and equals the pattern modulo 2^32 |
| Millis.ElapsedIff | Marlin/src/feature/x1-buttons.cpp:56 | `ELAPSED(now, deadline)` holds exactly when `now` is `deadline + k` (wrapping) for some k < 2^31, in both directions, so it tolerates counter wraparound |
| Millis.ElapsedAfter | Marlin/src/feature/x1-buttons.cpp:64 | a deadline counts as elapsed from the millisecond it is due, and for 2^31 - 1 ms after |
| Millis.PendingWithinPeriod | Marlin/src/feature/x1-buttons.cpp:60 | a deadline set to `now + period` (period at most 2^31) is still pending at every `now + k` with k < period, even across a wraparound |
| X1Buttons.Negate | Marlin/src/feature/x1-buttons.cpp:43 | C's `!level` gives LOW or HIGH, gives HIGH exactly for LOW, and always differs from the level it negates |
| X1Buttons.ToggleStartStep | Marlin/src/feature/x1-buttons.cpp:40-50 | a value other than the sentinel 2 leaves the start LED at that value. The sentinel flips it between LOW and HIGH (any non-LOW level goes LOW). There is exactly one pin write when the level changes and none otherwise. No other field changes |
| X1Buttons.ToggleIdempotent | Marlin/src/feature/x1-buttons.cpp:45-49 | setting the start LED to its current level changes nothing and writes nothing |
| X1Buttons.SetTwiceWritesOnce | Marlin/src/feature/x1-buttons.cpp:45-49 | setting the same level twice in a row does nothing on the second call |
| X1Buttons.ToggleTwiceRestores | Marlin/src/feature/x1-buttons.cpp:42-49 | from LOW or HIGH, toggling twice restores the state, and each toggle performs exactly one write |
| X1Buttons.LedsStep | Marlin/src/feature/x1-buttons.cpp:52-67 | the start LED flips exactly when the slow deadline has elapsed and a print is active. An elapsed slow deadline moves to `now + 500` and an elapsed fast one to `now + 100`, modulo 2^32; a pending deadline stays. Plus, minus and home never change. The only write is the start LED's, and only when it changes |
| X1Buttons.LedsSameNowIsNoop | Marlin/src/feature/x1-buttons.cpp:52-67 | a second `x1_leds` call with the same `now` changes nothing and writes nothing, so the start LED toggles at most once per timestamp |
| X1Buttons.LedsOneTogglePerPeriod | Marlin/src/feature/x1-buttons.cpp:56-61 | after the slow clock fires at `now`, no call within the next 499 ms toggles the start LED, writes a pin or moves the slow deadline |
| X1Buttons.LedsSlowClockRefires | Marlin/src/feature/x1-buttons.cpp:56-61 | once the slow clock has fired at `now`, it is due again at `now + 500` |
| X1Buttons.FastClockInvisible | Marlin/src/feature/x1-buttons.cpp:63-66 | the fast deadline has no effect on any LED level, on the pin writes or on the slow deadline |
| X1Buttons.FirstCycleAfterPowerOn | Marlin/src/feature/x1-buttons.cpp:9-15 | from the power-on state (both deadlines 0), the first cycle in the first 2^31 ms fires both clocks. The start LED goes HIGH, with one write, if a print is active |
| X1Buttons.Run | Marlin/src/feature/x1-buttons.cpp:52-73 | over any run of idle cycles, the plus, minus and home LEDs keep their levels. Only the start LED pin is written, at most once per cycle. The first write differs from the starting level, each write differs from the one before, and the last write is the final level. With no writes, the start LED keeps its level |
| X1Buttons.RunQuietWhileSlowPending | Marlin/src/feature/x1-buttons.cpp:56-61 | if every cycle of a run finds the slow deadline pending, the run writes nothing and keeps the start LED level and the slow deadline |
| X1Buttons.RunOneTogglePerPeriod | Marlin/src/feature/x1-buttons.cpp:52-67 | a cycle at which the slow clock fires, followed by any number of cycles less than 500 ms later, writes the start LED pin at most once |
| X1Buttons.X1Panel.constructor | Marlin/src/feature/x1-buttons.cpp:9-15 | at start-up the start LED is LOW, plus, minus and home are HIGH, both deadlines are 0, and nothing has been written |
| X1Buttons.X1Panel.Setup | Marlin/src/feature/x1-buttons.cpp:29-32 | `x1_setup` writes the home, plus, minus and start LED pins, in that order, with their current levels, and changes no level |
| X1Buttons.X1Panel.ToggleStartLed | Marlin/src/feature/x1-buttons.cpp:40-50 | updating the fields in place yields exactly the `ToggleStartStep` state and appends exactly its writes to the log |
| X1Buttons.X1Panel.Leds | Marlin/src/feature/x1-buttons.cpp:52-67 | updating the fields in place yields exactly the `LedsStep` state and appends exactly its writes to the log |
| X1Buttons.X1Panel.Idle | Marlin/src/feature/x1-buttons.cpp:69-73 | one idle cycle at clock reading `now` is one `x1_leds(now)` step |

## Left out

- `x1_setup` pin configuration (`SET_INPUT_PULLUP`, `SET_OUTPUT`): this is hardware configuration with no state in the model. Only its four `OUT_WRITE`s are modelled, as log entries.
- The physical effect of `WRITE`/`OUT_WRITE` on a pin: modelled only as entries in a ghost log.
- `millis()` and `printingIsActive()`: these are foreign calls, so they become the parameters `now` and `printActive`.
- The definition of Marlin's `ELAPSED` macro is not part of this model. `Millis.Elapsed` assumes it is the signed 32-bit difference test.
- Marlin/src/feature/x1-buttons.h: it holds only prototypes and pin numbers. The LED pin numbers appear as constants.
- The `#ifdef X1_BUTTONS` conditional compilation: the model describes the enabled build.
- Builds where `unsigned long` is 64 bits (native simulators): the model fixes the counter width at 32 bits.
