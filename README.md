# Door lock display controller, modelled in Dafny

This project models the display controller of the door lock firmware
(`locklogic`). The controller holds the current UI state: idle prompt, PIN entry
with a count of entered digits, wrong PIN, or correct PIN. It owns a draw
target and two text styles. Higher-level logic replaces the state with
`set_state`. The main loop calls `tick` on every iteration, and each tick
redraws the whole frame. A tick clears the surface to Off, draws the view of
the current state centred at (64, 32), and flushes the frame to the panel.
In PIN entry the view is a "_ _ _ _" template in the large font. Over it goes
a masking string of stars, built in a fixed-capacity 8-character buffer.

Files:

- `graphics.dfy` (module `Graphics`): the drawing boundary. It holds colours,
  points, alignments, the two fonts and text styles. The draw target is the
  class `Target`, which records every clear, draw and flush it receives in a
  command log.
- `heapless.dfy` (module `Heapless`): the fixed-capacity string
  (`FixedString`). It is an array of characters allocated once, with
  all-or-nothing `PushStr` and with `Pop`.
- `display.dfy` (module `Display`): `State` and the `Controller` class. It
  also holds the specification functions `Slots`, `Stars`, `View` and
  `Frame`, and `BuildStars`, the stars loop of `tick`, which is proved
  against `Stars`.
- `facts.dfy` (module `DisplayFacts`): lemmas about the frames and the
  masking string.
- `scenarios.dfy` (module `DisplayScenarios`): call sequences from a driver
  loop. Each is proved from the controller's contracts alone.

`digits` is an unsigned 32-bit count in the code and is compared with the
slot index only (`digits > i`). No filler count such as `4 - digits` is
computed, so there is nothing to underflow. A count above 4 renders exactly
like 4 (`StarsSaturate`). The model therefore puts no precondition on
`digits`.

## Model

| member | source | states |
|---|---|---|
| `Display.Controller.constructor` | frontend/v2/firmware/locklogic/src/display.rs:60-76 | a new controller is in state Idle and wraps the given target. Its styles are the 6x10 font in On (small) and the 10x20 font in On (large). Nothing is drawn to the target. |
| `Display.Controller.SetState` | frontend/v2/firmware/locklogic/src/display.rs:79-81 | the state becomes the argument. Nothing is drawn, the target is unchanged, and the styles and target are constant fields. |
| `Display.Controller.Tick` | frontend/v2/firmware/locklogic/src/display.rs:88-134 | the target's log grows by exactly `Frame(state)`: Clear(Off), then the state's view, then Flush. The state is unchanged, and the elapsed time plays no part. |
| `Display.Slots` | frontend/v2/firmware/locklogic/src/display.rs:107-113 | after n slots the buffer holds 2n characters. Position 2i is '*' exactly when digits > i, and every odd position is a space. |
| `Display.Stars` | frontend/v2/firmware/locklogic/src/display.rs:106-114 | the masking string has length 7. Position k is '*' exactly when k is even and digits > k/2, and a space otherwise. |
| `Display.BuildStars` | frontend/v2/firmware/locklogic/src/display.rs:106-114 | in a fresh capacity-8 buffer, all four pushes fit and the final pop removes one space. The text left is `Stars(digits)`. |
| `Heapless.FixedString.constructor` | frontend/v2/firmware/locklogic/src/display.rs:106 | a new buffer is empty, with the requested capacity, in a freshly allocated array. |
| `Heapless.FixedString.PushStr` | frontend/v2/firmware/locklogic/src/display.rs:109-111 | the push succeeds exactly when the string fits the remaining capacity. On success the string is appended. On failure the contents are unchanged. |
| `Heapless.FixedString.Pop` | frontend/v2/firmware/locklogic/src/display.rs:114 | an empty buffer yields None and stays empty. Otherwise the last character is returned and removed. |
| `Graphics.Target.Clear` | frontend/v2/firmware/locklogic/src/display.rs:89 | clearing appends exactly one Clear command with the given colour to the log. |
| `Graphics.Target.Draw` | frontend/v2/firmware/locklogic/src/display.rs:97-99 | drawing a text appends exactly one DrawText command carrying that text to the log. |
| `Graphics.Target.Flush` | frontend/v2/firmware/locklogic/src/display.rs:29-31 | flushing appends exactly one Flush command to the log. |
| `DisplayFacts.SlotsStarCount` | frontend/v2/firmware/locklogic/src/display.rs:107-113 | after n slots the buffer holds min(digits, n) stars. |
| `DisplayFacts.StarCount` | frontend/v2/firmware/locklogic/src/display.rs:106-114 | the masking string holds exactly min(digits, 4) stars. |
| `DisplayFacts.StarsAsDescribed` | frontend/v2/firmware/locklogic/src/display.rs:106-114 | the masking string is "* " once per entered digit (at most 4), then "  " for each remaining slot, with the last character trimmed. |
| `DisplayFacts.StarsSaturate` | frontend/v2/firmware/locklogic/src/display.rs:108 | any digit count of 4 or more renders the same masking string as 4. |
| `DisplayFacts.StarsInjective` | frontend/v2/firmware/locklogic/src/display.rs:106-114 | two digit counts give the same masking string exactly when they fill the same number of slots. |
| `DisplayFacts.FrameLayout` | frontend/v2/firmware/locklogic/src/display.rs:89-133 | every frame has exactly one Clear(Off), at the start, and exactly one Flush, at the end. In between are only texts centred at (64, 32): two in the large style for PIN entry, one in the small style otherwise. |
| `DisplayFacts.FrameTexts` | frontend/v2/firmware/locklogic/src/display.rs:96-129 | Idle draws "You shall not pass!", Correct draws "Welcome back!" and Wrong draws "Wrong PIN,". PIN entry draws "_ _ _ _" first, then the masking string. |
| `DisplayFacts.FrameInjective` | frontend/v2/firmware/locklogic/src/display.rs:88-134 | two states render the same frame exactly when they look the same on screen, with digit counts clamped to 4. |
| `DisplayScenarios.TickTwice` | frontend/v2/firmware/locklogic/src/display.rs:88-95 | two ticks with no state change between them append the same frame twice, whatever elapsed times they are given. |
| `DisplayScenarios.SetStateTwiceThenTick` | frontend/v2/firmware/locklogic/src/display.rs:79-134 | when two states are set before a tick, only the second is rendered. |
| `DisplayScenarios.IdlePinWrong` | frontend/v2/firmware/locklogic/src/display.rs:60-134 | the run set Idle, tick, set PIN with 2 digits, tick, set Wrong, tick logs the three frames in that order. The PIN frame's masking string is "* *    ". |

## Left out

- The `Component` trait (frontend/v2/firmware/locklogic/src/lib.rs:7-11) is not declared as an interface, because Dafny traits are not used here. `Display.Controller.Tick` is the controller's implementation of it.
- The `Display` trait's pixel draw surface is not modelled. `Graphics.Target` keeps only the sequence of clear, draw and flush commands.
- The SSD1306 implementation of `Display` (display.rs:35-43) is not modelled: it forwards `flush` to the external panel driver.
- Font rasterisation, text measurement and centring arithmetic happen in the external graphics library and are not modelled. Draws are symbolic commands.
- Draw, clear and flush errors, which the code `unwrap()`s into a panic, are not modelled. Every draw is taken to succeed, so a tick never stops partway.
- The fixed-capacity string holds characters, not UTF-8 bytes. Every string the controller pushes is ASCII, so the two agree here.
- The controller holds its target by reference (`const target: Target`), not by exclusive ownership as the code does, so callers keep access to it and two controllers could share one. The contracts describe only the commands each call itself appends, and none of them relies on exclusive ownership.
- `u64` elapsed time is accepted by `Tick` and ignored, as in the code. The timer that produces it is not part of this model.
- The firmware entry point in frontend/v2/firmware/lockfw/src/main.rs is not modelled: clock, watchdog, GPIO, SPI and panel bring-up are hardware I/O, and the demo loop derives the state from floating-point seconds.
