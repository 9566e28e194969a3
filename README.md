# Stargate dialing computer: the dialer core in Dafny

This project models the dialing computer of `stargate_app.py`: the `StargateApp`
object that composes a gate address from 39 glyphs, dials it chevron by chevron
on fixed timers, opens the wormhole, holds the connection, and closes the gate.
It covers the guarded address editor (add, remove, clear, load preset), the
dial start and gate close, the per-frame update, the key and button dispatch,
the glyph-button layout built at start-up, and the resolution of a mouse press
to the button under it.

The model has five modules:

- `Config` (`config.dfy`) holds the constants and the four preset addresses.
- `Controls` (`controls.dfy`) holds the buttons. `BuildButtons` fills the glyph grid with the source's nested loops and running index. `FirstHit` picks the button a press lands on.
- `Dialer` (`dialer.dfy`) specifies the state machine on values. The `Gate` datatype holds the state. Each command is a function whose contract states what the command does and that it keeps the invariant `Inv`.
- `App` (`app.dfy`) is the class `StargateApp`. Its fields are updated in place by methods that follow the source statement by statement. Each method is proved to leave the object in the state the matching `Dialer` function computes.
- `Traces` (`traces.dfy`) runs the dialer over sequences of key, pointer and frame events. It proves what holds over every run and the end-to-end scenarios.

Conventions:

- The clock is an explicit `now` parameter in milliseconds. The source reads it from the windowing library.
- Sound playback is a log of cue names (`Press`, `Lock`, `Error`, `Close`, `Kawoosh`). Each command appends the cues the source plays.
- The status line is a `Status` datatype rather than formatted text.

The invariant `Dialer.Inv` says:

- the composed address has at most 9 glyphs, each in [0, 39);
- `locked <= |current| <= 9`;
- an idle gate has no locks and no current address;
- a gate that is dialing, opening or connected holds an address of at least 7 glyphs;
- while dialing, `locked < |current|`; once opening or connected, `locked == |current|`.

The code locks chevrons on fixed timers: the first 450 ms after the dial starts, then one every 560 ms. It has no spinning ring that seeks each glyph and no radial wheel. The model follows the code in these other behaviours too:

- Removing or clearing outside IDLE is silent; it plays no error cue.
- An out-of-range glyph index is ignored silently.
- Starting a dial checks only the minimum length. Under `Inv` this equals the 7..9 check, which `Dialer.StartDial` proves.
- `locked_count` is 0 when the gate is idle, and also when dialing starts, so `Inv` states only that an idle gate has no locks.

## Model

| member | source | states |
|---|---|---|
| `Config.PresetIsDialable` | stargate_app.py:26-31 | every preset has between 7 and 9 glyphs, all in [0, 39) |
| `Config.PresetNamesAreKeys` | stargate_app.py:169-176 | the preset buttons list exactly the preset dictionary's keys, each once |
| `Controls.GlyphLabel` | stargate_app.py:24 | glyph i is labelled "S" plus two digits that read back as i + 1 |
| `Controls.BuildButtons` | stargate_app.py:121-176 | the nested row/column loops with a running index give glyph i the cell at row i / 6, column i % 6, then the four control buttons, and the presets left to right 122 px apart |
| `Controls.FirstHit` | stargate_app.py:196-200 | returns the first button whose rectangle contains the point, none before it containing it; or nothing when no button contains it |
| `Controls.TargetAt` | stargate_app.py:197 | a press tests the 4 preset buttons, then the 39 glyph buttons, then the 4 control buttons |
| `Controls.ClickTargetsWellFormed` | stargate_app.py:130-141 | each glyph index 0..38 has exactly one button, at position 4 + index; every preset button names a known preset |
| `Controls.GlyphRectsDisjoint` | stargate_app.py:130-141 | no point lies in two glyph buttons |
| `Controls.AtMostOneTargetHit` | stargate_app.py:121-176 | no point lies in two buttons of the panel, so the first hit of a press is its only hit |
| `Dialer.Inv` | stargate_app.py:111-114 | the invariant every command keeps: at most 9 glyphs entered, all in range. Idle means no locks and no current address. An active gate dials an address of 7 to 9 glyphs, with fewer locks than glyphs while dialing and all locked once opening |
| `Dialer.Initial` | stargate_app.py:109-119 | the start-up state is idle, with empty addresses and no cue, and satisfies the invariant |
| `Dialer.Wrap360` | stargate_app.py:296 | the ring angle is reduced into [0, 360) by a whole number of turns, and angles already in range are unchanged |
| `Dialer.AddSymbol` | stargate_app.py:229-241 | appends the glyph exactly when idle, under 9 glyphs and in [0, 39); otherwise the address is unchanged. Plays an error cue when not idle or full, and nothing for a bad index. Changes no dialing field and keeps the invariant |
| `Dialer.RemoveSymbol` | stargate_app.py:243-249 | when idle with a non-empty address, drops exactly the last glyph with a press cue; otherwise changes nothing; keeps the invariant |
| `Dialer.ClearSymbols` | stargate_app.py:251-256 | when idle, empties the address with a press cue; otherwise changes nothing; keeps the invariant |
| `Dialer.LoadPreset` | stargate_app.py:258-264 | when idle, the address becomes the preset's glyphs (7..9 valid glyphs); otherwise only an error cue; no dialing field changes; keeps the invariant |
| `Dialer.LoadedPresetDials` | stargate_app.py:258-279 | a preset loaded on an idle gate is always accepted by the dial command |
| `Dialer.StartDial` | stargate_app.py:266-279 | the state changes iff idle with at least 7 glyphs (under the invariant: 7..9). On success: current = entered, no locks, dialing, first lock due at now + 450. On rejection only the status and an error cue change. Keeps the invariant |
| `Dialer.CloseGate` | stargate_app.py:281-291 | from any non-idle state: idle, no locks, both addresses empty, ring angle 0, close cue. From idle only the status changes. Keeps the invariant |
| `Dialer.Update` | stargate_app.py:293-318 | dialing before the deadline only turns the ring. At or after it, exactly one more chevron locks: then opening (due now + 1100) iff all are locked, else the next lock is due now + 560. A dialing gate only ever stays dialing or starts opening, and never changes its connection time. Opening connects at now iff its deadline passed. Connected and idle change no state, address, count or deadline. Addresses are never touched. Keeps the invariant |
| `Dialer.HandleKey` | stargate_app.py:202-213 | digit keys 1..9 append glyph key - K_1 when idle and not full, with a press cue and the "selected n" status. Off idle they add only an error cue. On a full address they add an error cue and the "address full" status. Enter dials an idle address of at least 7 glyphs: current = entered, no locks, first lock at now + 450, "dial started", press cue; the entered address, ring angle, opening deadline and connection time are kept. Enter on a short address sets "need more symbols" with an error cue; off idle it adds only an error cue. When idle, Backspace drops the last glyph ("selected n", press cue) and does nothing on an empty address. When idle, Delete empties the address ("cleared", press cue). Off idle both change nothing. Escape on an active gate closes it: idle, both addresses and the lock count emptied, ring angle 0, "gate closed", close cue, deadlines kept. On an idle gate Escape changes only the status. Other keys change nothing. Keeps the invariant |
| `Dialer.Activate` | stargate_app.py:215-227 | a glyph button appends its glyph iff idle, not full and in range, with a press cue and the "selected n" status. Off idle it adds only an error cue; on a full address an error cue and "address full"; an out-of-range glyph changes nothing. DIAL, BACK, CLEAR and CLOSE GATE have exactly the effects of Enter, Backspace, Delete and Escape, each stated field by field. A preset loads its address when idle, with a press cue and the "loaded preset" status; off idle it adds only an error cue. Only DIAL and CLOSE GATE change the state. Keeps the invariant |
| `Dialer.KeysAreButtons` | stargate_app.py:202-227 | each key shortcut gives exactly the state its button gives: 1..9 the first nine glyphs, Enter DIAL, Backspace BACK, Delete CLEAR, Escape CLOSE GATE |
| `Dialer.Click` | stargate_app.py:196-200 | a press on no button changes nothing; otherwise it activates the first button hit; keeps the invariant |
| `App.StargateApp.constructor` | stargate_app.py:94-119 | builds the button tables and starts in the idle initial state |
| `App.StargateApp.AddSymbol` | stargate_app.py:229-241 | updates the fields in place to exactly the state `Dialer.AddSymbol` gives, keeping the object invariant |
| `App.StargateApp.RemoveSymbol` | stargate_app.py:243-249 | updates the fields in place to exactly the state `Dialer.RemoveSymbol` gives |
| `App.StargateApp.ClearSymbols` | stargate_app.py:251-256 | updates the fields in place to exactly the state `Dialer.ClearSymbols` gives |
| `App.StargateApp.LoadPreset` | stargate_app.py:258-264 | updates the fields in place to exactly the state `Dialer.LoadPreset` gives |
| `App.StargateApp.StartDial` | stargate_app.py:266-279 | updates the fields in place to exactly the state `Dialer.StartDial` gives |
| `App.StargateApp.CloseGate` | stargate_app.py:281-291 | updates the fields in place to exactly the state `Dialer.CloseGate` gives |
| `App.StargateApp.Update` | stargate_app.py:293-318 | updates the fields in place to exactly the state `Dialer.Update` gives |
| `App.StargateApp.HandleKey` | stargate_app.py:202-213 | dispatches to the mutators, ending in the state `Dialer.HandleKey` gives |
| `App.StargateApp.Activate` | stargate_app.py:215-227 | dispatches to the mutators, ending in the state `Dialer.Activate` gives |
| `App.StargateApp.HandleClick` | stargate_app.py:196-200 | scans presets then buttons and activates the first one hit, ending in the state `Dialer.Click` gives |
| `Traces.Step` | stargate_app.py:187-194 | one key, pointer or frame event keeps the invariant, and a frame on an idle gate changes nothing |
| `Traces.PointerPress` | stargate_app.py:191-192 | a press on the laid-out panel activates the first button hit, which is always well formed |
| `Traces.RunPreservesInv` | stargate_app.py:229-318 | every run of events from a valid state ends in a valid state; the address never exceeds 9 glyphs |
| `Traces.StepAccounting` | stargate_app.py:297-310 | per event, the cue log only grows. The lock count rises by at most one, by exactly the number of lock cues played unless a close cue is played. It falls only when the gate closes to idle with no locks |
| `Traces.KeyAccounting` | stargate_app.py:202-213 | no key press locks a chevron; only a close lowers the count |
| `Traces.ActivateAccounting` | stargate_app.py:215-227 | no button press locks a chevron; only a close lowers the count |
| `Traces.FrameAccounting` | stargate_app.py:297-310 | a frame raises the lock count by 0 or 1, exactly the number of lock cues it plays |
| `Traces.RunAccounting` | stargate_app.py:297-299 | over any run without a close cue, the lock count rises by exactly one per lock cue and never falls |
| `Traces.IdleIgnoresFrames` | stargate_app.py:293-295 | an idle gate ignores any number of frames, so a stale lock deadline never fires after a close |
| `Traces.DialingOpens` | stargate_app.py:297-306 | frames at successive deadlines lock the remaining chevrons and start opening. The opening deadline is the last lock time + 1100 |
| `Traces.EpisodeConnects` | stargate_app.py:266-318 | dialing at t, n lock frames (at t + 450, then every 560 ms) and a frame at the opening deadline reach connected with n locks |
| `Traces.EnterDials` | stargate_app.py:206-207 | Enter on an idle gate holding at least 7 glyphs starts dialing that address with no locks, the first lock due at t + 450 |
| `Traces.OpeningConnects` | stargate_app.py:311-315 | a frame at or after the opening deadline connects the gate at that time and changes nothing else but the status |
| `Traces.PressFirstPreset` | stargate_app.py:169-176 | from any state, a press at the top-left corner of the first preset button runs the Abydos preset load, which loads only on an idle gate |
| `Traces.AbydosConnects` | stargate_app.py:27 | load Abydos by pointer, press Enter, and run the lock frames: the gate connects with 7 chevrons locked on the Abydos address |
| `Traces.KeySymbols` | stargate_app.py:203-205 | the glyph selected by each digit key is its key code minus K_1, in order |
| `Traces.TypeDigit` | stargate_app.py:202-205 | a digit key on an idle gate appends its glyph unless 9 are entered |
| `Traces.TypingFillsToNine` | stargate_app.py:233-239 | typing any digit keys on an idle gate appends their glyphs up to 9 in total and drops the rest |
| `Traces.SixSymbolsRejected` | stargate_app.py:270-273 | six glyphs then Enter: still idle, status "need at least 7", error cue |
| `Traces.TenthSymbolRejected` | stargate_app.py:233-236 | ten digit keys: the address holds the first nine; the tenth gives "address full" and an error cue |
| `Traces.CloseMidDial` | stargate_app.py:281-291 | Escape while dialing returns to idle with both addresses empty, and a later frame past the stale deadline locks nothing |

## Left out

- Sound synthesis and playback (`GateAudio`, stargate_app.py:42-90) is left out. It is floating-point sine synthesis and the audio mixer. Playback is modelled only as the cue log, whatever the mixer's state.
- Drawing (all `_draw_*` methods, stargate_app.py:320-455) is left out. It is rendering with floating-point trigonometry.
- The event loop (`run`, `_handle_events`, stargate_app.py:178-194) is left out, including the quit event and the frame clock. `Traces.Step` stands for one dispatched event or one frame.
- Floating-point rounding is not modelled. `Dialer.Wrap360` computes the ring angle's `% 360.0` on exact reals. The connected status keeps the elapsed milliseconds (`ActiveFor`), not the formatted one-decimal seconds text.
- `Controls.Collides` is the integer, half-open point-in-rectangle test of the drawing library. The library's own implementation is not part of this model.
- Button payloads are typed by the `Action` datatype instead of the source's untyped payload. The source's runtime payload checks (`int(...)`, `isinstance`) therefore always succeed here, as they do for every button the source builds.
- Dialer.LoadPreset: requires the preset name to be known when the gate is idle. In the source an unknown name raises a lookup error that ends the program; that crash is not modelled. Every preset button names a known preset (`Controls.ClickTargetsWellFormed`).
- The addresses are Dafny values, not shared mutable lists. The source copies on load and on dial start, so no list is shared there; sharing between lists is not modelled.
- Status text is a `Status` datatype. The exact wording of each message is not modelled.
