# call-patient, modelled in Dafny

`call-patient` is a web component: a card that calls the next patient of a doctor. It
shows a countdown timer, a "Call Patient" button, a "Cancel" button and a field for the
number of seconds (0 to 3600). Clicking "Call Patient" disables the button and starts a
one-second interval. Each tick writes the remaining time as `MM:SS` and counts down.
When the count drops below zero, the interval stops. The card then switches to its
"calling" look, the button comes back labelled "Recall", and one `calling-patient`
event carrying the doctor's name is dispatched. "Cancel" stops everything and resets
the card.

The model has three modules:

- `Clock` (`clock.dfy`): `returnTime` and the display text it produces, with
  JavaScript's truncating division, its signed remainder and its number-to-text
  conversion written out. The whole-number behaviour is proved: minutes `t div 60`,
  seconds `t mod 60`, a leading "0" exactly below 10, and seconds always two
  characters. The display text also reads back as the number of seconds
  (`ParseClock`), so distinct times are shown differently.
- `InputClamp` (`input_clamp.dfy`): the `input` listener's `min(|v|, 3600)`.
- `CallPatient` (`widget.dfy`): the class `Widget`. Each element the component
  touches is a field: the call button's disabled flag and label, the timer text and
  classes, the "Next Patient" classes, the title and the seconds field. The closure
  variable `timeLeft`, an `events` log of dispatched payloads and a `running` flag
  for "an interval is active" are fields as well. The interval becomes an explicit
  `Tick` method. The object invariant `Valid()` says:
  - the call button is disabled exactly while a countdown runs, so at most one runs;
  - a running countdown shows the Initial look;
  - the ticks so far showed `n, n - 1, …` (ghost field `shown`);
  - each countdown dispatches at most one event, and only when it expires.

The model follows the code where a host might expect more:

- A host might expect unmounting to cancel the interval. The code has no
  `disconnectedCallback`, so nothing happens on unmount.
- The seconds field declares `min="0" max="3600"` (call-patient.js:138), and the
  `input` listener clamps to that range. But `render` copies the `timer` attribute
  into the field without clamping (call-patient.js:242), so a countdown can start
  above 3600 or below 0. `ReturnTime`
  is therefore defined on every integer. A negative start shows for instance
  `00:0-5` (JavaScript's `'0' + -5`) and expires on the first tick. Minutes are
  padded only below 10, so 100 minutes or more show three digits.

## Model

| member | source | states |
|---|---|---|
| `Clock.DigitsShape` | call-patient.js:149-150 | the decimal text of a whole number is all digits, one character exactly below 10, at most two below 100, with no leading zero |
| `Clock.ParseDigits` | call-patient.js:149-150 | the decimal text of a whole number reads back as that number |
| `Clock.ParseZeroPrefix` | call-patient.js:149-150 | the "0" prefix does not change the value of a digit string |
| `Clock.Pad2Correct` | call-patient.js:149-150 | a padded part is a digit string with the part's value, at least two characters (exactly two below 100), starting with "0" exactly when the part is below 10 |
| `Clock.ReturnTimeCorrect` | call-patient.js:145-153 | for a whole number `t`, minutes read back as `t div 60` and seconds as `t mod 60`; each starts with "0" exactly when below 10; seconds have length 2 and minutes at least 2 |
| `Clock.ClockTextShape` | call-patient.js:145-165 | for fewer than 6000 seconds (every clamped input), the display text is exactly five characters `MM:SS` |
| `Clock.ClockTextUnderTen` | call-patient.js:145-165 | under ten seconds the display is "00:0" followed by the digit |
| `Clock.ParseClockText` | call-patient.js:145-165 | the display text of `t` seconds reads back as `t` |
| `Clock.ClockTextInjective` | call-patient.js:145-165 | two whole numbers with the same display text are equal |
| `InputClamp.Normalize` | call-patient.js:225-228 | the listener's result lies in [0, 3600]; it is `|v|` when `|v| <= 3600` and 3600 otherwise, never more than `|v|` |
| `InputClamp.NormalizeIdempotent` | call-patient.js:225-228 | normalizing twice equals normalizing once |
| `InputClamp.NormalizeFixedPoints` | call-patient.js:225-228 | the listener leaves a value unchanged exactly when it lies in [0, 3600] |
| `InputClamp.NormalizeExamples` | call-patient.js:225-228 | `v` and `-v` normalize alike; -5 becomes 5 and 9999 becomes 3600 |
| `CallPatient.AddClass` | call-patient.js:208-210 | the class is present afterwards; every other class is as before |
| `CallPatient.RemoveClass` | call-patient.js:212-214 | the class is absent afterwards; every other class is as before |
| `CallPatient.TogglesCorrect` | call-patient.js:190-200 | `toggleInitialState` yields the Initial look and `toggleCallingState` the Calling look from any classes; neither changes any other class; each is idempotent |
| `CallPatient.Countdown` | call-patient.js:160-167 | the first `k` ticks show `k` remaining times, tick `i + 1` showing `n - i` |
| `CallPatient.ClockTextZero` | call-patient.js:163-165 | the last tick of a countdown shows "00:00" |
| `CallPatient.CountdownTextAt` | call-patient.js:160-167 | tick `i + 1` of a countdown from `n` shows the display text of `n - i` |
| `CallPatient.CountdownReadsBack` | call-patient.js:160-167 | tick `i + 1` of a countdown from a whole number `n` shows a text that reads back as `n - i` seconds |
| `CallPatient.CountdownComplete` | call-patient.js:160-167 | the `n + 1` ticks of a countdown from `n` start at the text of `n`, end at "00:00" and never repeat a text |
| `CallPatient.StoppedCorrect` | call-patient.js:180-188 | `stopTimer` leaves no interval, "00:00", an enabled "Call Patient" button and the Initial look; it keeps the events, attributes, title, seconds field and `timeLeft`; applying it twice equals applying it once |
| `CallPatient.Widget.constructor` | call-patient.js:121-138 | the card starts with no interval, an enabled "Call Patient" button, "00:00", the class lists of the markup (Initial look), no events, an empty title and doctor, and 0 for the `timer` attribute, the seconds field and `timeLeft` |
| `CallPatient.Widget.ToggleInitialState` | call-patient.js:190-194 | "Next Patient" gains `--disabled` and loses `--animation`; the timer loses `--disabled`; the look is Initial |
| `CallPatient.Widget.ToggleCallingState` | call-patient.js:196-200 | the opposite memberships; the look is Calling |
| `CallPatient.Widget.StartTimer` | call-patient.js:155-162 | disables the button, starts the interval, captures the seconds field into `timeLeft`, shows the Initial look; leaves the label, the display and the events alone (so "Recall" stays) |
| `CallPatient.Widget.ShowTime` | call-patient.js:163-165 | the timer display shows the `MM:SS` text of the given time |
| `CallPatient.Widget.Expire` | call-patient.js:167-176 | stops the interval, shows the Calling look, enables the button labelled "Recall", appends exactly one event carrying the current doctor |
| `CallPatient.Widget.Tick` | call-patient.js:162-177 | shows the text of `timeLeft` and decrements it; the countdown keeps running exactly while at most `max(n, 0)` ticks have happened, so it expires on tick `max(n, 0) + 1` and not before; on expiry it does what `Expire` does, otherwise only the display changes; the invariant is kept |
| `CallPatient.Widget.StopTimer` | call-patient.js:180-188 | the new card is `Stopped` of the old one, and the invariant is kept |
| `CallPatient.Widget.OnCallClick` | call-patient.js:217-219 | a click on a disabled button changes nothing; otherwise it is `startTimer`; either way exactly one countdown is running afterwards |
| `CallPatient.Widget.OnCancelClick` | call-patient.js:221-223 | cancel is `stopTimer`: the new card is `Stopped` of the old one, so it resets to "00:00", an enabled "Call Patient" button and the Initial look and keeps everything else; the invariant is kept |
| `CallPatient.Widget.OnInput` | call-patient.js:225-228 | the seconds field holds the normalized value |
| `CallPatient.Widget.Render` | call-patient.js:240-243 | the title shows the doctor, the seconds field the `timer` attribute |
| `CallPatient.Widget.AttributeChangedCallback` | call-patient.js:202-206 | stores the changed attribute and re-renders; the countdown, buttons, display, classes and events are outside its frame, and the invariant is kept |
| `CallPatient.CountdownFromThreeTexts` | call-patient.js:160-167 | a countdown from 3 shows "00:03", "00:02", "00:01", "00:00" |
| `CallPatient.CallWithThree` | call-patient.js:202-228 | a new card given a doctor, 3 typed into the seconds field and a click runs a countdown from 3 for that doctor, with nothing shown or dispatched yet |
| `CallPatient.CountdownFromThree` | call-patient.js:155-177 | with 3 seconds, four ticks show "00:03", "00:02", "00:01", "00:00"; the fourth expires with one event for the doctor and the label "Recall", and a new click keeps "Recall" |

## Left out

- The HTML and CSS template, shadow-DOM attachment, the `querySelector` wiring and `customElements.define` (call-patient.js:5-6, 16-143, 231-238, 246) are presentation and browser API. Elements are fields, and class lists are sets of class names.
- Wall-clock timing of `setInterval`/`clearInterval` is left out. The interval is the `running` flag, and the host calls `Tick` once per second. The interval handle itself is not modelled.
- `window.dispatchEvent` is modelled only as an append of the payload (the doctor) to `events`.
- JavaScript's coercion of the field's text to a number is left out: the empty string, fractions such as "2.5", and `parseInt` of quotients beyond 1e21 that print in exponent notation. The seconds field and the `timer` attribute are integers here.
- JavaScript numbers are doubles, and the model uses exact integers. The two agree on the safe integers (magnitude at most 2^53 - 1). Only the unclamped `timer` attribute (call-patient.js:242) can start a countdown beyond that. There the source's `--timeLeft` (call-patient.js:167) is inexact, and from 2^54 on it changes nothing, so the source never expires. Its display, for example "1666666666666666700:40" for `timer="1e20"`, comes from the rounded double quotient. `Widget.Tick` and `ClockText` instead count down exactly and expire on tick `n + 1`, so for such starts the model's expiry tick and display text differ from the source's.
- Attributes that were never set (`undefined` in JavaScript) are modelled as "" for the doctor and 0 for the timer.
- Widget.StartTimer: requires the call button to be enabled. Its only caller, the click listener, checks that first. A direct call while a countdown runs would orphan the earlier interval, and that case is not modelled.
- Unmounting is not modelled: the component defines no `disconnectedCallback`, so nothing happens on unmount.
