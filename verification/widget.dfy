/** The `call-patient` card: a countdown controller over the card's elements.

    Each element the component touches is a field: the call button (`callDisabled`,
    `callLabel`), the timer display (`timerText`, `timerClasses`), the "Next Patient"
    indicator (`nextPatientClasses`), the title and the seconds field (`inputValue`).
    The repeating one-second interval is the flag `running` together with an explicit
    `Tick` step; the closure variable of the interval callback is `timeLeft`; the
    `calling-patient` events dispatched on the window are the log `events` of their
    payloads. */
module CallPatient {
  import opened Clock
  import opened InputClamp

  const InfoDisabled := "CardQueue__Info--disabled"
  const InfoAnimation := "CardQueue__Info--animation"
  const CallPatientLabel := "Call Patient"
  const RecallLabel := "Recall"

  /** `classList.add`. */
  function AddClass(classes: set<string>, c: string): (r: set<string>)
    ensures c in r
    ensures forall x :: x != c ==> (x in r <==> x in classes)
  {
    classes + {c}
  }

  /** `classList.remove`. */
  function RemoveClass(classes: set<string>, c: string): (r: set<string>)
    ensures c !in r
    ensures forall x :: x != c ==> (x in r <==> x in classes)
  {
    classes - {c}
  }

  /** What `toggleInitialState` does to the "Next Patient" classes. */
  function InitialNext(next: set<string>): set<string>
  {
    RemoveClass(AddClass(next, InfoDisabled), InfoAnimation)
  }

  /** What `toggleInitialState` does to the timer classes. */
  function InitialTimer(timer: set<string>): set<string>
  {
    RemoveClass(timer, InfoDisabled)
  }

  /** What `toggleCallingState` does to the "Next Patient" classes. */
  function CallingNext(next: set<string>): set<string>
  {
    RemoveClass(AddClass(next, InfoAnimation), InfoDisabled)
  }

  /** What `toggleCallingState` does to the timer classes. */
  function CallingTimer(timer: set<string>): set<string>
  {
    AddClass(timer, InfoDisabled)
  }

  /** The two visual states, and `Mixed` for any other combination of the classes. */
  datatype Look = Initial | Calling | Mixed

  function LookOf(next: set<string>, timer: set<string>): Look
  {
    if InfoDisabled in next && InfoAnimation !in next && InfoDisabled !in timer then Initial
    else if InfoDisabled !in next && InfoAnimation in next && InfoDisabled in timer then Calling
    else Mixed
  }

  /** The toggles set their state whatever the classes were before, change no class
      besides the two modifier classes, and applying one twice is applying it once. */
  lemma TogglesCorrect(next: set<string>, timer: set<string>)
    ensures LookOf(InitialNext(next), InitialTimer(timer)) == Initial
    ensures LookOf(CallingNext(next), CallingTimer(timer)) == Calling
    ensures forall c :: c != InfoDisabled && c != InfoAnimation ==>
      && (c in InitialNext(next) <==> c in next) && (c in CallingNext(next) <==> c in next)
    ensures forall c :: c != InfoDisabled ==>
      && (c in InitialTimer(timer) <==> c in timer) && (c in CallingTimer(timer) <==> c in timer)
    ensures InitialNext(InitialNext(next)) == InitialNext(next)
    ensures InitialTimer(InitialTimer(timer)) == InitialTimer(timer)
    ensures CallingNext(CallingNext(next)) == CallingNext(next)
    ensures CallingTimer(CallingTimer(timer)) == CallingTimer(timer)
  {
  }

  function Max0(n: int): nat
  {
    if n < 0 then 0 else n
  }

  /** The remaining times the first `k` ticks of a countdown from `n` show: `n, n - 1, …`. */
  function Countdown(n: int, k: nat): (r: seq<int>)
    ensures |r| == k
    ensures forall i :: 0 <= i < k ==> r[i] == n - i
  {
    if k == 0 then [] else Countdown(n, k - 1) + [n - (k - 1)]
  }

  /** The display texts of a sequence of remaining times. */
  function Texts(times: seq<int>): (r: seq<string>)
    ensures |r| == |times|
  {
    seq(|times|, i requires 0 <= i < |times| => ClockText(times[i]))
  }

  /** The text of the last tick, zero seconds. */
  lemma ClockTextZero()
    ensures ClockText(0) == "00:00"
  {
    assert ReturnTime(0) == Time("00", "00");
  }

  /** Tick `i + 1` of a countdown from `n` shows the text of `n - i`. */
  lemma CountdownTextAt(n: int, k: nat, i: nat)
    requires i < k
    ensures Texts(Countdown(n, k))[i] == ClockText(n - i)
  {
    assert Countdown(n, k)[i] == n - i;
  }

  /** Tick `i + 1` of a countdown from a whole number `n` shows a text that reads back
      as `n - i`, the seconds that remained. */
  lemma CountdownReadsBack(n: nat, i: nat)
    requires i <= n
    ensures ParseClock(Texts(Countdown(n, n + 1))[i]) == Some(n - i)
  {
    CountdownTextAt(n, n + 1, i);
    ParseClockText(n - i);
  }

  /** A full countdown from a whole number `n` has `n + 1` ticks showing `n, n - 1, …, 0`:
      its texts start at the text of `n`, end at "00:00", and no text is shown twice. */
  lemma CountdownComplete(n: nat)
    ensures var c := Texts(Countdown(n, n + 1));
      && c[0] == ClockText(n) && c[n] == "00:00"
      && (forall i, j :: 0 <= i < j <= n ==> c[i] != c[j])
  {
    var c := Texts(Countdown(n, n + 1));
    CountdownTextAt(n, n + 1, 0);
    CountdownTextAt(n, n + 1, n);
    ClockTextZero();
    forall i, j | 0 <= i < j <= n
      ensures c[i] != c[j]
    {
      CountdownReadsBack(n, i);
      CountdownReadsBack(n, j);
    }
  }

  /** Everything the card shows or keeps, read off a widget at one moment. */
  datatype Card = Card(
    callDisabled: bool, callLabel: string, timerText: string,
    timerClasses: set<string>, nextPatientClasses: set<string>,
    title: string, inputValue: int, doctor: string, timer: int,
    running: bool, timeLeft: int, events: seq<string>)

  /** What `stopTimer` makes of a card. */
  function Stopped(c: Card): Card
  {
    c.(running := false, timerText := "00:00", callLabel := CallPatientLabel,
       callDisabled := false,
       nextPatientClasses := InitialNext(c.nextPatientClasses),
       timerClasses := InitialTimer(c.timerClasses))
  }

  /** Stopping leaves no interval, "00:00" on the display, an enabled "Call Patient"
      button and the Initial look; the event log, the attributes, the title, the seconds
      field and the closure variable stay as they were; and stopping a stopped card
      changes nothing. */
  lemma StoppedCorrect(c: Card)
    ensures var s := Stopped(c);
      && !s.running && !s.callDisabled && s.timerText == "00:00"
      && s.callLabel == CallPatientLabel
      && LookOf(s.nextPatientClasses, s.timerClasses) == Initial
      && s.events == c.events && s.doctor == c.doctor && s.timer == c.timer
      && s.title == c.title && s.inputValue == c.inputValue && s.timeLeft == c.timeLeft
      && Stopped(s) == s
  {
    TogglesCorrect(c.nextPatientClasses, c.timerClasses);
  }

  /** Which attribute `attributeChangedCallback` was told about, with its new value. */
  datatype Attribute = DoctorAttribute(doctor: string) | TimerAttribute(seconds: int)

  class Widget {
    var callDisabled: bool
    var callLabel: string
    var timerText: string
    var timerClasses: set<string>
    var nextPatientClasses: set<string>
    var title: string
    var inputValue: int
    var doctor: string
    var timer: int
    /** An interval is active. */
    var running: bool
    /** The interval callback's closure variable. */
    var timeLeft: int
    /** The payloads of the `calling-patient` events dispatched so far. */
    var events: seq<string>

    /** The value the current (or last) countdown started from. */
    ghost var startValue: int
    /** The remaining times its ticks have shown, in order. */
    ghost var shown: seq<int>
    /** The length of `events` when it started. */
    ghost var startEvents: nat

    function CurrentLook(): Look
      reads this
    {
      LookOf(nextPatientClasses, timerClasses)
    }

    function Snapshot(): Card
      reads this
    {
      Card(callDisabled, callLabel, timerText, timerClasses, nextPatientClasses, title,
           inputValue, doctor, timer, running, timeLeft, events)
    }

    /** The call button is disabled exactly while a countdown runs (so at most one runs);
        a running countdown is in the Initial look, has shown `startValue, startValue - 1, …`
        one text per tick, and has not yet dispatched its event; a countdown dispatches
        at most one event. */
    ghost predicate Valid()
      reads this
    {
      && callDisabled == running
      && CurrentLook() != Mixed
      && (running ==> CurrentLook() == Initial)
      && shown == Countdown(startValue, |shown|)
      && (running ==> timeLeft == startValue - |shown| && |shown| <= Max0(startValue))
      && startEvents <= |events| <= startEvents + 1
      && (running ==> |events| == startEvents)
    }

    /** The card as its markup first renders it; no attribute has been set yet. */
    constructor ()
      ensures Valid() && !running && !callDisabled && CurrentLook() == Initial
      ensures callLabel == CallPatientLabel && timerText == "00:00" && events == []
      ensures timerClasses == {"CardQueue__Info"}
      ensures nextPatientClasses == {"CardQueue__Info", "CardQueue__Info--big", InfoDisabled}
      ensures title == "" && doctor == "" && timer == 0 && inputValue == 0 && timeLeft == 0
      ensures startValue == 0 && shown == [] && startEvents == 0
    {
      callDisabled := false;
      callLabel := CallPatientLabel;
      timerText := "00:00";
      timerClasses := {"CardQueue__Info"};
      nextPatientClasses := {"CardQueue__Info", "CardQueue__Info--big", InfoDisabled};
      title := "";
      inputValue := 0;
      doctor := "";
      timer := 0;
      running := false;
      timeLeft := 0;
      events := [];
      startValue := 0;
      shown := [];
      startEvents := 0;
    }

    /** `toggleInitialState`. */
    method ToggleInitialState()
      modifies this`nextPatientClasses, this`timerClasses
      ensures nextPatientClasses == InitialNext(old(nextPatientClasses))
      ensures timerClasses == InitialTimer(old(timerClasses))
      ensures CurrentLook() == Initial
    {
      nextPatientClasses := AddClass(nextPatientClasses, InfoDisabled);
      timerClasses := RemoveClass(timerClasses, InfoDisabled);
      nextPatientClasses := RemoveClass(nextPatientClasses, InfoAnimation);
    }

    /** `toggleCallingState`. */
    method ToggleCallingState()
      modifies this`nextPatientClasses, this`timerClasses
      ensures nextPatientClasses == CallingNext(old(nextPatientClasses))
      ensures timerClasses == CallingTimer(old(timerClasses))
      ensures CurrentLook() == Calling
    {
      timerClasses := AddClass(timerClasses, InfoDisabled);
      nextPatientClasses := AddClass(nextPatientClasses, InfoAnimation);
      nextPatientClasses := RemoveClass(nextPatientClasses, InfoDisabled);
    }

    /** `startTimer`: disables the call button, shows the Initial look, captures the
        seconds field and starts the interval. The label and the display are left as
        they were, so after an expiry the button still reads "Recall". */
    method StartTimer()
      requires Valid() && !callDisabled
      modifies this
      ensures Valid()
      ensures running && callDisabled && timeLeft == old(inputValue)
      ensures nextPatientClasses == InitialNext(old(nextPatientClasses))
      ensures timerClasses == InitialTimer(old(timerClasses))
      ensures callLabel == old(callLabel) && timerText == old(timerText)
      ensures startValue == old(inputValue) && shown == [] && startEvents == |events|
      ensures events == old(events) && doctor == old(doctor) && timer == old(timer)
      ensures title == old(title) && inputValue == old(inputValue)
    {
      callDisabled := true;
      ToggleInitialState();
      timeLeft := inputValue;
      running := true;
      startValue, shown, startEvents := inputValue, [], |events|;
    }

    /** The first two statements of the interval callback: `returnTime` and writing
        `${minutes}:${seconds}` to the timer display. The body follows those two
        statements; `ClockText` is its specification, and the `Clock` lemmas are
        about that function. */
    method ShowTime(time: int)
      modifies this`timerText
      ensures timerText == ClockText(time)
    {
      var t := ReturnTime(time);
      timerText := t.minutes + ":" + t.seconds;
    }

    /** The body of the callback's `if`: clear the interval, show the Calling look,
        re-enable the button as "Recall" and dispatch one `calling-patient` event carrying
        the current doctor. */
    method Expire()
      modifies this
      ensures !running && !callDisabled && callLabel == RecallLabel && CurrentLook() == Calling
      ensures events == old(events) + [doctor]
      ensures nextPatientClasses == CallingNext(old(nextPatientClasses))
      ensures timerClasses == CallingTimer(old(timerClasses))
      ensures timerText == old(timerText) && timeLeft == old(timeLeft)
      ensures startValue == old(startValue) && shown == old(shown) && startEvents == old(startEvents)
      ensures doctor == old(doctor) && timer == old(timer)
      ensures title == old(title) && inputValue == old(inputValue)
    {
      running := false;
      ToggleCallingState();
      callDisabled := false;
      callLabel := RecallLabel;
      events := events + [doctor];
    }

    /** One run of the interval callback: show the remaining time, count down, and expire
        when the count drops below zero. The countdown expires on tick
        `Max0(startValue) + 1`, not before, and dispatches its one event then. */
    method Tick()
      requires Valid() && running
      modifies this
      ensures Valid()
      ensures timerText == ClockText(old(timeLeft)) && timeLeft == old(timeLeft) - 1
      ensures shown == old(shown) + [old(timeLeft)]
      ensures running <==> |shown| <= Max0(startValue)
      ensures running ==>
        && callDisabled && callLabel == old(callLabel) && events == old(events)
        && nextPatientClasses == old(nextPatientClasses) && timerClasses == old(timerClasses)
      ensures !running ==>
        && !callDisabled && callLabel == RecallLabel && events == old(events) + [doctor]
        && nextPatientClasses == CallingNext(old(nextPatientClasses))
        && timerClasses == CallingTimer(old(timerClasses)) && CurrentLook() == Calling
      ensures startValue == old(startValue) && startEvents == old(startEvents)
      ensures doctor == old(doctor) && timer == old(timer)
      ensures title == old(title) && inputValue == old(inputValue)
    {
      ShowTime(timeLeft);
      shown := shown + [timeLeft];
      timeLeft := timeLeft - 1;
      if timeLeft < 0 {
        Expire();
      }
    }

    /** `stopTimer`: clears the interval and resets the card to "00:00", an enabled
        "Call Patient" button and the Initial look, whatever state it was in. */
    method StopTimer()
      requires Valid()
      modifies this
      ensures Valid() && Snapshot() == Stopped(old(Snapshot()))
      ensures startValue == old(startValue) && shown == old(shown) && startEvents == old(startEvents)
    {
      running := false;
      timerText := "00:00";
      callLabel := CallPatientLabel;
      callDisabled := false;
      ToggleInitialState();
    }

    /** The call button's click listener: starts a countdown unless the button is disabled,
        in which case nothing changes. */
    method OnCallClick()
      requires Valid()
      modifies this
      ensures Valid() && running && callDisabled
      ensures old(callDisabled) ==> unchanged(this)
      ensures !old(callDisabled) ==>
        && timeLeft == old(inputValue) && shown == [] && startValue == old(inputValue)
        && startEvents == |events| && events == old(events)
        && callLabel == old(callLabel) && timerText == old(timerText)
        && nextPatientClasses == InitialNext(old(nextPatientClasses))
        && timerClasses == InitialTimer(old(timerClasses))
        && doctor == old(doctor) && timer == old(timer)
        && title == old(title) && inputValue == old(inputValue)
    {
      if !callDisabled {
        StartTimer();
      }
    }

    /** The cancel button's click listener. */
    method OnCancelClick()
      requires Valid()
      modifies this
      ensures Valid() && Snapshot() == Stopped(old(Snapshot()))
      ensures startValue == old(startValue) && shown == old(shown) && startEvents == old(startEvents)
      ensures !running && !callDisabled && CurrentLook() == Initial
      ensures timerText == "00:00" && callLabel == CallPatientLabel && events == old(events)
    {
      StopTimer();
      StoppedCorrect(old(Snapshot()));
    }

    /** The seconds field's `input` listener, run after the user left `typed` in the field. */
    method OnInput(typed: int)
      modifies this`inputValue
      ensures inputValue == Normalize(typed)
    {
      inputValue := Normalize(typed);
    }

    /** `render`: the title shows the doctor, the seconds field the `timer` attribute
        (not clamped). */
    method Render()
      modifies this`title, this`inputValue
      ensures title == doctor && inputValue == timer
    {
      title := doctor;
      inputValue := timer;
    }

    /** `attributeChangedCallback`: stores the attribute and re-renders; the countdown,
        the buttons, the display and the event log are outside its frame. */
    method AttributeChangedCallback(change: Attribute)
      requires Valid()
      modifies this`doctor, this`timer, this`title, this`inputValue
      ensures Valid()
      ensures change.DoctorAttribute? ==> doctor == change.doctor && timer == old(timer)
      ensures change.TimerAttribute? ==> timer == change.seconds && doctor == old(doctor)
      ensures title == doctor && inputValue == timer
    {
      match change {
        case DoctorAttribute(d) => doctor := d;
        case TimerAttribute(s) => timer := s;
      }
      Render();
    }
  }

  /** The texts of a countdown from 3. */
  lemma CountdownFromThreeTexts()
    ensures Texts(Countdown(3, 4)) == ["00:03", "00:02", "00:01", "00:00"]
  {
    var c := Texts(Countdown(3, 4));
    forall i | 0 <= i < 4
      ensures c[i] == "00:0" + [DigitChar(3 - i)]
    {
      CountdownTextAt(3, 4, i);
      ClockTextUnderTen(3 - i);
    }
    assert DigitChar(3) == '3' && DigitChar(2) == '2' && DigitChar(1) == '1' && DigitChar(0) == '0';
    assert c[0] == "00:03" && c[1] == "00:02" && c[2] == "00:01" && c[3] == "00:00";
  }

  /** A new card for the doctor `name`, 3 typed into its seconds field, and a click on
      "Call Patient": a countdown from 3 has started and nothing was dispatched yet. */
  method CallWithThree(name: string) returns (w: Widget)
    ensures fresh(w) && w.Valid() && w.running && w.startValue == 3 && |w.shown| == 0
    ensures w.doctor == name && w.events == []
  {
    w := new Widget();
    w.AttributeChangedCallback(DoctorAttribute(name));
    w.OnInput(3);
    w.OnCallClick();
  }

  /** The card with 3 in its seconds field: a click and four ticks show "00:03", "00:02",
      "00:01" and "00:00", expire on the fourth tick with one event for the doctor and
      the label "Recall"; clicking again starts a countdown that keeps that label. */
  method CountdownFromThree(name: string)
    returns (texts: seq<string>, events: seq<string>, expiredLabel: string, labelAfterRecall: string)
    ensures texts == ["00:03", "00:02", "00:01", "00:00"]
    ensures events == [name] && expiredLabel == RecallLabel && labelAfterRecall == RecallLabel
  {
    var w := CallWithThree(name);
    texts := [];
    var tick := 0;
    while tick < 4
      invariant 0 <= tick <= 4 && w.Valid() && w.startValue == 3 && w.doctor == name
      invariant w.events == (if tick == 4 then [name] else [])
      invariant w.running <==> tick < 4
      invariant tick == 4 ==> w.callLabel == RecallLabel
      invariant |w.shown| == tick && |texts| == tick
      invariant forall i :: 0 <= i < tick ==> texts[i] == ClockText(3 - i)
      modifies w
    {
      w.Tick();
      texts := texts + [w.timerText];
      tick := tick + 1;
    }
    CountdownFromThreeTexts();
    assert texts == Texts(Countdown(3, 4));
    events, expiredLabel := w.events, w.callLabel;
    w.OnCallClick();
    labelAfterRecall := w.callLabel;
  }
}
