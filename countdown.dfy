/** The countdown component: a whole-second counter that an interval
    decrements, that calls its optional completion handler when it reaches
    zero, and that shows the remaining time as `SS` or `MM:SS`. One second
    of real time is one `Tick`. */
module Countdown {
  import opened Decimal

  datatype Format = Seconds | MinutesSeconds

  /** The component's state: the remaining seconds, whether an interval is
      scheduled, whether a completion handler was passed, and how many times
      that handler has been called. */
  datatype Timer = Timer(left: int, running: bool, hasOnComplete: bool, completions: nat)

  /** An interval is only ever scheduled while time is left. */
  predicate Valid(t: Timer) {
    t.running ==> t.left > 0
  }

  /** Mounting: the state starts at `seconds`; the effect then either calls
      the handler at once (nothing left) or schedules the interval. */
  function Mount(seconds: int, hasOnComplete: bool): (t: Timer)
    ensures Valid(t) && t.left == seconds && t.hasOnComplete == hasOnComplete
    ensures t.running <==> seconds > 0
    ensures t.completions <= 1
    ensures t.completions == 1 <==> hasOnComplete && seconds <= 0
  {
    Timer(seconds, seconds > 0, hasOnComplete, if seconds <= 0 && hasOnComplete then 1 else 0)
  }

  /** One second elapses: a scheduled interval decrements the state, and the
      effect that runs on the new value either calls the handler (nothing
      left, no new interval) or schedules the next interval. */
  function AfterTick(t: Timer): (r: Timer)
    ensures !t.running ==> r == t
    ensures t.running ==> r.left == t.left - 1 && (r.running <==> r.left > 0)
    ensures r.hasOnComplete == t.hasOnComplete
    ensures Valid(t) ==> Valid(r) && (t.running ==> r.left >= 0)
    ensures r.completions == t.completions + 1 <==> t.running && r.left <= 0 && t.hasOnComplete
    ensures r.completions == t.completions || r.completions == t.completions + 1
  {
    if !t.running then t
    else
      var left := t.left - 1;
      Timer(left, left > 0, t.hasOnComplete,
            if left <= 0 && t.hasOnComplete then t.completions + 1 else t.completions)
  }

  /** Unmounting: the effect's cleanup clears the interval. */
  function Stop(t: Timer): (r: Timer)
    ensures !r.running && Valid(r)
    ensures r.left == t.left && r.completions == t.completions
  {
    t.(running := false)
  }

  /** The state after `m` seconds. */
  function Elapse(t: Timer, m: nat): Timer
    decreases m
  {
    if m == 0 then t else AfterTick(Elapse(t, m - 1))
  }

  /** Started at N >= 0: after M < N seconds the state is N - M, still
      running, and the handler has not been called; from N seconds on the
      state is 0 for good and the handler has been called exactly once if
      there is one (never, if there is none). */
  lemma {:induction false} ElapseFromMount(seconds: nat, hasOnComplete: bool, m: nat)
    ensures m < seconds ==> Elapse(Mount(seconds, hasOnComplete), m) == Timer(seconds - m, true, hasOnComplete, 0)
    ensures m >= seconds ==> Elapse(Mount(seconds, hasOnComplete), m) == Timer(0, false, hasOnComplete, if hasOnComplete then 1 else 0)
    decreases m
  {
    if m > 0 {
      ElapseFromMount(seconds, hasOnComplete, m - 1);
    }
  }

  /** Started at N >= 0, the state never goes below zero. */
  lemma NeverNegative(seconds: nat, hasOnComplete: bool, m: nat)
    ensures 0 <= Elapse(Mount(seconds, hasOnComplete), m).left <= seconds
  {
    ElapseFromMount(seconds, hasOnComplete, m);
  }

  /** After unmounting no tick changes anything and the handler is never called again. */
  lemma {:induction false} StoppedStaysStill(t: Timer, m: nat)
    ensures Elapse(Stop(t), m) == Stop(t)
    decreases m
  {
    if m > 0 {
      StoppedStaysStill(t, m - 1);
    }
  }

  /** The component as an object whose fields the interval updates in place. */
  class CountdownTimer {
    var timeLeft: int
    var running: bool
    var completions: nat
    const hasOnComplete: bool
    const format: Format

    function State(): Timer
      reads this
    {
      Timer(timeLeft, running, hasOnComplete, completions)
    }

    constructor (seconds: int, format: Format, hasOnComplete: bool)
      ensures State() == Mount(seconds, hasOnComplete) && this.format == format
      ensures timeLeft == seconds
    {
      this.format := format;
      this.hasOnComplete := hasOnComplete;
      timeLeft := seconds;
      running := seconds > 0;
      completions := if seconds <= 0 && hasOnComplete then 1 else 0;
    }

    method Tick()
      modifies this
      ensures State() == AfterTick(old(State()))
      ensures old(running) ==> timeLeft == old(timeLeft) - 1
      ensures !old(running) ==> unchanged(this)
    {
      if running {
        timeLeft := timeLeft - 1;
        running := timeLeft > 0;
        if timeLeft <= 0 && hasOnComplete {
          completions := completions + 1;
        }
      }
    }

    method Unmount()
      modifies this
      ensures State() == Stop(old(State()))
    {
      running := false;
    }
  }

  /** `String.prototype.padStart`: fill on the left up to `width` characters. */
  function PadStart(s: string, width: nat, fill: char): (r: string)
    ensures |r| == if |s| >= width then |s| else width
    ensures r[|r| - |s|..] == s
    ensures forall i :: 0 <= i < |r| - |s| ==> r[i] == fill
  {
    if |s| >= width then s else seq(width - |s|, _ => fill) + s
  }

  /** What the component displays for `time` seconds. */
  function FormatTime(time: nat, format: Format): string {
    match format
    case MinutesSeconds => PadStart(ToString(time / 60), 2, '0') + ":" + PadStart(ToString(time % 60), 2, '0')
    case Seconds => PadStart(ToString(time), 2, '0')
  }

  /** Below 100, padding to two places gives two digits that read back as the number. */
  lemma TwoDigits(n: nat)
    requires n < 100
    ensures |PadStart(ToString(n), 2, '0')| == 2
    ensures AllDigits(PadStart(ToString(n), 2, '0'))
    ensures Value(PadStart(ToString(n), 2, '0')) == n
  {
    ToStringLength(n);
    ValueOfToString(n);
    if n < 10 {
      assert PadStart(ToString(n), 2, '0') == ['0'] + ToString(n);
      ValueLeadingZero(ToString(n));
    }
  }

  /** Splitting a time below 100 minutes into minutes and seconds. */
  lemma MinutesAndSeconds(time: nat)
    requires time < 6000
    ensures time / 60 < 100 && time % 60 < 60
    ensures time / 60 * 60 + time % 60 == time
  {
  }

  /** The `MM:SS` form, below 100 minutes: exactly five characters `DD:DD`
      whose seconds part is below 60 and whose parts give back the time. */
  lemma MinutesSecondsRoundTrip(time: nat)
    requires time < 6000
    ensures var text := FormatTime(time, MinutesSeconds);
      && |text| == 5 && text[2] == ':'
      && AllDigits(text[..2]) && AllDigits(text[3..])
      && Value(text[3..]) < 60
      && Value(text[..2]) * 60 + Value(text[3..]) == time
  {
    var minutes, seconds := time / 60, time % 60;
    MinutesAndSeconds(time);
    var mm := PadStart(ToString(minutes), 2, '0');
    var ss := PadStart(ToString(seconds), 2, '0');
    TwoDigits(minutes);
    TwoDigits(seconds);
    var text := mm + ":" + ss;
    assert FormatTime(time, MinutesSeconds) == text;
    assert text[..2] == mm && text[3..] == ss;
  }

  /** The `SS` form: the decimal text of the time, with one `0` in front
      when it is a single digit and untouched from 10 on. */
  lemma SecondsForm(time: nat)
    ensures var text := FormatTime(time, Seconds);
      && AllDigits(text) && Value(text) == time
      && (time >= 10 ==> text == ToString(time))
      && (time < 10 ==> text == ['0', DigitChar(time)])
  {
    ToStringLength(time);
    ValueOfToString(time);
    if time < 10 {
      TwoDigits(time);
    }
  }

  /** The first display of the redirect countdown. */
  lemma ShowsTen()
    ensures FormatTime(10, Seconds) == "10"
  {
    assert ToString(1) == "1";
    assert ToString(0) == "0";
    assert ToString(10) == "10";
  }

  /** The first display of the OTP expiry countdown. */
  lemma ShowsTwoMinutes()
    ensures FormatTime(120, MinutesSeconds) == "02:00"
  {
    assert 120 / 60 == 2 && 120 % 60 == 0;
    assert PadStart(ToString(2), 2, '0') == "02" by {
      assert ToString(2) == "2";
    }
    assert PadStart(ToString(0), 2, '0') == "00" by {
      assert ToString(0) == "0";
    }
  }
}
