// The audio playback panel: a clock display of the current position and of
// the duration, and the play/pause state driven by the button and by the
// audio element's events.

module AudioPlayerView {
  import opened Text

  /** JavaScript's `Math.trunc`: round toward zero. */
  function Trunc(x: real): int {
    if x >= 0.0 then x.Floor else -((-x).Floor)
  }

  /** JavaScript's `%` on numbers: the remainder of a division truncated toward zero. */
  function JsRem(x: real, y: real): real
    requires y != 0.0
  {
    x - y * (Trunc(x / y) as real)
  }

  /** The minutes field of `formatTime`: `Math.floor(t / 60)`. */
  function Minutes(t: real): int {
    (t / 60.0).Floor
  }

  /** The seconds field of `formatTime`: `Math.floor(t % 60)`. */
  function Seconds(t: real): int {
    JsRem(t, 60.0).Floor
  }

  /** `String(n).padStart(2, '0')`. */
  function Field(n: int): string {
    PadStart(IntToString(n), 2, '0')
  }

  /** `formatTime(t)`: the two fields joined by a colon. */
  function FormatTime(t: real): string {
    Field(Minutes(t)) + ":" + Field(Seconds(t))
  }

  lemma FloorShift(x: real, k: int)
    ensures (x - k as real).Floor == x.Floor - k
  {
  }

  /** For a non-negative time the minutes are the whole minutes elapsed. */
  lemma MinutesBounds(t: real)
    requires t >= 0.0
    ensures Minutes(t) >= 0
    ensures 60.0 * (Minutes(t) as real) <= t < 60.0 * (Minutes(t) as real) + 60.0
  {
    var q := t / 60.0;
    assert t == 60.0 * q;
  }

  /** For a non-negative time the seconds field lies in 0..59. */
  lemma SecondsBounds(t: real)
    requires t >= 0.0
    ensures 0 <= Seconds(t) <= 59
  {
    MinutesBounds(t);
    var m := Minutes(t);
    assert Trunc(t / 60.0) == m;
    assert 0.0 <= JsRem(t, 60.0) < 60.0;
  }

  /** For a non-negative time the fields add back up to the whole seconds elapsed. */
  lemma MinutesSeconds(t: real)
    requires t >= 0.0
    ensures Minutes(t) * 60 + Seconds(t) == t.Floor
  {
    MinutesBounds(t);
    var m := Minutes(t);
    assert Trunc(t / 60.0) == m;
    assert JsRem(t, 60.0) == t - (60 * m) as real;
    FloorShift(t, 60 * m);
  }

  /** A string of zeros reads as zero. */
  lemma {:induction false} ZerosValue(n: nat)
    ensures DigitsValue(seq(n, _ => '0')) == 0
  {
    if n > 0 {
      var z := seq(n, _ => '0');
      assert z[..n - 1] == seq(n - 1, _ => '0');
      ZerosValue(n - 1);
    }
  }

  /** A non-negative number's decimal digits: two or more from 10 on, three or more from 100 on. */
  lemma {:induction false} NatToStringLength(n: nat)
    ensures n >= 10 ==> |NatToString(n)| >= 2
    ensures n >= 100 ==> |NatToString(n)| >= 3
    ensures n < 100 ==> |NatToString(n)| <= 2
  {
    if n >= 10 {
      var q := n / 10;
      assert NatToString(n) == NatToString(q) + [DigitChar(n % 10)];
      assert n >= 100 ==> q >= 10;
      assert n < 100 ==> q < 10;
      NatToStringLength(q);
    }
  }

  /** A field of a non-negative number is at least two digits and reads back as the number. */
  lemma FieldValue(n: nat)
    ensures |Field(n)| >= 2
    ensures forall k :: 0 <= k < |Field(n)| ==> IsDigit(Field(n)[k])
    ensures DigitsValue(Field(n)) == n
  {
    var s := NatToString(n);
    NatToStringValue(n);
    NatToStringLength(n);
    if n < 10 {
      var z := seq(1, _ => '0');
      ZerosValue(1);
      assert Field(n) == z + s;
      DigitsValueConcat(z, s);
    }
  }

  /**
   * A field is padded only when the number has a single digit and is never
   * cut, so a hundred minutes or more shows three or more digits.
   */
  lemma FieldWidth(n: nat)
    ensures |Field(n)| == if n < 10 then 2 else |NatToString(n)|
    ensures n >= 100 ==> |Field(n)| >= 3
    ensures n < 100 ==> |Field(n)| == 2
  {
    NatToStringLength(n);
  }

  lemma DigitsNoColon(s: string)
    requires forall k :: 0 <= k < |s| ==> IsDigit(s[k])
    ensures ':' !in s
  {
  }

  lemma SplitAtColon(m: string, s: string)
    requires ':' !in m && ':' !in s
    ensures Split(m + ":" + s, ':') == [m, s]
  {
    SplitCons(m, ':', s);
    assert m + ":" + s == m + [':'] + s;
    IndexOfAbsent(s, ':');
  }

  lemma IndexOfAbsent(s: string, sep: char)
    requires sep !in s
    ensures IndexOf(s, sep) == |s|
  {
  }

  /** A field read back by splitting the display at its colon. */
  lemma FormatTimeSplit(t: real)
    requires t >= 0.0
    ensures Split(FormatTime(t), ':') == [Field(Minutes(t)), Field(Seconds(t))]
  {
    MinutesBounds(t);
    SecondsBounds(t);
    var m: nat, sec: nat := Minutes(t), Seconds(t);
    FieldValue(m);
    FieldValue(sec);
    DigitsNoColon(Field(m));
    DigitsNoColon(Field(sec));
    SplitAtColon(Field(m), Field(sec));
  }

  /**
   * The display of a non-negative time reads back as the clock it shows: the
   * part before the colon and the two-digit part after it give back the
   * whole seconds elapsed.
   */
  lemma FormatTimeReadsBack(t: real)
    requires t >= 0.0
    ensures var parts := Split(FormatTime(t), ':');
      |parts| == 2 && |parts[1]| == 2 &&
      (forall k :: 0 <= k < |parts[0]| ==> IsDigit(parts[0][k])) &&
      (forall k :: 0 <= k < |parts[1]| ==> IsDigit(parts[1][k])) &&
      DigitsValue(parts[0]) * 60 + DigitsValue(parts[1]) == t.Floor
  {
    FormatTimeSplit(t);
    MinutesBounds(t);
    SecondsBounds(t);
    var m: nat, sec: nat := Minutes(t), Seconds(t);
    FieldValue(m);
    FieldValue(sec);
    FieldWidth(sec);
    MinutesSeconds(t);
  }

  /** Before any audio data arrives both displays read "00:00". */
  lemma FormatTimeZero()
    ensures FormatTime(0.0) == "00:00"
  {
    assert Minutes(0.0) == 0;
    assert Trunc(0.0 / 60.0) == 0;
    assert Seconds(0.0) == 0;
    assert NatToString(0) == "0";
    assert Field(0) == "00";
  }

  /**
   * The player's state. `hasElement` says whether the audio element is
   * mounted (`audioRef.current`); the element itself is not modelled, only
   * the values it reports to the handlers.
   */
  class Player {
    var isPlaying: bool
    var duration: real
    var currentTime: real
    const hasElement: bool

    /** A fresh player: paused, at time 0 of a track of length 0, so both displays read `FormatTime(0.0)`. */
    constructor(hasElement: bool)
      ensures !isPlaying && duration == 0.0 && currentTime == 0.0
      ensures this.hasElement == hasElement
    {
      this.hasElement := hasElement;
      isPlaying := false;
      duration := 0.0;
      currentTime := 0.0;
    }

    /** The position display. */
    function CurrentTimeText(): string
      reads this
    {
      FormatTime(currentTime)
    }

    /** The duration display. */
    function DurationText(): string
      reads this
    {
      FormatTime(duration)
    }

    /** The button's accessible name: "Pause" while playing, "Play" otherwise. */
    function ButtonLabel(): (name: string)
      reads this
      ensures name == "Pause" <==> isPlaying
      ensures name == "Play" <==> !isPlaying
    {
      if isPlaying then "Pause" else "Play"
    }

    /** The play/pause button: flips the state when the element exists, otherwise does nothing. */
    method TogglePlayPause()
      modifies this
      ensures isPlaying == (if hasElement then !old(isPlaying) else old(isPlaying))
      ensures duration == old(duration) && currentTime == old(currentTime)
    {
      if hasElement {
        isPlaying := !isPlaying;
      }
    }

    /** The element's 'ended' event: playback stops. */
    method Ended()
      modifies this
      ensures !isPlaying
      ensures duration == old(duration) && currentTime == old(currentTime)
    {
      isPlaying := false;
    }

    /** The element's 'loadeddata' event: takes over its duration and position. */
    method LoadedData(elementDuration: real, elementTime: real)
      modifies this
      ensures duration == elementDuration && currentTime == elementTime
      ensures isPlaying == old(isPlaying)
    {
      duration := elementDuration;
      currentTime := elementTime;
    }

    /** The element's 'timeupdate' event: takes over its position. */
    method TimeUpdate(elementTime: real)
      modifies this
      ensures currentTime == elementTime
      ensures isPlaying == old(isPlaying) && duration == old(duration)
    {
      currentTime := elementTime;
    }

    /**
     * The seek slider: when the element exists, the position becomes what the
     * element reports after being set to the slider's value.
     */
    method Seek(elementTimeAfterSeek: real)
      modifies this
      ensures currentTime == (if hasElement then elementTimeAfterSeek else old(currentTime))
      ensures isPlaying == old(isPlaying) && duration == old(duration)
    {
      if hasElement {
        currentTime := elementTimeAfterSeek;
      }
    }
  }
}
