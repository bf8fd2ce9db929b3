/**
 * Media times and the player's `m:ss` clock text (`formatTime` in
 * VideoPlayer.jsx). A media time is a JavaScript number that may be NaN or
 * undefined before the media's metadata is known; both are `Unknown` here.
 */
module Clock {
  import opened Wrappers
  import opened JsText

  datatype Seconds = Unknown | Secs(value: real) {

    /** JavaScript truthiness of the number: NaN, undefined and 0 are falsy */
    predicate Truthy() {
      Secs? && value != 0.0
    }

    /** Media times are never negative */
    predicate NonNegative() {
      Secs? ==> value >= 0.0
    }
  }

  /** `Math.floor(t / 60)` and `Math.floor(t % 60)` for a non-negative time:
      whole minutes and the leftover whole seconds of `t` */
  function ClockFields(t: real): (f: (nat, nat))
    requires t >= 0.0
    ensures f.1 < 60
    ensures f.0 * 60 + f.1 == t.Floor
  {
    var minutes := (t / 60.0).Floor;
    // For t >= 0, `t % 60` is t - 60 * trunc(t / 60), and trunc agrees with floor.
    var seconds := (t - 60.0 * minutes as real).Floor;
    (minutes, seconds)
  }

  /** `formatTime`: "0:00" for an unknown or zero time, otherwise minutes,
      a colon and the seconds padded to two digits */
  function FormatTime(time: Seconds): (text: string)
    requires time.NonNegative()
    ensures ClockShaped(text)
  {
    if !time.Truthy() then
      ZeroClockShaped();
      "0:00"
    else
      var (minutes, seconds) := ClockFields(time.value);
      ClockTextShaped(minutes, seconds);
      ClockText(minutes, seconds)
  }

  /** The clock text of whole minutes and leftover seconds */
  function ClockText(minutes: nat, seconds: nat): string {
    NatToString(minutes) + ":" + (if seconds < 10 then "0" else "") + NatToString(seconds)
  }

  /** The shape of an `m:ss` text: digits, a colon, then exactly two digits */
  predicate ClockShaped(text: string) {
    && |text| >= 4 && text[|text| - 3] == ':'
    && AllDigits(text[|text| - 2..]) && AllDigits(text[..|text| - 3])
  }

  lemma ZeroClockShaped()
    ensures ClockShaped("0:00")
  {
    assert "0:00"[2..] == "00" && "0:00"[..1] == "0";
  }

  lemma ClockTextShaped(minutes: nat, seconds: nat)
    requires seconds < 60
    ensures ClockShaped(ClockText(minutes, seconds))
  {
    TwoDigitClockField(seconds);
    var field := (if seconds < 10 then "0" else "") + NatToString(seconds);
    var text := NatToString(minutes) + ":" + field;
    assert ClockText(minutes, seconds) == text;
    assert text[|text| - 2..] == field && text[..|text| - 3] == NatToString(minutes);
  }

  /** Reads an `m:ss` clock text back as a number of whole seconds */
  function ParseClock(s: string): Option<nat> {
    match IndexOf(s, ':')
    case None => None
    case Some(i) =>
      var minutes, seconds := s[..i], s[i + 1..];
      if minutes != [] && AllDigits(minutes) && |seconds| == 2 && AllDigits(seconds)
         && ParseDigits(seconds) < 60
      then Some(60 * ParseDigits(minutes) + ParseDigits(seconds))
      else None
  }

  /** The clock text always shows the whole seconds of the time: reading it
      back gives `Math.floor(time)`, and 0 for an unknown time */
  lemma FormatTimeRoundTrip(time: Seconds)
    requires time.NonNegative()
    ensures ParseClock(FormatTime(time)) == Some(if time.Secs? then time.value.Floor else 0)
  {
    if !time.Truthy() {
      ZeroClockReadsBack();
    } else {
      var (minutes, seconds) := ClockFields(time.value);
      ClockReadsBack(minutes, seconds);
    }
  }

  /** "0:00" reads back as no seconds */
  lemma ZeroClockReadsBack()
    ensures ParseClock("0:00") == Some(0)
  {
    assert "0:00" == NatToString(0) + ":" + "00";
    assert ParseDigits("00") == 10 * ParseDigits("0") + 0;
    ParseClockOf(0, "00");
  }

  /** The text `formatTime` builds from minutes and seconds reads back as their total */
  lemma ClockReadsBack(minutes: nat, seconds: nat)
    requires seconds < 60
    ensures ParseClock(ClockText(minutes, seconds)) == Some(60 * minutes + seconds)
  {
    var field := (if seconds < 10 then "0" else "") + NatToString(seconds);
    TwoDigitClockField(seconds);
    assert ClockText(minutes, seconds) == NatToString(minutes) + ":" + field;
    ParseClockOf(minutes, field);
  }

  /** A clock text made of the minutes and a two-digit field reads back as
      their total in seconds */
  lemma ParseClockOf(minutes: nat, field: string)
    requires |field| == 2 && AllDigits(field) && ParseDigits(field) < 60
    ensures ParseClock(NatToString(minutes) + ":" + field) == Some(60 * minutes + ParseDigits(field))
  {
    var m := NatToString(minutes);
    var s := m + ":" + field;
    // the minutes are digits, so the first colon is the one after them
    assert forall k :: 0 <= k < |m| ==> s[k] == m[k];
    IndexOfIs(s, ':', |m|);
    assert s[..|m|] == m;
    assert s[|m| + 1..] == field;
    ParseNatToString(minutes);
  }

  /** The padded seconds field is two digits that read back as the seconds */
  lemma TwoDigitClockField(seconds: nat)
    requires seconds < 60
    ensures var field := (if seconds < 10 then "0" else "") + NatToString(seconds);
      |field| == 2 && AllDigits(field) && ParseDigits(field) == seconds
  {
    var sec := NatToString(seconds);
    ParseNatToString(seconds);
    if seconds < 10 {
      var field := "0" + sec;
      assert field[..1] == "0" && field[1] == sec[0];
      assert ParseDigits("0") == 0;
      assert ParseDigits(sec) == DigitValue(sec[0]);
    } else {
      assert |NatToString(seconds / 10)| == 1;
    }
  }
}
