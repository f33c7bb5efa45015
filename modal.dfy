/**
 * The TimerModal component: the `MM:SS` display of the remaining time and the choice of
 * buttons, as a function of the component's props.
 */
module Modal {
  import opened Optional
  import opened JsNumber

  /**
   * `formatTime`: whole minutes (rounded down) and the JavaScript remainder, each padded to two
   * characters. Its properties are the lemmas below; a postcondition here would be unfolded into
   * every one of them.
   */
  function FormatTime(timeInSeconds: int): string
  {
    var minutes := FloorDiv(timeInSeconds, 60);
    var seconds := Rem(timeInSeconds, 60);
    PadStart(ToString(minutes), 2, '0') + ":" + PadStart(ToString(seconds), 2, '0')
  }

  /** Reads a display of the form `<digits>:<two digits>` back as a number of seconds. */
  function ParseTime(s: string): Option<int> {
    if |s| >= 4 && s[|s| - 3] == ':' && AllDigits(s[..|s| - 3]) && AllDigits(s[|s| - 2..])
    then Some(60 * Value(s[..|s| - 3]) + Value(s[|s| - 2..]))
    else None
  }

  /** Joining two zero-padded digit fields with a colon keeps each field readable at a fixed place. */
  lemma JoinFields(dm: string, ds: string)
    requires AllDigits(dm) && AllDigits(ds) && 1 <= |ds| <= 2
    ensures var r := PadStart(dm, 2, '0') + ":" + PadStart(ds, 2, '0');
      |r| >= 5 && r[|r| - 3] == ':'
      && AllDigits(r[..|r| - 3]) && Value(r[..|r| - 3]) == Value(dm)
      && AllDigits(r[|r| - 2..]) && Value(r[|r| - 2..]) == Value(ds)
  {
    var mm := PadStart(dm, 2, '0');
    var ss := PadStart(ds, 2, '0');
    var r := mm + ":" + ss;
    assert r[..|r| - 3] == mm;
    assert r[|r| - 2..] == ss;
    ZeroPadKeepsValue(dm, 2);
    ZeroPadKeepsValue(ds, 2);
  }

  /** For a non-negative time the display is a minutes field, a colon and a two-digit seconds field. */
  lemma FormatTimeFields(t: int)
    requires t >= 0
    ensures var r := FormatTime(t);
      |r| >= 5 && r[|r| - 3] == ':'
      && AllDigits(r[..|r| - 3]) && Value(r[..|r| - 3]) == t / 60
      && AllDigits(r[|r| - 2..]) && Value(r[|r| - 2..]) == t % 60
  {
    assert FloorDiv(t, 60) == t / 60 && Rem(t, 60) == t % 60;
    assert FormatTime(t) == PadStart(Digits(t / 60), 2, '0') + ":" + PadStart(Digits(t % 60), 2, '0');
    JoinFields(Digits(t / 60), Digits(t % 60));
    ValueOfDigits(t / 60);
    ValueOfDigits(t % 60);
  }

  /** A string with a digit field, a colon and two digits parses to minutes times 60 plus seconds. */
  lemma ParseTimeOfFields(r: string, minutes: nat, seconds: nat, total: int)
    requires |r| >= 5 && r[|r| - 3] == ':'
    requires AllDigits(r[..|r| - 3]) && Value(r[..|r| - 3]) == minutes
    requires AllDigits(r[|r| - 2..]) && Value(r[|r| - 2..]) == seconds
    requires total == 60 * minutes + seconds
    ensures ParseTime(r) == Some(total)
  {
  }

  /** Reading the display back gives the time shown: the round trip holds for every non-negative time. */
  lemma FormatParseRoundTrip(t: int)
    requires t >= 0
    ensures ParseTime(FormatTime(t)) == Some(t)
  {
    assert 60 * (t / 60) + t % 60 == t;
    FormatTimeFields(t);
    ParseTimeOfFields(FormatTime(t), t / 60, t % 60, t);
  }

  /** Below one hour the display is exactly `MM:SS`, five characters with the colon in the middle. */
  lemma FormatTimeFixedWidth(t: int)
    requires 0 <= t <= 3599
    ensures var r := FormatTime(t);
      |r| == 5 && r[2] == ':' && AllDigits(r[..2]) && AllDigits(r[3..])
      && Value(r[..2]) == t / 60 && Value(r[3..]) == t % 60
      && 60 * Value(r[..2]) + Value(r[3..]) == t
  {
    FormatTimeFields(t);
    assert |Digits(t / 60)| <= 2;
  }

  /** Different non-negative times never share a display. */
  lemma FormatTimeInjective(t1: int, t2: int)
    requires t1 >= 0 && t2 >= 0 && FormatTime(t1) == FormatTime(t2)
    ensures t1 == t2
  {
    FormatParseRoundTrip(t1);
    FormatParseRoundTrip(t2);
  }

  /** The display is at least `MM:SS` wide and starts with a minus sign exactly when the time is negative. */
  lemma FormatTimeSign(t: int)
    ensures |FormatTime(t)| >= 5
    ensures FormatTime(t)[0] == '-' <==> t < 0
  {
    var m := FloorDiv(t, 60);
    var r := FormatTime(t);
    var pm := PadStart(ToString(m), 2, '0');
    assert r[0] == pm[0];
    if t < 0 {
      assert m < 0;
      assert pm == ToString(m);
    } else {
      assert m >= 0;
      assert AllDigits(ToString(m));
    }
  }

  /** A negative time (the countdown one tick past zero) shows a leading minus sign and does not parse. */
  lemma FormatTimeNegative(t: int)
    requires t < 0
    ensures FormatTime(t)[0] == '-' && ParseTime(FormatTime(t)) == None
  {
    var m := ToString(FloorDiv(t, 60));
    var r := FormatTime(t);
    assert PadStart(m, 2, '0') == m;
    assert r[0] == m[0];
    var k := |r| - 3;
    assert r[..k][0] == '-';
  }

  /** The display of one minute and five seconds. */
  lemma FormatTimeExample()
    ensures FormatTime(65) == "01:05"
  {
    assert FloorDiv(65, 60) == 1 && Rem(65, 60) == 5;
    assert ToString(1) == "1" && ToString(5) == "5";
    assert PadStart("1", 2, '0') == "01" && PadStart("5", 2, '0') == "05";
  }

  /** One tick past zero: `Math.floor(-1 / 60)` is -1 and `-1 % 60` is -1. */
  lemma FormatTimeMinusOne()
    ensures FormatTime(-1) == "-1:-1"
  {
    assert FloorDiv(-1, 60) == -1 && Rem(-1, 60) == -1;
    assert ToString(-1) == "-1";
    assert PadStart("-1", 2, '0') == "-1";
  }

  datatype Button = CancelButton | ResumeButton | PauseButton

  datatype View = View(display: string, buttons: seq<Button>)

  /**
   * The component renders nothing when the modal is off; otherwise the formatted time, the
   * cancel button, and a resume button while paused or a pause button while not. Both of the
   * second buttons call the same pause/resume toggle.
   */
  function Render(isOn: bool, isPaused: bool, remainingTime: int): (v: Option<View>)
    ensures v.None? <==> !isOn
    ensures v.Some? ==> |v.value.buttons| == 2 && v.value.buttons[0] == CancelButton
    ensures v.Some? ==> (v.value.buttons[1] == ResumeButton <==> isPaused)
    ensures v.Some? ==> (v.value.buttons[1] == PauseButton <==> !isPaused)
    ensures v.Some? && remainingTime >= 0 ==> ParseTime(v.value.display) == Some(remainingTime)
    ensures v.Some? && remainingTime < 0 ==>
      |v.value.display| > 0 && v.value.display[0] == '-' && ParseTime(v.value.display) == None
  {
    if !isOn then None
    else
      var view := View(FormatTime(remainingTime), [CancelButton, if isPaused then ResumeButton else PauseButton]);
      if remainingTime >= 0 then (FormatParseRoundTrip(remainingTime); Some(view))
      else (FormatTimeNegative(remainingTime); Some(view))
  }
}
