/** The edit-in-place time widget: a strict 24-hour `HH:MM` validator and the
    viewing/editing state machine that saves only valid times. */
module TimeInput {
  import opened Values

  /** Alert raised when a save is attempted with an invalid time. */
  const INVALID_TIME_ALERT: string := "Must enter a valid 24h time"

  predicate IsDigit(c: char) {
    '0' <= c <= '9'
  }

  function DigitValue(c: char): (d: int)
    requires IsDigit(c)
    ensures 0 <= d < 10
  {
    c as int - '0' as int
  }

  function DigitChar(d: int): (c: char)
    requires 0 <= d < 10
    ensures IsDigit(c) && DigitValue(c) == d
  {
    ('0' as int + d) as char
  }

  /** The anchored pattern `^([01]\d|2[0-3]):([0-5]\d)$`, one character at a
      time: two hour digits from 00 to 23, a colon, two minute digits from 00
      to 59, and nothing else. */
  predicate Matches24h(t: string) {
    && |t| == 5
    && (((t[0] == '0' || t[0] == '1') && IsDigit(t[1])) || (t[0] == '2' && '0' <= t[1] <= '3'))
    && t[2] == ':'
    && '0' <= t[3] <= '5'
    && IsDigit(t[4])
  }

  /** `verifyValue`: `null` is rejected, any other text must match the pattern. */
  predicate VerifyValue(text: Option<string>)
    ensures text.None? ==> !VerifyValue(text)
    ensures VerifyValue(text) ==> |text.value| == 5 && text.value[2] == ':'
    ensures VerifyValue(text) <==> && text.Some? && |text.value| == 5 && text.value[2] == ':'
                                   && IsDigit(text.value[0]) && IsDigit(text.value[1])
                                   && IsDigit(text.value[3]) && IsDigit(text.value[4])
                                   && DigitValue(text.value[0]) * 10 + DigitValue(text.value[1]) < 24
                                   && DigitValue(text.value[3]) * 10 + DigitValue(text.value[4]) < 60
  {
    text.Some? && Matches24h(text.value)
  }

  /** The clock face `HH:MM` of an hour and a minute, zero-padded. */
  function ClockFace(h: int, m: int): (t: string)
    requires 0 <= h < 24 && 0 <= m < 60
    ensures |t| == 5
  {
    [DigitChar(h / 10), DigitChar(h % 10), ':', DigitChar(m / 10), DigitChar(m % 10)]
  }

  function Hours(t: string): (h: int)
    requires Matches24h(t)
    ensures 0 <= h < 24
  {
    DigitValue(t[0]) * 10 + DigitValue(t[1])
  }

  function Minutes(t: string): (m: int)
    requires Matches24h(t)
    ensures 0 <= m < 60
  {
    DigitValue(t[3]) * 10 + DigitValue(t[4])
  }

  /** Minutes since midnight of a valid time. */
  function MinuteOfDay(t: string): (n: int)
    requires Matches24h(t)
    ensures 0 <= n < 24 * 60
  {
    Hours(t) * 60 + Minutes(t)
  }

  /** Reading a clock face back gives the hour and minute it was made from. */
  lemma {:induction false} ClockFaceRoundTrip(h: int, m: int)
    requires 0 <= h < 24 && 0 <= m < 60
    ensures Matches24h(ClockFace(h, m))
    ensures Hours(ClockFace(h, m)) == h && Minutes(ClockFace(h, m)) == m
  {
    var t := ClockFace(h, m);
    assert h / 10 <= 2 && (h / 10 == 2 ==> h % 10 <= 3);
    assert m / 10 <= 5;
    assert DigitValue(t[0]) == h / 10 && DigitValue(t[1]) == h % 10;
    assert DigitValue(t[3]) == m / 10 && DigitValue(t[4]) == m % 10;
  }

  /** The validator accepts exactly the clock faces of the 1440 minutes of a day. */
  lemma {:induction false} VerifyValueIsClockFace(t: string)
    ensures VerifyValue(Some(t)) <==> exists h, m :: 0 <= h < 24 && 0 <= m < 60 && t == ClockFace(h, m)
  {
    if VerifyValue(Some(t)) {
      var h, m := Hours(t), Minutes(t);
      assert DigitChar(h / 10) == t[0] && DigitChar(h % 10) == t[1];
      assert DigitChar(m / 10) == t[3] && DigitChar(m % 10) == t[4];
      assert t == ClockFace(h, m);
    } else {
      forall h, m | 0 <= h < 24 && 0 <= m < 60
        ensures t != ClockFace(h, m)
      {
        ClockFaceRoundTrip(h, m);
      }
    }
  }

  /** Unanchored, short and out-of-range forms are rejected, and so is `null`. */
  lemma RejectedForms()
    ensures !VerifyValue(None)
    ensures !VerifyValue(Some("6:30")) && !VerifyValue(Some("06:30x")) && !VerifyValue(Some("x06:30"))
    ensures !VerifyValue(Some("24:00")) && !VerifyValue(Some("12:60")) && !VerifyValue(Some(""))
    ensures VerifyValue(Some("00:00")) && VerifyValue(Some("23:59"))
  {
  }

  /** One `TimeInput` component instance. `input` is the text in the input
      element that `inputRef` points to, `None` while the ref is `null`;
      `saved` lists the arguments of every `onSave` call and `alerts` every
      alert, in order. */
  class TimeField {
    var initValue: string
    var editing: bool
    var input: Option<string>
    var saved: seq<string>
    var alerts: seq<string>

    /** The input element exists whenever the widget is editing. */
    ghost predicate Valid()
      reads this
    {
      editing ==> input.Some?
    }

    constructor (initValue: string)
      ensures Valid()
      ensures this.initValue == initValue && !editing && input == None
      ensures saved == [] && alerts == []
    {
      this.initValue := initValue;
      editing := false;
      input := None;
      saved := [];
      alerts := [];
    }

    /** The user types into the input element. */
    method Type(text: string)
      requires Valid() && editing
      modifies this`input
      ensures Valid() && input == Some(text)
    {
      input := Some(text);
    }

    /** `handleButtonClick`. While editing: a valid time leaves edit mode and
        is saved once; an invalid one raises an alert and nothing else. While
        viewing: edit mode is entered with a fresh input holding `initValue`,
        and nothing is saved. */
    method Click()
      requires Valid()
      modifies this`editing, this`input, this`saved, this`alerts
      ensures Valid() && initValue == old(initValue)
      ensures old(editing) && VerifyValue(old(input)) ==>
        && !editing && input == old(input)
        && saved == old(saved) + [old(input).value] && alerts == old(alerts)
      ensures old(editing) && !VerifyValue(old(input)) ==>
        && editing && input == old(input)
        && saved == old(saved) && alerts == old(alerts) + [INVALID_TIME_ALERT]
      ensures !old(editing) ==>
        && editing && input == Some(initValue)
        && saved == old(saved) && alerts == old(alerts)
    {
      if editing {
        if VerifyValue(input) {
          editing := false;
          saved := saved + [input.value];
        } else {
          alerts := alerts + [INVALID_TIME_ALERT];
        }
      } else {
        editing := true;
        input := Some(initValue);
      }
    }

    /** A later render after the input element has unmounted: React has set
        the ref back to `null`. The parent may pass a new `initValue`. */
    method Rerender(newInitValue: string)
      requires Valid()
      modifies this`input, this`initValue
      ensures Valid() && initValue == newInitValue
      ensures input == if editing then old(input) else None
    {
      initValue := newInitValue;
      if !editing {
        input := None;
      }
    }

    /** The text shown while viewing: `initValue` while the ref is `null`,
        otherwise the last text of the input. */
    function Shown(): (r: string)
      reads this
      requires !editing
      ensures input.None? ==> r == initValue
      ensures input.Some? ==> r == input.value
    {
      input.GetOr(initValue)
    }
  }

  /** A client of the widget: a valid edit is saved exactly once and is what
      the widget shows until the next render; an invalid edit is not saved. */
  method EditSession(init: string, text: string) returns (saved: seq<string>, shown: string)
    ensures VerifyValue(Some(text)) ==> saved == [text] && shown == text
    ensures !VerifyValue(Some(text)) ==> saved == []
  {
    var w := new TimeField(init);
    w.Click();
    w.Type(text);
    w.Click();
    saved := w.saved;
    if !w.editing {
      shown := w.Shown();
    } else {
      shown := init;
    }
  }
}
