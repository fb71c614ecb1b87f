/** The per-type table of editable parameters in a device panel, and the
    one-key payload each edit hands to `onSave`. */
module DeviceOptions {
  import opened Values
  import opened Constants
  import NumberInput
  import TimeInput

  // The options of the air conditioner's three selects.
  const AC_MODES: seq<string> := ["cool", "heat", "fan"]
  const AC_FAN_SPEEDS: seq<string> := ["off", "low", "medium", "high"]
  const AC_SWINGS: seq<string> := ["off", "on", "auto"]

  /** The widget that edits one parameter. */
  datatype Widget =
    | NumberBox(min: int, max: int)      // a NumberInput with finite bounds
    | TimeBox                            // a TimeInput
    | FlagBox                            // a checkbox that sends the negated flag
    | ColorPicker                        // a colour input, saved on blur
    | Choice(options: seq<string>)       // a Select

  /** An editable parameter: its key and its widget. */
  datatype Editor = Editor(key: string, widget: Widget)

  /** The editable parameters a type offers, in display order. Door locks,
      curtains and unknown types show read-only fields only. */
  function Editors(deviceType: string, p: Params): (r: seq<Editor>)
    ensures |r| <= 4
    ensures forall i, j :: 0 <= i < j < |r| ==> r[i].key != r[j].key
    ensures forall i :: 0 <= i < |r| && r[i].widget.NumberBox? ==> r[i].widget.min <= r[i].widget.max
    ensures forall i :: 0 <= i < |r| && r[i].widget.Choice? ==> |r[i].widget.options| > 0
    ensures deviceType != WATER_HEATER && deviceType != LIGHT && deviceType != AIR_CONDITIONER ==> r == []
  {
    if deviceType == WATER_HEATER then
      [ Editor("target_temperature", NumberBox(MIN_WATER_TEMP, MAX_WATER_TEMP)),
        Editor("timer_enabled", FlagBox),
        Editor("scheduled_on", TimeBox),
        Editor("scheduled_off", TimeBox) ]
    else if deviceType == LIGHT then
      (if TruthyAt(p, "is_dimmable") then [Editor("brightness", NumberBox(MIN_BRIGHTNESS, MAX_BRIGHTNESS))] else [])
      + (if TruthyAt(p, "dynamic_color") then [Editor("color", ColorPicker)] else [])
    else if deviceType == AIR_CONDITIONER then
      [ Editor("temperature", NumberBox(MIN_AC_TEMP, MAX_AC_TEMP)),
        Editor("mode", Choice(AC_MODES)),
        Editor("fan_speed", Choice(AC_FAN_SPEEDS)),
        Editor("swing", Choice(AC_SWINGS)) ]
    else
      []
  }

  /** The values a widget can hand over: a number its NumberInput accepted, a
      time its TimeInput accepted, an offered option, any colour string. A
      checkbox ignores the value. */
  predicate Admissible(w: Widget, v: Value)
    ensures Admissible(w, v) && w.NumberBox? ==> v.VInt? && w.min <= v.n <= w.max
    ensures Admissible(w, v) && w.TimeBox? ==> v.VStr? && |v.s| == 5 && v.s[2] == ':'
    ensures w.TimeBox? ==> (Admissible(w, v) <==>
      v.VStr? && exists h, m :: 0 <= h < 24 && 0 <= m < 60 && v.s == TimeInput.ClockFace(h, m))
    ensures Admissible(w, v) && w.Choice? ==> v.VStr? && v.s in w.options
    ensures w.FlagBox? ==> Admissible(w, v)
  {
    match w
    case NumberBox(lo, hi) => v.VInt? && NumberInput.VerifyValue(NumberInput.Finite(lo), NumberInput.Finite(hi), v.n)
    case TimeBox =>
      if v.VStr? then TimeInput.VerifyValueIsClockFace(v.s); TimeInput.VerifyValue(Some(v.s)) else false
    case FlagBox => true
    case ColorPicker => v.VStr?
    case Choice(options) => v.VStr? && v.s in options
  }

  /** The object passed to `onSave`. The checkbox sends the negation of the
      current flag; every other widget sends the value it was given. */
  function Payload(e: Editor, p: Params, v: Value): (r: Params)
    ensures r.Keys == {e.key}
    ensures e.widget.FlagBox? ==> r[e.key] == VBool(!TruthyAt(p, e.key))
    ensures !e.widget.FlagBox? ==> r[e.key] == v
  {
    if e.widget.FlagBox? then Single(e.key, VBool(!TruthyAt(p, e.key))) else Single(e.key, v)
  }

  /** Every water heater edit sends one key, one of its four editable fields;
      the timer checkbox sends the negated flag. */
  lemma {:induction false} WaterHeaterEdits(p: Params, i: int, v: Value)
    requires 0 <= i < |Editors(WATER_HEATER, p)|
    ensures var e := Editors(WATER_HEATER, p)[i];
      && |Payload(e, p, v)| == 1
      && e.key in {"target_temperature", "timer_enabled", "scheduled_on", "scheduled_off"}
      && (e.key == "timer_enabled" ==> Payload(e, p, v) == map["timer_enabled" := VBool(!TruthyAt(p, "timer_enabled"))])
  {
    var e := Editors(WATER_HEATER, p)[i];
    assert Payload(e, p, v).Keys == {e.key};
  }

  /** A light offers brightness exactly when it is dimmable and colour exactly
      when it has dynamic colour, and nothing else. */
  lemma {:induction false} LightEditorsFollowFlags(p: Params)
    ensures (exists i :: 0 <= i < |Editors(LIGHT, p)| && Editors(LIGHT, p)[i].key == "brightness") <==> TruthyAt(p, "is_dimmable")
    ensures (exists i :: 0 <= i < |Editors(LIGHT, p)| && Editors(LIGHT, p)[i].key == "color") <==> TruthyAt(p, "dynamic_color")
    ensures forall i :: 0 <= i < |Editors(LIGHT, p)| ==> Editors(LIGHT, p)[i].key in {"brightness", "color"}
  {
    var es := Editors(LIGHT, p);
    if TruthyAt(p, "is_dimmable") {
      assert es[0].key == "brightness";
    }
    if TruthyAt(p, "dynamic_color") {
      assert es[|es| - 1].key == "color";
    }
  }

  /** An air conditioner edits its four fields separately, and each select
      can only send one of its offered options. */
  lemma {:induction false} AirConditionerEdits(p: Params, i: int, v: Value)
    requires 0 <= i < |Editors(AIR_CONDITIONER, p)|
    requires Admissible(Editors(AIR_CONDITIONER, p)[i].widget, v)
    ensures var e := Editors(AIR_CONDITIONER, p)[i];
      && Payload(e, p, v).Keys == {e.key}
      && e.key in {"temperature", "mode", "fan_speed", "swing"}
      && (e.key == "mode" ==> v.VStr? && v.s in {"cool", "heat", "fan"})
      && (e.key == "fan_speed" ==> v.VStr? && v.s in {"off", "low", "medium", "high"})
      && (e.key == "swing" ==> v.VStr? && v.s in {"off", "on", "auto"})
  {
    var e := Editors(AIR_CONDITIONER, p)[i];
    assert i == 0 || i == 1 || i == 2 || i == 3;
  }

  /** Door locks, curtains and unknown types have no path to `onSave`. */
  lemma ReadOnlyTypes(deviceType: string, p: Params)
    requires deviceType !in {WATER_HEATER, LIGHT, AIR_CONDITIONER}
    ensures Editors(deviceType, p) == []
  {
  }

  /** A numeric edit that its widget accepts lies within the type's constant
      range. */
  lemma {:induction false} NumericEditsBounded(deviceType: string, p: Params, i: int, v: Value)
    requires 0 <= i < |Editors(deviceType, p)|
    requires Editors(deviceType, p)[i].widget.NumberBox?
    requires Admissible(Editors(deviceType, p)[i].widget, v)
    ensures v.VInt?
    ensures deviceType == WATER_HEATER ==> MIN_WATER_TEMP <= v.n <= MAX_WATER_TEMP
    ensures deviceType == LIGHT ==> MIN_BRIGHTNESS <= v.n <= MAX_BRIGHTNESS
    ensures deviceType == AIR_CONDITIONER ==> MIN_AC_TEMP <= v.n <= MAX_AC_TEMP
  {
    var e := Editors(deviceType, p)[i];
    NumberInput.FiniteRange(e.widget.min, e.widget.max, v.n);
    if deviceType == LIGHT {
      assert e == Editor("brightness", NumberBox(MIN_BRIGHTNESS, MAX_BRIGHTNESS));
    }
  }

  /** The air conditioner's defaults are among the options its selects offer. */
  lemma DefaultsAreOffered()
    ensures DEFAULT_AC_MODE in AC_MODES
    ensures DEFAULT_AC_FAN in AC_FAN_SPEEDS
    ensures DEFAULT_AC_SWING in AC_SWINGS
  {
  }
}
