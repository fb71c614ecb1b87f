/** The form that creates a device: the per-type parameter schema and its
    normalisation, the status chosen when the type changes, and the
    validation chain of a submission. */
module NewDeviceForm {
  import opened Values
  import opened Constants
  import TimeInput

  /** The keys kept for each type. The water heater's list spells its first
      key "temeprature", so a `temperature` entry never survives for it. */
  function AllowedKeys(deviceType: string): seq<string> {
    if deviceType == WATER_HEATER then
      ["temeprature", "target_temperature", "timer_enabled", "scheduled_on", "scheduled_off"]
    else if deviceType == LIGHT then
      ["brightness", "color", "is_dimmable", "dynamic_color"]
    else if deviceType == DOOR_LOCK then
      ["auto_lock_enabled", "battery_level"]
    else if deviceType == CURTAIN then
      ["position"]
    else if deviceType == AIR_CONDITIONER then
      ["temperature", "mode", "fan_speed", "swing"]
    else
      []
  }

  /** `key` keeps its value if present, otherwise it is set to `v`. */
  function Fill(m: Params, key: string, v: Value): (r: Params)
    ensures r.Keys == m.Keys + {key}
    ensures r[key] == Get(m, key).GetOr(v)
  {
    if key in m then m else m[key := v]
  }

  /** The working copy after the defaults for `deviceType` are filled in:
      unconditional defaults first, then those that depend on a flag, which is
      read after its own default has been applied. */
  function WithDefaults(deviceType: string, p: Params): Params {
    if deviceType == WATER_HEATER then WaterHeaterDefaults(p)
    else if deviceType == LIGHT then LightDefaults(p)
    else if deviceType == DOOR_LOCK then DoorLockDefaults(p)
    else if deviceType == CURTAIN then p["position" := VInt(DEFAULT_POSITION)]
    else if deviceType == AIR_CONDITIONER then AirConditionerDefaults(p)
    else p
  }

  function WaterHeaterDefaults(p: Params): Params {
    var m := Fill(Fill(Fill(p, "temperature", VInt(DEFAULT_WATER_TEMP)),
                       "target_temperature", VInt(DEFAULT_WATER_TEMP)),
                  "timer_enabled", VBool(DEFAULT_TIMER_ENABLED));
    if Truthy(m["timer_enabled"]) then
      Fill(Fill(m, "scheduled_on", VStr(DEFAULT_START_TIME)), "scheduled_off", VStr(DEFAULT_STOP_TIME))
    else m
  }

  function LightDefaults(p: Params): Params {
    var m1 := Fill(p, "is_dimmable", VBool(DEFAULT_DIMMABLE));
    var m2 := if Truthy(m1["is_dimmable"]) then Fill(m1, "brightness", VInt(DEFAULT_BRIGHTNESS)) else m1;
    var m3 := Fill(m2, "dynamic_color", VBool(DEFAULT_DYNAMIC_COLOR));
    if Truthy(m3["dynamic_color"]) then Fill(m3, "color", VStr(DEFAULT_LIGHT_COLOR)) else m3
  }

  function DoorLockDefaults(p: Params): Params {
    var m := Fill(p, "auto_lock_enabled", VBool(DEFAULT_AUTO_LOCK_ENABLED));
    if Truthy(m["auto_lock_enabled"]) then m["battery_level" := VInt(DEFAULT_BATTERY)] else m
  }

  function AirConditionerDefaults(p: Params): Params {
    Fill(Fill(Fill(Fill(p, "temperature", VInt(DEFAULT_AC_TEMP)),
                   "mode", VStr(DEFAULT_AC_MODE)),
              "fan_speed", VStr(DEFAULT_AC_FAN)),
         "swing", VStr(DEFAULT_AC_SWING))
  }

  /** The parameters a new device is created with: the defaulted working copy
      restricted to the type's allowed keys. */
  function Cleaned(deviceType: string, p: Params): Params {
    var m := WithDefaults(deviceType, p);
    map k | k in m && k in AllowedKeys(deviceType) :: m[k]
  }

  /** `cleanParameters`: copy the loose parameters, fill in the defaults one
      field at a time, then keep only the allowed keys. */
  method CleanParameters(deviceType: string, parameters: Params) returns (filtered: Params)
    ensures filtered == Cleaned(deviceType, parameters)
  {
    var newParameters, allowedKeys := ApplyDefaults(deviceType, parameters);
    filtered := KeepAllowed(newParameters, allowedKeys);
  }

  /** The `switch` of `cleanParameters`: the allowed keys of the type and the
      working copy with its defaults written in. */
  method ApplyDefaults(deviceType: string, parameters: Params) returns (newParameters: Params, allowedKeys: seq<string>)
    ensures newParameters == WithDefaults(deviceType, parameters)
    ensures allowedKeys == AllowedKeys(deviceType)
  {
    newParameters := parameters;
    allowedKeys := [];
    if deviceType == WATER_HEATER {
      allowedKeys := ["temeprature", "target_temperature", "timer_enabled", "scheduled_on", "scheduled_off"];
      newParameters := FillWaterHeater(newParameters);
    } else if deviceType == LIGHT {
      allowedKeys := ["brightness", "color", "is_dimmable", "dynamic_color"];
      newParameters := FillLight(newParameters);
    } else if deviceType == DOOR_LOCK {
      allowedKeys := ["auto_lock_enabled", "battery_level"];
      newParameters := FillDoorLock(newParameters);
    } else if deviceType == CURTAIN {
      allowedKeys := ["position"];
      newParameters := newParameters["position" := VInt(DEFAULT_POSITION)];
    } else if deviceType == AIR_CONDITIONER {
      allowedKeys := ["temperature", "mode", "fan_speed", "swing"];
      newParameters := FillAirConditioner(newParameters);
    }
  }

  method FillWaterHeater(parameters: Params) returns (newParameters: Params)
    ensures newParameters == WaterHeaterDefaults(parameters)
  {
    newParameters := parameters;
    if "temperature" !in newParameters {
      newParameters := newParameters["temperature" := VInt(DEFAULT_WATER_TEMP)];
    }
    if "target_temperature" !in newParameters {
      newParameters := newParameters["target_temperature" := VInt(DEFAULT_WATER_TEMP)];
    }
    if "timer_enabled" !in newParameters {
      newParameters := newParameters["timer_enabled" := VBool(DEFAULT_TIMER_ENABLED)];
    }
    if Truthy(newParameters["timer_enabled"]) {
      if "scheduled_on" !in newParameters {
        newParameters := newParameters["scheduled_on" := VStr(DEFAULT_START_TIME)];
      }
      if "scheduled_off" !in newParameters {
        newParameters := newParameters["scheduled_off" := VStr(DEFAULT_STOP_TIME)];
      }
    }
  }

  method FillLight(parameters: Params) returns (newParameters: Params)
    ensures newParameters == LightDefaults(parameters)
  {
    newParameters := parameters;
    if "is_dimmable" !in newParameters {
      newParameters := newParameters["is_dimmable" := VBool(DEFAULT_DIMMABLE)];
    }
    if Truthy(newParameters["is_dimmable"]) {
      if "brightness" !in newParameters {
        newParameters := newParameters["brightness" := VInt(DEFAULT_BRIGHTNESS)];
      }
    }
    if "dynamic_color" !in newParameters {
      newParameters := newParameters["dynamic_color" := VBool(DEFAULT_DYNAMIC_COLOR)];
    }
    if Truthy(newParameters["dynamic_color"]) {
      if "color" !in newParameters {
        newParameters := newParameters["color" := VStr(DEFAULT_LIGHT_COLOR)];
      }
    }
  }

  method FillDoorLock(parameters: Params) returns (newParameters: Params)
    ensures newParameters == DoorLockDefaults(parameters)
  {
    newParameters := parameters;
    if "auto_lock_enabled" !in newParameters {
      newParameters := newParameters["auto_lock_enabled" := VBool(DEFAULT_AUTO_LOCK_ENABLED)];
    }
    if Truthy(newParameters["auto_lock_enabled"]) {
      newParameters := newParameters["battery_level" := VInt(DEFAULT_BATTERY)];
    }
  }

  method FillAirConditioner(parameters: Params) returns (newParameters: Params)
    ensures newParameters == AirConditionerDefaults(parameters)
  {
    newParameters := parameters;
    if "temperature" !in newParameters {
      newParameters := newParameters["temperature" := VInt(DEFAULT_AC_TEMP)];
    }
    if "mode" !in newParameters {
      newParameters := newParameters["mode" := VStr(DEFAULT_AC_MODE)];
    }
    if "fan_speed" !in newParameters {
      newParameters := newParameters["fan_speed" := VStr(DEFAULT_AC_FAN)];
    }
    if "swing" !in newParameters {
      newParameters := newParameters["swing" := VStr(DEFAULT_AC_SWING)];
    }
  }

  /** The filter-and-reduce of `cleanParameters`: an object with exactly the
      allowed keys of `newParameters`, each with its value there. */
  method KeepAllowed(newParameters: Params, allowedKeys: seq<string>) returns (filtered: Params)
    ensures filtered.Keys == newParameters.Keys * set k | k in allowedKeys
    ensures forall k :: k in filtered ==> filtered[k] == newParameters[k]
  {
    // Object.keys(newParameters).filter(...).reduce(...): the order in which
    // keys are visited does not affect the resulting object.
    var remaining := newParameters.Keys;
    filtered := map[];
    while remaining != {}
      invariant remaining <= newParameters.Keys
      invariant filtered == map k | k in newParameters.Keys - remaining && k in allowedKeys :: newParameters[k]
      decreases remaining
    {
      var key :| key in remaining;
      if key in allowedKeys {
        filtered := filtered[key := newParameters[key]];
      }
      remaining := remaining - {key};
    }
  }

  /** Every key of the result is allowed for the type and carries the value
      of the defaulted working copy. */
  lemma CleanedIsRestriction(deviceType: string, p: Params)
    ensures forall k :: k in Cleaned(deviceType, p) ==>
      k in AllowedKeys(deviceType) && k in WithDefaults(deviceType, p) &&
      Cleaned(deviceType, p)[k] == WithDefaults(deviceType, p)[k]
  {
  }

  /** An empty or unknown type keeps nothing. */
  lemma UnknownTypeCleansToEmpty(deviceType: string, p: Params)
    requires deviceType !in {WATER_HEATER, LIGHT, AIR_CONDITIONER, DOOR_LOCK, CURTAIN}
    ensures Cleaned(deviceType, p) == map[]
  {
  }

  /** An air conditioner always gets all four fields and nothing else. */
  lemma {:induction false} AirConditionerComplete(p: Params)
    ensures Cleaned(AIR_CONDITIONER, p).Keys == {"temperature", "mode", "fan_speed", "swing"}
  {
    var m1 := Fill(p, "temperature", VInt(DEFAULT_AC_TEMP));
    var m2 := Fill(m1, "mode", VStr(DEFAULT_AC_MODE));
    var m3 := Fill(m2, "fan_speed", VStr(DEFAULT_AC_FAN));
    var m := Fill(m3, "swing", VStr(DEFAULT_AC_SWING));
    assert WithDefaults(AIR_CONDITIONER, p) == m;
    assert "temperature" in m1 && "mode" in m2 && "fan_speed" in m3 && "swing" in m;
    assert m1.Keys <= m2.Keys <= m3.Keys <= m.Keys;
    var allowed := AllowedKeys(AIR_CONDITIONER);
    assert allowed == ["temperature", "mode", "fan_speed", "swing"];
    var c := Cleaned(AIR_CONDITIONER, p);
    forall k ensures k in c <==> k in {"temperature", "mode", "fan_speed", "swing"} {
      assert k in c <==> k in m && k in allowed;
    }
  }

  /** An air conditioner keeps every supplied setting and takes the default
      for each missing one. */
  lemma {:induction false} AirConditionerKeepsSupplied(p: Params)
    ensures var c := Cleaned(AIR_CONDITIONER, p);
      && c.Keys == {"temperature", "mode", "fan_speed", "swing"}
      && c["temperature"] == Get(p, "temperature").GetOr(VInt(DEFAULT_AC_TEMP))
      && c["mode"] == Get(p, "mode").GetOr(VStr(DEFAULT_AC_MODE))
      && c["fan_speed"] == Get(p, "fan_speed").GetOr(VStr(DEFAULT_AC_FAN))
      && c["swing"] == Get(p, "swing").GetOr(VStr(DEFAULT_AC_SWING))
  {
    AirConditionerComplete(p);
    var m1 := Fill(p, "temperature", VInt(DEFAULT_AC_TEMP));
    var m2 := Fill(m1, "mode", VStr(DEFAULT_AC_MODE));
    var m3 := Fill(m2, "fan_speed", VStr(DEFAULT_AC_FAN));
    var m := Fill(m3, "swing", VStr(DEFAULT_AC_SWING));
    assert WithDefaults(AIR_CONDITIONER, p) == m;
    var c := Cleaned(AIR_CONDITIONER, p);
    assert c["temperature"] == m["temperature"] == m3["temperature"] == m2["temperature"] == m1["temperature"];
    assert c["mode"] == m["mode"] == m3["mode"] == m2["mode"];
    assert c["fan_speed"] == m["fan_speed"] == m3["fan_speed"];
    assert c["swing"] == m["swing"];
  }

  /** A water heater always has its target temperature and timer flag; its
      schedule is defaulted only when the timer is on (otherwise it is kept
      only if supplied); and `temperature` never survives. */
  lemma {:induction false} WaterHeaterShape(p: Params)
    ensures "target_temperature" in Cleaned(WATER_HEATER, p)
    ensures Cleaned(WATER_HEATER, p)["target_temperature"] == Get(p, "target_temperature").GetOr(VInt(DEFAULT_WATER_TEMP))
    ensures "timer_enabled" in Cleaned(WATER_HEATER, p)
    ensures Cleaned(WATER_HEATER, p)["timer_enabled"] == Get(p, "timer_enabled").GetOr(VBool(DEFAULT_TIMER_ENABLED))
    ensures "temperature" !in Cleaned(WATER_HEATER, p)
    ensures TruthyAt(p, "timer_enabled") ==>
      && "scheduled_on" in Cleaned(WATER_HEATER, p)
      && Cleaned(WATER_HEATER, p)["scheduled_on"] == Get(p, "scheduled_on").GetOr(VStr(DEFAULT_START_TIME))
      && "scheduled_off" in Cleaned(WATER_HEATER, p)
      && Cleaned(WATER_HEATER, p)["scheduled_off"] == Get(p, "scheduled_off").GetOr(VStr(DEFAULT_STOP_TIME))
    ensures !TruthyAt(p, "timer_enabled") ==>
      && ("scheduled_on" in Cleaned(WATER_HEATER, p) <==> "scheduled_on" in p)
      && ("scheduled_off" in Cleaned(WATER_HEATER, p) <==> "scheduled_off" in p)
  {
    var m := WithDefaults(WATER_HEATER, p);
    assert AllowedKeys(WATER_HEATER) == ["temeprature", "target_temperature", "timer_enabled", "scheduled_on", "scheduled_off"];
    assert "temperature" !in AllowedKeys(WATER_HEATER);
    assert m["timer_enabled"] == Get(p, "timer_enabled").GetOr(VBool(DEFAULT_TIMER_ENABLED));
    assert Truthy(m["timer_enabled"]) == TruthyAt(p, "timer_enabled");
  }

  /** When the timer is switched on and no schedule is supplied, the
      schedule filled in is the default one: two times the time widget
      accepts, the start before the stop. */
  lemma {:induction false} DefaultScheduleValid(p: Params)
    requires TruthyAt(p, "timer_enabled") && "scheduled_on" !in p && "scheduled_off" !in p
    ensures "scheduled_on" in Cleaned(WATER_HEATER, p) && "scheduled_off" in Cleaned(WATER_HEATER, p)
    ensures Cleaned(WATER_HEATER, p)["scheduled_on"] == VStr(DEFAULT_START_TIME)
    ensures Cleaned(WATER_HEATER, p)["scheduled_off"] == VStr(DEFAULT_STOP_TIME)
    ensures TimeInput.VerifyValue(Some(DEFAULT_START_TIME))
    ensures TimeInput.VerifyValue(Some(DEFAULT_STOP_TIME))
    ensures TimeInput.MinuteOfDay(DEFAULT_START_TIME) < TimeInput.MinuteOfDay(DEFAULT_STOP_TIME)
  {
    WaterHeaterShape(p);
  }

  /** A light always has both flags; brightness is defaulted only when it is
      dimmable and the colour only when dynamic colour is on. */
  lemma {:induction false} LightShape(p: Params)
    ensures "is_dimmable" in Cleaned(LIGHT, p) && "dynamic_color" in Cleaned(LIGHT, p)
    ensures Cleaned(LIGHT, p)["is_dimmable"] == Get(p, "is_dimmable").GetOr(VBool(DEFAULT_DIMMABLE))
    ensures Cleaned(LIGHT, p)["dynamic_color"] == Get(p, "dynamic_color").GetOr(VBool(DEFAULT_DYNAMIC_COLOR))
    ensures TruthyAt(p, "is_dimmable") ==>
      Cleaned(LIGHT, p)["brightness"] == Get(p, "brightness").GetOr(VInt(DEFAULT_BRIGHTNESS))
    ensures !TruthyAt(p, "is_dimmable") ==> ("brightness" in Cleaned(LIGHT, p) <==> "brightness" in p)
    ensures TruthyAt(p, "dynamic_color") ==>
      Cleaned(LIGHT, p)["color"] == Get(p, "color").GetOr(VStr(DEFAULT_LIGHT_COLOR))
    ensures !TruthyAt(p, "dynamic_color") ==> ("color" in Cleaned(LIGHT, p) <==> "color" in p)
  {
    var m1 := Fill(p, "is_dimmable", VBool(DEFAULT_DIMMABLE));
    assert Truthy(m1["is_dimmable"]) == TruthyAt(p, "is_dimmable");
    var m2 := if Truthy(m1["is_dimmable"]) then Fill(m1, "brightness", VInt(DEFAULT_BRIGHTNESS)) else m1;
    var m3 := Fill(m2, "dynamic_color", VBool(DEFAULT_DYNAMIC_COLOR));
    assert m3["dynamic_color"] == Get(p, "dynamic_color").GetOr(VBool(DEFAULT_DYNAMIC_COLOR));
    assert Truthy(m3["dynamic_color"]) == TruthyAt(p, "dynamic_color");
    assert AllowedKeys(LIGHT) == ["brightness", "color", "is_dimmable", "dynamic_color"];
  }

  /** A door lock with auto-lock on reports a full battery whatever was
      supplied; a curtain always starts fully open (position 100). */
  lemma {:induction false} DoorLockAndCurtainOverwrite(p: Params)
    ensures TruthyAt(p, "auto_lock_enabled") ==> Cleaned(DOOR_LOCK, p)["battery_level"] == VInt(DEFAULT_BATTERY)
    ensures "auto_lock_enabled" in Cleaned(DOOR_LOCK, p)
    ensures Cleaned(CURTAIN, p) == map["position" := VInt(DEFAULT_POSITION)]
  {
    assert AllowedKeys(DOOR_LOCK) == ["auto_lock_enabled", "battery_level"];
    assert AllowedKeys(CURTAIN) == ["position"];
    var m := Fill(p, "auto_lock_enabled", VBool(DEFAULT_AUTO_LOCK_ENABLED));
    assert Truthy(m["auto_lock_enabled"]) == TruthyAt(p, "auto_lock_enabled");
  }

  /** The status set when the type select changes. The `curtain` case has no
      `break`, so its "open" is overwritten by the `door_lock` case's
      "unlocked"; the last write wins. */
  method StatusForType(newType: string) returns (status: string)
    ensures status == "unlocked" <==> newType == CURTAIN || newType == DOOR_LOCK
    ensures status != "unlocked" ==> status == "off"
  {
    status := "";
    var fallingThrough := false;
    if newType == CURTAIN {
      status := "open";
      fallingThrough := true;
    }
    if fallingThrough || newType == DOOR_LOCK {
      status := "unlocked";
    } else {
      status := "off";
    }
  }

  // Alerts of the validation chain, in the order they are checked.
  const MSG_NO_ID: string := "Must enter an ID"
  const MSG_ID_TAKEN: string := "ID must be unique, this ID is already taken"
  const MSG_NO_NAME: string := "Must enter a name"
  const MSG_NO_ROOM: string := "Must enter a room name"
  const MSG_NO_TYPE: string := "Must choose a type"

  /** What one press of Submit does: raise exactly one alert, call
      `addDevice` with the new device record, or stop because `verifyId`
      threw, in which case neither happens and the exception leaves the
      click handler. */
  datatype Submission = Alerted(message: string) | Added(device: Device) | Threw

  /** The form's state: the values saved by its widgets. */
  class DeviceForm {
    var id: string
    var name: string
    var room: string
    var deviceType: string
    var status: string
    var parameters: Params

    constructor ()
      ensures id == "" && name == "" && room == "" && deviceType == "" && status == ""
      ensures parameters == map[]
    {
      id, name, room, deviceType, status := "", "", "", "", "";
      parameters := map[];
    }

    method SetId(newId: string)
      modifies this`id
      ensures id == newId
    {
      id := newId;
    }

    method SetName(newName: string)
      modifies this`name
      ensures name == newName
    {
      name := newName;
    }

    method SetRoom(newRoom: string)
      modifies this`room
      ensures room == newRoom
    {
      room := newRoom;
    }

    /** The type select changed: store the type and reset the status. */
    method SelectType(newType: string)
      modifies this`deviceType, this`status
      ensures deviceType == newType
      ensures status == (if newType == CURTAIN || newType == DOOR_LOCK then "unlocked" else "off")
    {
      deviceType := newType;
      status := StatusForType(newType);
    }

    /** A parameter widget saved a value: `{ ...parameters, key: v }`. */
    method SetParameter(key: string, v: Value)
      modifies this`parameters
      ensures parameters == old(parameters)[key := v]
    {
      parameters := parameters[key := v];
    }

    /** A checkbox for a flag with a default was clicked:
        `{ ...parameters, key: !(parameters[key] ?? default) }`. */
    method ToggleParameter(key: string, default: bool)
      modifies this`parameters
      ensures parameters.Keys == old(parameters).Keys + {key}
      ensures parameters[key] == VBool(!Truthy(Coalesce(old(parameters), key, VBool(default))))
      ensures forall k :: k in old(parameters) && k != key ==> parameters[k] == old(parameters)[k]
    {
      parameters := parameters[key := VBool(!Truthy(Coalesce(parameters, key, VBool(default))))];
    }

    /** `handleSubmit`, with `verifyId` the uniqueness check passed in by the
        list: `Some(b)` when it returns `b`, `None` when it throws. The
        checks run in a fixed order and the first failure is the only alert;
        a device is added exactly when every check passes. */
    method Submit(verifyId: string -> Option<bool>) returns (r: Submission)
      ensures r.Added? <==> id != "" && verifyId(id) == Some(true) && name != "" && room != "" && deviceType != ""
      ensures r == Alerted(MSG_NO_ID) <==> id == ""
      ensures r == Threw <==> id != "" && verifyId(id).None?
      ensures r == Alerted(MSG_ID_TAKEN) <==> id != "" && verifyId(id) == Some(false)
      ensures r == Alerted(MSG_NO_NAME) <==> id != "" && verifyId(id) == Some(true) && name == ""
      ensures r == Alerted(MSG_NO_ROOM) <==> id != "" && verifyId(id) == Some(true) && name != "" && room == ""
      ensures r == Alerted(MSG_NO_TYPE) <==>
        id != "" && verifyId(id) == Some(true) && name != "" && room != "" && deviceType == ""
      ensures r.Added? ==> r.device == Device(id, name, Some(room), Some(deviceType), status, Cleaned(deviceType, parameters))
    {
      if id == "" {
        r := Alerted(MSG_NO_ID);
        return;
      }
      var free := verifyId(id);
      if free.None? {
        r := Threw;
      } else if free.value {
        if name == "" {
          r := Alerted(MSG_NO_NAME);
        } else if room == "" {
          r := Alerted(MSG_NO_ROOM);
        } else if deviceType == "" {
          r := Alerted(MSG_NO_TYPE);
        } else {
          var cleaned := CleanParameters(deviceType, parameters);
          r := Added(Device(id, name, Some(room), Some(deviceType), status, cleaned));
        }
      } else {
        r := Alerted(MSG_ID_TAKEN);
      }
    }
  }
}
