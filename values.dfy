/** Shared vocabulary of the dashboard model: optional values, the loose
    JavaScript values that device parameters hold, and the device record that
    the server returns and the creation form builds. */
module Values {

  /** `None` stands for JavaScript's `undefined` or `null`. */
  datatype Option<+T> = None | Some(value: T) {
    /** The `??` operator: the value if present, otherwise the default. */
    function GetOr(default: T): (r: T)
      ensures Some? ==> r == value
      ensures None? ==> r == default
    {
      match this
      case Some(v) => v
      case None => default
    }
  }

  /** A parameter value as JSON carries it. */
  datatype Value = VBool(b: bool) | VInt(n: int) | VStr(s: string) | VNull

  /** JavaScript truthiness of a value (NaN is not modelled). */
  predicate Truthy(v: Value) {
    match v
    case VBool(b) => b
    case VInt(n) => n != 0
    case VStr(s) => s != ""
    case VNull => false
  }

  /** A loose parameter object: an absent key is `undefined`. */
  type Params = map<string, Value>

  /** Reading `obj[key]`, where an absent key reads as `undefined`. */
  function Get(p: Params, key: string): (r: Option<Value>)
    ensures r.Some? <==> key in p
    ensures key in p ==> r.value == p[key]
  {
    if key in p then Some(p[key]) else None
  }

  /** Truthiness of `obj[key]`; `undefined` is falsy. */
  predicate TruthyAt(p: Params, key: string) {
    key in p && Truthy(p[key])
  }

  /** `obj[key] ?? fallback`: `null` and `undefined` both give the fallback. */
  function Coalesce(p: Params, key: string, fallback: Value): (r: Value)
    ensures key in p && p[key] != VNull ==> r == p[key]
    ensures key !in p || p[key] == VNull ==> r == fallback
  {
    if key in p && p[key] != VNull then p[key] else fallback
  }

  // The five device type names.
  const WATER_HEATER: string := "water_heater"
  const LIGHT: string := "light"
  const AIR_CONDITIONER: string := "air_conditioner"
  const DOOR_LOCK: string := "door_lock"
  const CURTAIN: string := "curtain"

  /** A device as the server stores it. `deviceType` and `room` are optional
      because records read back from the server may lack them. */
  datatype Device = Device(
    id: string,
    name: string,
    room: Option<string>,
    deviceType: Option<string>,
    status: string,
    parameters: Params)

  /** A one-key object literal `{ key: value }`. */
  function Single(key: string, v: Value): (r: Params)
    ensures r.Keys == {key} && r[key] == v
  {
    map[key := v]
  }
}
