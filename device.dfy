/** One device's panel: the per-type status toggle and the request that each
    user edit sends (field updates, parameter actions, removal). */
module DeviceView {
  import opened Values

  /** The status after the status checkbox is clicked. */
  function NextStatus(deviceType: string, status: string): (next: string)
    ensures next in CanonicalStatuses(deviceType)
    ensures status in CanonicalStatuses(deviceType) ==> next != status
  {
    if deviceType == CURTAIN then (if status == "open" then "closed" else "open")
    else if deviceType == DOOR_LOCK then (if status == "unlocked" then "locked" else "unlocked")
    else (if status == "on" then "off" else "on")
  }

  /** Whether the status checkbox is shown checked. */
  predicate Checked(deviceType: string, status: string)
    ensures Checked(deviceType, status) ==> status in CanonicalStatuses(deviceType)
  {
    if deviceType == CURTAIN then status == "open"
    else if deviceType == DOOR_LOCK then status == "locked"
    else status == "on"
  }

  /** The two statuses the toggle moves between for a type. */
  function CanonicalStatuses(deviceType: string): set<string> {
    if deviceType == CURTAIN then {"open", "closed"}
    else if deviceType == DOOR_LOCK then {"locked", "unlocked"}
    else {"on", "off"}
  }

  /** The toggle always lands on a canonical status; from a non-canonical one
      it lands on "open", "unlocked" or "on". */
  lemma NextStatusCanonical(deviceType: string, status: string)
    ensures NextStatus(deviceType, status) in CanonicalStatuses(deviceType)
    ensures status !in CanonicalStatuses(deviceType) ==>
      NextStatus(deviceType, status) == (if deviceType == CURTAIN then "open"
                                         else if deviceType == DOOR_LOCK then "unlocked"
                                         else "on")
  {
  }

  /** From a canonical status, toggling twice returns to it and each toggle
      flips the checkbox. */
  lemma ToggleIsInvolution(deviceType: string, status: string)
    requires status in CanonicalStatuses(deviceType)
    ensures NextStatus(deviceType, NextStatus(deviceType, status)) == status
    ensures Checked(deviceType, NextStatus(deviceType, status)) == !Checked(deviceType, status)
  {
  }

  /** A door lock left in an unknown status shows unchecked and its first
      toggle goes to "unlocked", so the box stays unchecked. */
  lemma DoorLockUnknownStatusStaysUnchecked(status: string)
    requires status !in CanonicalStatuses(DOOR_LOCK)
    ensures !Checked(DOOR_LOCK, status) && !Checked(DOOR_LOCK, NextStatus(DOOR_LOCK, status))
  {
  }

  /** The payload of `updateDevice` and `deviceAction`, and the argument of
      `removeDevice`. */
  datatype Request =
    | UpdateDevice(id: string, changes: Params)
    | DeviceAction(id: string, changes: Params)
    | RemoveDevice(id: string)

  /** What the user does in the panel. `Remove` carries the answer to the
      confirmation dialog. */
  datatype Event =
    | ToggleStatus
    | Rename(newName: string)
    | ChangeRoom(newRoom: string)
    | Remove(confirmed: bool)
    | EditParameters(payload: Params)

  /** The request an event sends, if any, for the device with this `id`,
      `deviceType` and `status`. */
  function Dispatch(id: string, deviceType: string, status: string, e: Event): (r: Option<Request>)
    ensures r.None? <==> e == Remove(false)
    ensures r.Some? ==> r.value.id == id
    ensures r.Some? && r.value.UpdateDevice? <==> e.ToggleStatus? || e.Rename? || e.ChangeRoom?
    ensures r.Some? && r.value.DeviceAction? <==> e.EditParameters?
    ensures e.ToggleStatus? ==> r.value.changes == Single("status", VStr(NextStatus(deviceType, status)))
    ensures e.Rename? ==> r.value.changes == Single("name", VStr(e.newName))
    ensures e.ChangeRoom? ==> r.value.changes == Single("room", VStr(e.newRoom))
    ensures e.EditParameters? ==> r.value.changes == e.payload
  {
    match e
    case ToggleStatus => Some(UpdateDevice(id, map["status" := VStr(NextStatus(deviceType, status))]))
    case Rename(n) => Some(UpdateDevice(id, map["name" := VStr(n)]))
    case ChangeRoom(rm) => Some(UpdateDevice(id, map["room" := VStr(rm)]))
    case Remove(ok) => if ok then Some(RemoveDevice(id)) else None
    case EditParameters(payload) => Some(DeviceAction(id, payload))
  }

  /** Field edits always go through `updateDevice` with exactly one key, and
      never through the action channel. */
  lemma {:induction false} FieldEditsAreSingleKeyUpdates(id: string, deviceType: string, status: string, e: Event)
    requires e.ToggleStatus? || e.Rename? || e.ChangeRoom?
    ensures var r := Dispatch(id, deviceType, status, e);
      r.Some? && r.value.UpdateDevice? && |r.value.changes| == 1 &&
      r.value.changes.Keys <= {"status", "name", "room"}
  {
    var r := Dispatch(id, deviceType, status, e);
    assert r.value.changes.Keys == {"status"} || r.value.changes.Keys == {"name"} || r.value.changes.Keys == {"room"};
  }
}
