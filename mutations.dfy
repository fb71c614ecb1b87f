/** The write side of the data layer: the alert shown when a request fails,
    and, for each of the four mutations, the ordered list of effects its
    callbacks run once the request succeeds or fails. The query library
    itself is represented only by the keys it is asked to invalidate or
    remove. */
module Mutations {
  import opened Values
  import opened Queries
  import DeviceView

  /** `response.data` of a failed request: a parsed JSON object, whose
      `error` field may be missing, or something that is not an object (a
      string body, `undefined`). */
  datatype ResponseData = JsonObject(error: Option<string>) | NotObject

  /** A failed request. `response` is `None` when the error has no response
      object at all (a network failure, a non-HTTP error). */
  datatype RequestError = RequestError(message: string, response: Option<ResponseData>)

  /** `alert(undefined)` shows the text "undefined". */
  const UNDEFINED_TEXT: string := "undefined"

  /** `handleError`: the server's `error` message when the error carries a
      response whose data is an object, otherwise the error's own message.
      The function returns the one alert it raises. */
  function HandleError(e: RequestError): (alert: string)
    ensures e.response.Some? && e.response.value.JsonObject? ==>
      alert == e.response.value.error.GetOr(UNDEFINED_TEXT)
    ensures e.response.None? || e.response.value.NotObject? ==> alert == e.message
  {
    if e.response.Some? then
      match e.response.value
      case JsonObject(err) => err.GetOr(UNDEFINED_TEXT)
      case NotObject => e.message
    else e.message
  }

  /** The alert can differ from the error's own message only when the
      server answered with a JSON object; an object without `error` shows
      the text "undefined", whatever the error's own message is. */
  lemma HandleErrorPrefersServerMessage(e: RequestError)
    ensures HandleError(e) != e.message ==> e.response.Some? && e.response.value.JsonObject?
    ensures e.response == Some(JsonObject(None)) ==> HandleError(e) == "undefined"
  {
  }

  /** The four mutations and the variables they are called with. */
  datatype Mutation =
    | CreateDevice(device: Device)
    | UpdateDevice(id: string, changes: Params)
    | DeleteDevice(id: string)
    | DeviceAction(id: string, changes: Params)

  /** The wiring of a device panel to the mutations: its `updateDevice`,
      `deviceAction` and `removeDevice` callbacks call `mutate` of the
      update, action and delete hooks with the payload unchanged. */
  function FromRequest(r: DeviceView.Request): (m: Mutation)
    ensures !m.CreateDevice? && m.id == r.id
    ensures m.UpdateDevice? <==> r.UpdateDevice?
    ensures m.DeviceAction? <==> r.DeviceAction?
    ensures m.DeleteDevice? <==> r.RemoveDevice?
    ensures !r.RemoveDevice? ==> m.changes == r.changes
  {
    match r
    case UpdateDevice(id, changes) => UpdateDevice(id, changes)
    case DeviceAction(id, changes) => DeviceAction(id, changes)
    case RemoveDevice(id) => DeleteDevice(id)
  }

  /** How the request ended. */
  datatype Outcome = Succeeded | Failed(error: RequestError)

  /** One thing a mutation's callbacks do, in order. */
  datatype Effect =
    | Alert(message: string)          // `handleError` in `onError`
    | ResetForm                       // the `resetForm` callback of create
    | Invalidate(filter: QueryKey)    // `invalidateQueries({ queryKey })`
    | Remove(filter: QueryKey)        // `removeQueries({ queryKey })`

  /** The callbacks `onError`, `onSuccess` and `onSettled` of each hook, in
      the order the query library calls them: `onSuccess` or `onError`
      first, then `onSettled`. */
  function Effects(m: Mutation, outcome: Outcome): (r: seq<Effect>)
    ensures |r| >= 1
    ensures outcome.Failed? ==> r[0] == Alert(HandleError(outcome.error))
    ensures forall i :: 0 <= i < |r| && r[i].Alert? ==> i == 0 && outcome.Failed?
    ensures m.DeleteDevice? ==> r[|r| - 1] == Remove(DeviceKey(m.id))
    ensures forall i :: 0 <= i < |r| && r[i].Remove? ==> m.DeleteDevice? && i == |r| - 1
    ensures r[0] == ResetForm <==> m.CreateDevice? && outcome.Succeeded?
  {
    var settled := if m.DeleteDevice? then [Remove(DeviceKey(m.id))] else [];
    var first :=
      match outcome
      case Failed(e) => [Alert(HandleError(e))]
      case Succeeded =>
        match m
        case CreateDevice(_) => [ResetForm, Invalidate(DEVICE_IDS_KEY), Invalidate(DEVICE_KEY)]
        case UpdateDevice(id, _) => [Invalidate(DEVICE_IDS_KEY), Invalidate(DeviceKey(id))]
        case DeleteDevice(_) => [Invalidate(DEVICE_IDS_KEY)]
        case DeviceAction(id, _) => [Invalidate(DeviceKey(id))];
    first + settled
  }

  /** The list view's Reload button: refresh the ID list, then every
      per-device query. */
  const RELOAD: seq<Effect> := [Invalidate(DEVICE_IDS_KEY), Invalidate(DEVICE_KEY)]

  /** The number of alerts among some effects. */
  function AlertCount(es: seq<Effect>): (n: nat)
    ensures n <= |es|
    ensures n == 0 <==> forall i :: 0 <= i < |es| ==> !es[i].Alert?
  {
    if es == [] then 0
    else
      assert forall i :: 1 <= i < |es| ==> es[1..][i - 1] == es[i];
      (if es[0].Alert? then 1 else 0) + AlertCount(es[1..])
  }

  /** A query is refreshed or dropped by some effect in the list. */
  predicate Touches(es: seq<Effect>, key: QueryKey) {
    exists i :: 0 <= i < |es| && (es[i].Invalidate? || es[i].Remove?) && Matches(es[i].filter, key)
  }

  /** A query is marked stale by some effect in the list. */
  predicate Refreshes(es: seq<Effect>, key: QueryKey) {
    exists i :: 0 <= i < |es| && es[i].Invalidate? && Matches(es[i].filter, key)
  }

  /** A failed request raises exactly one alert, the one `handleError`
      chooses, and a successful one raises none. */
  lemma {:induction false} OneAlertPerFailure(m: Mutation, outcome: Outcome)
    ensures AlertCount(Effects(m, outcome)) == (if outcome.Failed? then 1 else 0)
    ensures outcome.Failed? ==> Effects(m, outcome)[0] == Alert(HandleError(outcome.error))
  {
    var es := Effects(m, outcome);
    if outcome.Failed? {
      assert es[1..] == (if m.DeleteDevice? then [Remove(DeviceKey(m.id))] else []);
      assert AlertCount(es[1..]) == 0;
    } else {
      assert forall i :: 0 <= i < |es| ==> !es[i].Alert?;
    }
  }

  /** After a device is created the form is reset before any refresh, and
      then the ID list and every per-device query, whatever its ID, are
      refreshed. */
  lemma {:induction false} CreateRefreshesEverything(d: Device, arg: IdsArg, i: int)
    requires 0 <= i < |UseDevicesQueries(arg)|
    ensures Effects(CreateDevice(d), Succeeded)[0] == ResetForm
    ensures Refreshes(Effects(CreateDevice(d), Succeeded), DEVICE_IDS_KEY)
    ensures Refreshes(Effects(CreateDevice(d), Succeeded), UseDevicesQueries(arg)[i])
  {
    var es := Effects(CreateDevice(d), Succeeded);
    var ids := NormalizeIds(arg);
    var key := UseDevicesQueries(arg)[i];
    assert key == DeviceKey(ids[i]);
    assert es[1] == Invalidate(DEVICE_IDS_KEY) && Matches(es[1].filter, DEVICE_IDS_KEY);
    assert es[2] == Invalidate(DEVICE_KEY) && Matches(es[2].filter, key);
  }

  /** A successful create resets the form and then does exactly what the
      Reload button does. */
  lemma CreateIsResetThenReload(d: Device)
    ensures Effects(CreateDevice(d), Succeeded) == [ResetForm] + RELOAD
  {
  }

  /** An update refreshes the ID list, then the updated device's query, and
      no other device's query. */
  lemma {:induction false} UpdateRefreshesItsDevice(id: string, changes: Params, other: string)
    requires other != id
    ensures Effects(UpdateDevice(id, changes), Succeeded) ==
      [Invalidate(DEVICE_IDS_KEY), Invalidate(DeviceKey(id))]
    ensures Refreshes(Effects(UpdateDevice(id, changes), Succeeded), DeviceKey(id))
    ensures !Touches(Effects(UpdateDevice(id, changes), Succeeded), DeviceKey(other))
  {
    var es := Effects(UpdateDevice(id, changes), Succeeded);
    assert Matches(es[1].filter, DeviceKey(id));
    assert !Matches(es[1].filter, DeviceKey(other)) by {
      assert DeviceKey(id)[1] != DeviceKey(other)[1];
    }
  }

  /** A deletion drops the deleted device's query whether the request
      succeeded or failed, as the last thing it does; only on success is
      the ID list refreshed. */
  lemma {:induction false} DeleteAlwaysDropsItsDevice(id: string, outcome: Outcome)
    ensures var es := Effects(DeleteDevice(id), outcome);
      && |es| == 2 && es[|es| - 1] == Remove(DeviceKey(id))
      && (Refreshes(es, DEVICE_IDS_KEY) <==> outcome.Succeeded?)
  {
    var es := Effects(DeleteDevice(id), outcome);
    assert !Matches(DeviceKey(id), DEVICE_IDS_KEY);
    if outcome.Succeeded? {
      assert es[0] == Invalidate(DEVICE_IDS_KEY) && Matches(es[0].filter, DEVICE_IDS_KEY);
    }
  }

  /** An action refreshes only the acted-on device's query: never the ID
      list, never another device. */
  lemma {:induction false} ActionRefreshesOnlyItsDevice(id: string, changes: Params, other: string)
    requires other != id
    ensures Effects(DeviceAction(id, changes), Succeeded) == [Invalidate(DeviceKey(id))]
    ensures Refreshes(Effects(DeviceAction(id, changes), Succeeded), DeviceKey(id))
    ensures !Touches(Effects(DeviceAction(id, changes), Succeeded), DEVICE_IDS_KEY)
    ensures !Touches(Effects(DeviceAction(id, changes), Succeeded), DeviceKey(other))
  {
    var es := Effects(DeviceAction(id, changes), Succeeded);
    assert Matches(es[0].filter, DeviceKey(id));
    assert !Matches(es[0].filter, DeviceKey(other)) by {
      assert DeviceKey(id)[1] != DeviceKey(other)[1];
    }
    assert !Matches(es[0].filter, DEVICE_IDS_KEY);
  }

  /** A failed create, update or action leaves every cached query alone. */
  lemma {:induction false} FailureRefreshesNothing(m: Mutation, e: RequestError, key: QueryKey)
    requires !m.DeleteDevice?
    ensures !Touches(Effects(m, Failed(e)), key)
  {
    assert Effects(m, Failed(e)) == [Alert(HandleError(e))];
  }

  /** Whatever a user does in a device's panel, once the request it sends
      succeeds, that device's query is refreshed or dropped and no other
      device's query is touched. */
  lemma {:induction false} PanelEditTouchesOnlyItsDevice(
    id: string, deviceType: string, status: string, e: DeviceView.Event, other: string)
    requires DeviceView.Dispatch(id, deviceType, status, e).Some?
    requires other != id
    ensures var m := FromRequest(DeviceView.Dispatch(id, deviceType, status, e).value);
      Touches(Effects(m, Succeeded), DeviceKey(id)) && !Touches(Effects(m, Succeeded), DeviceKey(other))
  {
    var r := DeviceView.Dispatch(id, deviceType, status, e).value;
    var m := FromRequest(r);
    match m
    case UpdateDevice(_, changes) =>
      UpdateRefreshesItsDevice(id, changes, other);
    case DeviceAction(_, changes) =>
      ActionRefreshesOnlyItsDevice(id, changes, other);
    case DeleteDevice(_) =>
      var es := Effects(m, Succeeded);
      assert es == [Invalidate(DEVICE_IDS_KEY), Remove(DeviceKey(id))];
      assert Matches(es[1].filter, DeviceKey(id));
      assert !Matches(es[0].filter, DeviceKey(other)) by {
        assert DeviceKey(other)[..1] == DEVICE_KEY;
        assert |"device"| != |"device_ids"|;
      }
      assert !Matches(es[1].filter, DeviceKey(other)) by {
        assert DeviceKey(id)[1] != DeviceKey(other)[1];
      }
  }
}
