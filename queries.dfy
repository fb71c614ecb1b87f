/** The read side of the data layer: how the argument of `useDevices` is
    turned into a list of IDs, the one query each ID gets, and how the
    per-device results are combined into the object the list view reads.
    Fetching and caching belong to the query library and are not modelled;
    a query is represented by its key alone. */
module Queries {
  import opened Values

  /** A query key such as `["device", id]` or `["device_ids"]`. */
  type QueryKey = seq<string>

  /** The key of the query that lists all device IDs (`useDeviceIds`). */
  const DEVICE_IDS_KEY: QueryKey := ["device_ids"]

  /** The key prefix shared by every per-device query. */
  const DEVICE_KEY: QueryKey := ["device"]

  /** The key of the query for one device. */
  function DeviceKey(id: string): (k: QueryKey)
    ensures |k| == 2 && k[..1] == DEVICE_KEY && k[1] == id
  {
    DEVICE_KEY + [id]
  }

  /** The query library's partial matching: a filter key selects every
      query whose key starts with it. */
  predicate Matches(filter: QueryKey, key: QueryKey) {
    |filter| <= |key| && key[..|filter|] == filter
  }

  /** The argument `ids` of `useDevices`, as far as its normalisation can
      tell values apart. */
  datatype IdsArg =
    | IdArray(ids: seq<string>)   // an array
    | IdNull                      // `null`
    | IdUndefined                 // `undefined`
    | IdScalar(id: string)        // anything else, taken as one ID

  /** The normalisation at the top of `useDevices`: an array is used as it
      is, `null` and `undefined` give no IDs, and any other value is a
      one-element list. */
  function NormalizeIds(arg: IdsArg): (ids: seq<string>)
    ensures arg.IdArray? ==> ids == arg.ids
    ensures arg.IdNull? || arg.IdUndefined? ==> ids == []
    ensures arg.IdScalar? ==> ids == [arg.id]
  {
    match arg
    case IdArray(a) => a
    case IdNull => []
    case IdUndefined => []
    case IdScalar(id) => [id]
  }

  /** Normalising is idempotent: feeding a normalised list back in changes
      nothing, and the result never has more than one ID unless an array
      was passed. */
  lemma NormalizeIdsIdempotent(arg: IdsArg)
    ensures NormalizeIds(IdArray(NormalizeIds(arg))) == NormalizeIds(arg)
    ensures !arg.IdArray? ==> |NormalizeIds(arg)| <= 1
  {
  }

  /** `normalizedIds.map((id) => ({ queryKey: ["device", id], ... }))`:
      one query per ID, in the order of the IDs. */
  function DeviceQueries(ids: seq<string>): (keys: seq<QueryKey>)
    ensures |keys| == |ids|
    ensures forall i :: 0 <= i < |ids| ==> keys[i] == DeviceKey(ids[i])
  {
    if ids == [] then [] else [DeviceKey(ids[0])] + DeviceQueries(ids[1..])
  }

  /** The queries `useDevices` starts for its argument. */
  function UseDevicesQueries(arg: IdsArg): seq<QueryKey> {
    DeviceQueries(NormalizeIds(arg))
  }

  /** Every query of `useDevices` is a per-device query for one of the
      IDs, and distinct IDs get distinct queries: the key gives back the
      ID it was made from. */
  lemma {:induction false} DeviceQueriesOnePerId(ids: seq<string>, i: int, j: int)
    requires 0 <= i < |ids| && 0 <= j < |ids|
    ensures Matches(DEVICE_KEY, DeviceQueries(ids)[i])
    ensures DeviceQueries(ids)[i][1] == ids[i]
    ensures DeviceQueries(ids)[i] == DeviceQueries(ids)[j] <==> ids[i] == ids[j]
  {
    var keys := DeviceQueries(ids);
    assert keys[i] == DeviceKey(ids[i]) && keys[j] == DeviceKey(ids[j]);
    if keys[i] == keys[j] {
      assert keys[i][1] == keys[j][1];
    }
  }

  /** What one device query reports. `error` is `None` when the query has
      no error. */
  datatype QueryResult = QueryResult(
    data: Option<Device>,
    isPending: bool,
    isError: bool,
    error: Option<string>)

  /** The object `combineDevices` returns. */
  datatype Combined = Combined(
    data: seq<Option<Device>>,
    isPending: bool,
    isError: bool,
    errors: seq<string>)

  /** `results.map((result) => result.data)`. */
  function DataOf(results: seq<QueryResult>): (data: seq<Option<Device>>)
    ensures |data| == |results|
    ensures forall i :: 0 <= i < |results| ==> data[i] == results[i].data
  {
    if results == [] then [] else [results[0].data] + DataOf(results[1..])
  }

  /** `results.some((result) => result.isPending)`. */
  function AnyPending(results: seq<QueryResult>): (b: bool)
    ensures b <==> exists i :: 0 <= i < |results| && results[i].isPending
  {
    if results == [] then false
    else
      assert forall i :: 1 <= i < |results| ==> results[1..][i - 1] == results[i];
      results[0].isPending || AnyPending(results[1..])
  }

  /** `results.some((result) => result.isError)`. */
  function AnyError(results: seq<QueryResult>): (b: bool)
    ensures b <==> exists i :: 0 <= i < |results| && results[i].isError
  {
    if results == [] then false
    else
      assert forall i :: 1 <= i < |results| ==> results[1..][i - 1] == results[i];
      results[0].isError || AnyError(results[1..])
  }

  /** `results.map((result) => result.error ?? "")`. */
  function ErrorsOf(results: seq<QueryResult>): (errors: seq<string>)
    ensures |errors| == |results|
    ensures forall i :: 0 <= i < |results| ==> errors[i] == results[i].error.GetOr("")
  {
    if results == [] then [] else [results[0].error.GetOr("")] + ErrorsOf(results[1..])
  }

  /** `combineDevices`: entry `i` of `data` and of `errors` comes from
      result `i`, a missing error reading as "", and each flag is raised iff
      some result raises it. */
  function CombineDevices(results: seq<QueryResult>): (c: Combined)
    ensures |c.data| == |results| && |c.errors| == |results|
    ensures forall i :: 0 <= i < |results| ==> c.data[i] == results[i].data
    ensures forall i :: 0 <= i < |results| ==> c.errors[i] == results[i].error.GetOr("")
    ensures c.isPending <==> exists i :: 0 <= i < |results| && results[i].isPending
    ensures c.isError <==> exists i :: 0 <= i < |results| && results[i].isError
  {
    Combined(DataOf(results), AnyPending(results), AnyError(results), ErrorsOf(results))
  }
}
