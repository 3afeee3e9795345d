/**
 * The query client's policy: the retry back-off, the global error handler
 * that raises a toast, the online flag fed from the network monitor, and
 * the default options.
 */
module QueryClient {
  import opened Wrappers
  import opened JsValue
  import ToastReducer
  import ReduxStore

  /** `2 ** i`. */
  function Pow2(i: nat): (r: nat)
    ensures r >= 1
  {
    if i == 0 then 1 else 2 * Pow2(i - 1)
  }

  const MAX_RETRY_DELAY := 30000

  /** `retryDelay`: `Math.min(1000 * 2 ** attemptIndex, 30000)` milliseconds. */
  function RetryDelay(attemptIndex: nat): (ms: nat)
    ensures 1000 <= ms <= MAX_RETRY_DELAY
    ensures ms == MAX_RETRY_DELAY || ms == 1000 * Pow2(attemptIndex)
  {
    if 1000 * Pow2(attemptIndex) < MAX_RETRY_DELAY then 1000 * Pow2(attemptIndex) else MAX_RETRY_DELAY
  }

  lemma {:induction false} Pow2Monotone(i: nat, j: nat)
    requires i <= j
    ensures Pow2(i) <= Pow2(j)
    decreases j
  {
    if i < j {
      Pow2Monotone(i, j - 1);
    }
  }

  /** The delay never shrinks from one attempt to a later one. */
  lemma RetryDelayMonotone(i: nat, j: nat)
    requires i <= j
    ensures RetryDelay(i) <= RetryDelay(j)
  {
    Pow2Monotone(i, j);
  }

  /** The delay doubles from one second through the fifth attempt and is capped at thirty seconds from the sixth. */
  lemma RetryDelaySchedule(i: nat)
    ensures i <= 4 ==> RetryDelay(i) == 1000 * Pow2(i)
    ensures i >= 5 ==> RetryDelay(i) == MAX_RETRY_DELAY
  {
    assert Pow2(4) == 16 && Pow2(5) == 32;
    if i <= 4 {
      Pow2Monotone(i, 4);
    } else {
      Pow2Monotone(5, i);
    }
  }

  /** `!!state.isConnected && !!state.isInternetReachable`. */
  function OnlineFlag(isConnected: Value, isInternetReachable: Value): (online: bool)
    ensures online ==> Truthy(isConnected) && Truthy(isInternetReachable)
  {
    Truthy(isConnected) && Truthy(isInternetReachable)
  }

  /**
   * With the network monitor's boolean, null or absent fields, the app is
   * online only when both are `true`; an unknown or missing reachability
   * counts as offline.
   */
  lemma OnlineOnlyWhenBothTrue(isConnected: Value, isInternetReachable: Value)
    requires isConnected.Bool? || isConnected.Null? || isConnected.Undefined?
    requires isInternetReachable.Bool? || isInternetReachable.Null? || isInternetReachable.Undefined?
    ensures OnlineFlag(isConnected, isInternetReachable) <==> isConnected == Bool(true) && isInternetReachable == Bool(true)
  {
  }

  const SOMETHING_WENT_WRONG := "Something went wrong"

  /**
   * `handleError`: the actions the global query and mutation error handler
   * dispatches for `error` — one error toast, unless the error's code is 401.
   */
  function HandleError(error: Value): (acts: seq<ReduxStore.Action>)
    ensures |acts| <= 1
    ensures acts == [] <==> Get(error, "code") == Num(401)
    ensures forall a :: a in acts ==>
              (a.Toast? && a.toast.ShowToast?
               && a.toast.payload.kind == ToastReducer.Error
               && a.toast.payload.title == Some("Error")
               && a.toast.payload.duration == 3000
               && Truthy(a.toast.payload.message))
  {
    if Get(error, "code") != Num(401) then
      [ReduxStore.Toast(ToastReducer.ShowToast(ToastReducer.ToastPayload(
        ToastReducer.Error, Some("Error"),
        Or(Get(error, "message"), Str(SOMETHING_WENT_WRONG)), 3000)))]
    else []
  }

  /** The toast carries the error's own message when it has a non-empty one, and the fallback text otherwise; a missing or null error still raises a toast. */
  lemma HandleErrorMessage(error: Value)
    requires Get(error, "code") != Num(401)
    ensures Truthy(Get(error, "message")) ==> HandleError(error)[0].toast.payload.message == Get(error, "message")
    ensures !Truthy(Get(error, "message")) ==> HandleError(error)[0].toast.payload.message == Str(SOMETHING_WENT_WRONG)
    ensures Nullish(error) ==> |HandleError(error)| == 1
  {
  }

  /** After the handler's actions the toast is showing exactly when the code was not 401, and the other slices are as they were. */
  lemma HandleErrorEffect(s: ReduxStore.StoreState, error: Value)
    ensures var t := ReduxStore.Replay(s, HandleError(error));
      t.(toast := s.toast) == s
      && (Get(error, "code") != Num(401) ==> t.toast.status && t.toast.title == "Error" && t.toast.kind == ToastReducer.Error)
      && (Get(error, "code") == Num(401) ==> t == s)
  {
    var acts := HandleError(error);
    if acts != [] {
      assert acts[..0] == [];
    }
  }

  datatype NetworkMode = Online | Always | OfflineFirst

  /** The default options of queries and mutations. */
  datatype Defaults = Defaults(staleTime: nat, gcTime: nat, retry: nat, networkMode: NetworkMode)

  const QueryDefaults := Defaults(5 * 60 * 1000, 10 * 60 * 1000, 2, Online)
  /** Mutations set only `retry` and `networkMode`; the times are the library's own and are not part of this model. */
  const MutationRetry := 1
  const MutationNetworkMode := Online

  /** The total back-off a request waits through before it fails for good, with `retries` retries. */
  function TotalBackoff(retries: nat): (ms: nat)
    ensures ms <= retries * MAX_RETRY_DELAY
  {
    if retries == 0 then 0 else TotalBackoff(retries - 1) + RetryDelay(retries - 1)
  }

  /**
   * A failing query is retried twice, after one second and then two, so it
   * fails for good after three seconds of back-off.
   */
  lemma DefaultBackoff()
    ensures QueryDefaults.retry == 2
    ensures RetryDelay(0) == 1000 && RetryDelay(1) == 2000
    ensures TotalBackoff(QueryDefaults.retry) == 3000
  {
    assert Pow2(1) == 2;
    assert TotalBackoff(1) == RetryDelay(0);
  }
}
