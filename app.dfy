/**
 * The application shell (App.tsx): the snapshot normalisation `stableSortData`, the
 * local rewrite of the `on_off` capability after a successful toggle, the auth-failure
 * test on error messages, the choice of screen, and the state machine over `appState`,
 * `token`, `userData`, `errorMsg` and the notification toast.
 *
 * Every awaited remote call (fetching the snapshot, toggling a device, running a
 * scenario) is a parameter holding its outcome. A call the source starts without
 * awaiting it (`loadData(...)`, `refreshDashboardData(token)`) is not run inside the
 * handler: the handler returns the token it was started with, and its completion is the
 * separate transition `FinishLoadData` or `Refresh`.
 */
module App {
  import opened Types
  import opened Text
  import opened Sorting
  import opened Lookup

  // ---------------------------------------------------------------------------
  // Snapshot normalisation (`stableSortData`)
  // ---------------------------------------------------------------------------

  function DeviceKey(d: Device): string { d.id }
  function RoomKey(r: Room): string { r.name }
  function ScenarioKey(s: Scenario): string { s.name }

  /** Devices ordered by id, rooms and scenarios ordered by name. */
  ghost predicate Normalized(data: UserInfo) {
    && SortedBy(data.devices, DeviceKey)
    && SortedBy(data.rooms, RoomKey)
    && SortedBy(data.scenarios, ScenarioKey)
  }

  /** The snapshot with its three lists sorted: ordered, a permutation of the input lists,
      and every other field as received. */
  function StableSortData(data: UserInfo): (r: UserInfo)
    ensures Normalized(r)
    ensures multiset(r.devices) == multiset(data.devices)
    ensures multiset(r.rooms) == multiset(data.rooms)
    ensures multiset(r.scenarios) == multiset(data.scenarios)
    ensures r.status == data.status && r.requestId == data.requestId
    ensures r.groups == data.groups && r.households == data.households
  {
    SortBySorted(data.devices, DeviceKey);
    SortBySorted(data.rooms, RoomKey);
    SortBySorted(data.scenarios, ScenarioKey);
    SortByPermutes(data.devices, DeviceKey);
    SortByPermutes(data.rooms, RoomKey);
    SortByPermutes(data.scenarios, ScenarioKey);
    data.(devices := SortBy(data.devices, DeviceKey),
          rooms := SortBy(data.rooms, RoomKey),
          scenarios := SortBy(data.scenarios, ScenarioKey))
  }

  /** The sort is stable: entries sharing an id (devices) or a name (rooms, scenarios)
      keep the order in which the snapshot listed them. */
  lemma StableSortKeepsTies(data: UserInfo, k: string)
    ensures WithKey(StableSortData(data).devices, DeviceKey, k) == WithKey(data.devices, DeviceKey, k)
    ensures WithKey(StableSortData(data).rooms, RoomKey, k) == WithKey(data.rooms, RoomKey, k)
    ensures WithKey(StableSortData(data).scenarios, ScenarioKey, k) == WithKey(data.scenarios, ScenarioKey, k)
  {
    SortByStable(data.devices, DeviceKey, k);
    SortByStable(data.rooms, RoomKey, k);
    SortByStable(data.scenarios, ScenarioKey, k);
  }

  /** A snapshot that is already normalised is left as it is. */
  lemma NormalizedIsFixed(data: UserInfo)
    requires Normalized(data)
    ensures StableSortData(data) == data
  {
    SortBySortedIsIdentity(data.devices, DeviceKey);
    SortBySortedIsIdentity(data.rooms, RoomKey);
    SortBySortedIsIdentity(data.scenarios, ScenarioKey);
  }

  /** Sorting twice is sorting once. */
  lemma StableSortIdempotent(data: UserInfo)
    ensures StableSortData(StableSortData(data)) == StableSortData(data)
  {
    NormalizedIsFixed(StableSortData(data));
  }

  // ---------------------------------------------------------------------------
  // The local rewrite after a successful toggle (App.tsx, `setUserData(prevData => ...)`)
  // ---------------------------------------------------------------------------

  /** An `on_off` capability gets the state `{instance: 'on', value: newState}`; any other
      capability is returned as it is. */
  function ToggledCapability(c: Capability, newState: bool): (r: Capability)
    ensures r.kind == c.kind && r.retrievable == c.retrievable && r.reportable == c.reportable
    ensures r.parameters == c.parameters
    ensures IsOnOff(c) ==> r.state == Some(CapabilityState("on", BoolV(newState)))
    ensures !IsOnOff(c) ==> r == c
  {
    if c.kind == ON_OFF then c.(state := Some(CapabilityState("on", BoolV(newState)))) else c
  }

  /** The device with id `deviceId` gets every capability rewritten; any other device is
      returned as it is. */
  function ToggledDevice(d: Device, deviceId: string, newState: bool): (r: Device)
    ensures r.id == d.id && r == d.(capabilities := r.capabilities)
    ensures d.id != deviceId ==> r == d
    ensures |r.capabilities| == |d.capabilities|
    ensures d.id == deviceId ==>
      forall j :: 0 <= j < |d.capabilities| ==> r.capabilities[j] == ToggledCapability(d.capabilities[j], newState)
  {
    if d.id == deviceId then
      d.(capabilities := seq(|d.capabilities|, j requires 0 <= j < |d.capabilities| => ToggledCapability(d.capabilities[j], newState)))
    else d
  }

  function ToggledDevices(ds: seq<Device>, deviceId: string, newState: bool): (r: seq<Device>)
    ensures |r| == |ds|
    ensures forall i :: 0 <= i < |ds| ==> r[i] == ToggledDevice(ds[i], deviceId, newState)
  {
    seq(|ds|, i requires 0 <= i < |ds| => ToggledDevice(ds[i], deviceId, newState))
  }

  /** `stableSortData({...prevData, devices: updatedDevices})`. */
  function ApplyToggle(data: UserInfo, deviceId: string, newState: bool): UserInfo {
    StableSortData(data.(devices := ToggledDevices(data.devices, deviceId, newState)))
  }

  /** On a normalised snapshot the rewrite touches only the toggled device, keeps every
      device at its position, and changes no other field. */
  lemma ApplyToggleIsolated(data: UserInfo, deviceId: string, newState: bool)
    requires Normalized(data)
    ensures var r := ApplyToggle(data, deviceId, newState);
      && r == data.(devices := r.devices)
      && |r.devices| == |data.devices|
      && forall i :: 0 <= i < |data.devices| ==> r.devices[i] == ToggledDevice(data.devices[i], deviceId, newState)
  {
    var ds := ToggledDevices(data.devices, deviceId, newState);
    assert forall i :: 0 <= i < |ds| ==> DeviceKey(ds[i]) == DeviceKey(data.devices[i]);
    assert SortedBy(ds, DeviceKey);
    NormalizedIsFixed(data.(devices := ds));
  }

  /** The rewritten device reads as on exactly when the new state is `true`, provided it
      has an `on_off` capability at all. */
  lemma ToggledDeviceIsOn(d: Device, newState: bool)
    requires OnOffCapability(d.capabilities).Some?
    ensures OnOffIsTrue(ToggledDevice(d, d.id, newState).capabilities) == newState
  {
    var caps := d.capabilities;
    var t := ToggledDevice(d, d.id, newState).capabilities;
    var i := FirstOnOffIndex(caps);
    forall j | 0 <= j < i
      ensures !IsOnOff(t[j])
    {
      assert t[j] == ToggledCapability(caps[j], newState);
    }
    assert t[i] == ToggledCapability(caps[i], newState);
    FirstOnOffAt(t, i);
  }

  // ---------------------------------------------------------------------------
  // Outcomes of remote calls, the auth test and the screens
  // ---------------------------------------------------------------------------

  /** What a failed call throws: an `Error` with its message, or any other value. */
  datatype Thrown = ErrorObj(message: string) | OtherThrown

  datatype Fetch = Fetched(data: UserInfo) | FetchFailed(err: Thrown)

  datatype Call = Done | Failed(err: Thrown)

  /** The arguments a handler passed to a remote call. */
  datatype Request =
    | ToggleRequest(token: string, deviceId: string, on: bool)
    | ExecuteRequest(token: string, scenarioId: string)

  datatype NoteKind = ErrorNote | SuccessNote

  datatype Notification = Notification(message: string, kind: NoteKind)

  /** `err instanceof Error && (err.message.includes('401') || err.message.includes('403'))`. */
  predicate IsAuthFailure(e: Thrown) {
    e.ErrorObj? && (Contains(e.message, "401") || Contains(e.message, "403"))
  }

  /** The message the API client throws for HTTP 401 and 403 (yandex-api.js). */
  const API_AUTH_MESSAGE := "Ошибка авторизации. Проверьте ваш токен."

  /** The API client's own auth-failure message carries no status code, so the shell does
      not recognise it as an auth failure. */
  lemma ApiAuthMessageNotRecognised()
    ensures !IsAuthFailure(ErrorObj(API_AUTH_MESSAGE))
  {
    assert forall k :: 0 <= k < |API_AUTH_MESSAGE| ==> API_AUTH_MESSAGE[k] != '4';
    AbsentFirstChar(API_AUTH_MESSAGE, "401");
    AbsentFirstChar(API_AUTH_MESSAGE, "403");
  }

  /** A message mentioning either status code is recognised, wherever it mentions it. */
  lemma StatusCodeRecognised(prefix: string, code: string, suffix: string)
    requires code == "401" || code == "403"
    ensures IsAuthFailure(ErrorObj(prefix + code + suffix))
  {
    var m := prefix + code + suffix;
    assert m[|prefix|..|prefix| + |code|] == code;
    assert OccursAt(m, code, |prefix|);
    ContainsAt(m, code);
  }

  datatype Screen = LoadingScreen | DashboardScreen(data: UserInfo) | AuthScreen(error: Option<string>)

  /** The render: the loading screen, the dashboard when there is data, otherwise the
      token form with the last error. */
  function Render(appState: AppState, userData: Option<UserInfo>, errorMsg: Option<string>): (r: Screen)
    ensures r.LoadingScreen? <==> appState == LOADING
    ensures r.DashboardScreen? <==> appState == DASHBOARD && userData.Some?
    ensures r.DashboardScreen? ==> r.data == userData.value
    ensures r.AuthScreen? ==> r.error == errorMsg
  {
    if appState == LOADING then LoadingScreen
    else if appState == DASHBOARD && userData.Some? then DashboardScreen(userData.value)
    else AuthScreen(errorMsg)
  }

  const SESSION_EXPIRED := "Сессия истекла. Пожалуйста, введите токен заново."
  const REFRESH_FAILED := "Ошибка обновления данных."
  const UNKNOWN_ERROR := "Неизвестная ошибка"
  const SCENARIO_STARTED := "Сценарий успешно запущен"
  const SCENARIO_FAILED := "Ошибка выполнения сценария"
  const TOGGLE_FAILED := "Не удалось переключить устройство"

  /** The message of a thrown `Error`, or `fallback` for any other thrown value. */
  function MessageOr(e: Thrown, fallback: string): (r: string)
    ensures e.ErrorObj? ==> r == e.message
    ensures e.OtherThrown? ==> r == fallback
  {
    if e.ErrorObj? then e.message else fallback
  }

  // ---------------------------------------------------------------------------
  // The state machine
  // ---------------------------------------------------------------------------

  class AppModel {
    var appState: AppState
    var token: Option<string>
    var userData: Option<UserInfo>
    var errorMsg: Option<string>
    var notification: Option<Notification>
    /** The token kept in the operating system's credential store. */
    var secureToken: Option<string>

    /** ERROR is never entered, the dashboard state always has data, and the data held
        is always normalised. */
    ghost predicate Valid()
      reads this
    {
      && appState != ERROR
      && (appState == DASHBOARD ==> userData.Some?)
      && (userData.Some? ==> Normalized(userData.value))
    }

    /** The first render: the loading screen, nothing held yet. */
    constructor (stored: Option<string>)
      ensures Valid()
      ensures appState == LOADING && token == None && userData == None
      ensures errorMsg == None && notification == None && secureToken == stored
    {
      appState := LOADING;
      token := None;
      userData := None;
      errorMsg := None;
      notification := None;
      secureToken := stored;
    }

    /** The synchronous start of `loadData`: the loading screen, no error. */
    method StartLoadData()
      requires Valid()
      modifies this
      ensures Valid()
      ensures appState == LOADING && errorMsg == None
      ensures token == old(token) && userData == old(userData)
      ensures notification == old(notification) && secureToken == old(secureToken)
    {
      appState := LOADING;
      errorMsg := None;
    }

    /** The completion of `loadData` once the snapshot fetch has settled: the dashboard
        with the sorted snapshot, or the token form with the error message; only a
        recognised auth failure also forgets the token. */
    method FinishLoadData(fetch: Fetch)
      requires Valid()
      modifies this
      ensures Valid()
      ensures fetch.Fetched? ==> && appState == DASHBOARD && userData == Some(StableSortData(fetch.data))
                                 && errorMsg == old(errorMsg) && token == old(token)
                                 && secureToken == old(secureToken)
      ensures fetch.FetchFailed? ==> && appState == AUTH && userData == old(userData)
                                     && errorMsg == Some(MessageOr(fetch.err, UNKNOWN_ERROR))
      ensures fetch.FetchFailed? && IsAuthFailure(fetch.err) ==> token == None && secureToken == None
      ensures fetch.FetchFailed? && !IsAuthFailure(fetch.err) ==>
                token == old(token) && secureToken == old(secureToken)
      ensures notification == old(notification)
    {
      match fetch
      case Fetched(data) =>
        userData := Some(StableSortData(data));
        appState := DASHBOARD;
      case FetchFailed(err) =>
        errorMsg := Some(MessageOr(err, UNKNOWN_ERROR));
        appState := AUTH;
        if IsAuthFailure(err) {
          secureToken := None;
          token := None;
        }
    }

    /** `refreshDashboardData` once its fetch has settled: new data without leaving the
        current screen; a recognised auth failure logs out; any other failure only shows
        a notification. */
    method Refresh(fetch: Fetch)
      requires Valid()
      modifies this
      ensures Valid()
      ensures fetch.Fetched? ==> && userData == Some(StableSortData(fetch.data))
                                 && appState == old(appState) && token == old(token)
                                 && notification == old(notification) && secureToken == old(secureToken)
      ensures fetch.FetchFailed? && IsAuthFailure(fetch.err) ==>
                && token == None && userData == None && appState == AUTH && secureToken == None
                && notification == Some(Notification(SESSION_EXPIRED, ErrorNote))
      ensures fetch.FetchFailed? && !IsAuthFailure(fetch.err) ==>
                && token == old(token) && userData == old(userData) && appState == old(appState)
                && secureToken == old(secureToken)
                && notification == Some(Notification(REFRESH_FAILED, ErrorNote))
      ensures errorMsg == old(errorMsg)
    {
      match fetch
      case Fetched(data) =>
        userData := Some(StableSortData(data));
      case FetchFailed(err) =>
        if IsAuthFailure(err) {
          secureToken := None;
          token := None;
          userData := None;
          appState := AUTH;
          notification := Some(Notification(SESSION_EXPIRED, ErrorNote));
        } else {
          notification := Some(Notification(REFRESH_FAILED, ErrorNote));
        }
    }

    /** `checkToken`: with a truthy stored token, adopt it and start loading with it
        (returned, to be completed by `FinishLoadData`); otherwise show the token form. */
    method CheckToken() returns (load: Option<string>)
      requires Valid()
      modifies this
      ensures Valid()
      ensures load == (if Truthy(old(secureToken)) then old(secureToken) else None)
      ensures load.Some? ==> appState == LOADING && token == load && errorMsg == None
      ensures load.None? ==> appState == AUTH && token == old(token) && errorMsg == old(errorMsg)
      ensures userData == old(userData) && notification == old(notification)
      ensures secureToken == old(secureToken)
    {
      appState := LOADING;
      var storedToken := secureToken;
      if Truthy(storedToken) {
        token := storedToken;
        StartLoadData();
        load := storedToken;
      } else {
        appState := AUTH;
        load := None;
      }
    }

    /** `handleTokenSubmit`: adopt and store the token, then start loading with it; the
        token the load was started with is returned, as `CheckToken` does. */
    method HandleTokenSubmit(newToken: string) returns (load: string)
      requires Valid()
      modifies this
      ensures Valid()
      ensures load == newToken
      ensures token == Some(newToken) && secureToken == Some(newToken)
      ensures appState == LOADING && errorMsg == None
      ensures userData == old(userData) && notification == old(notification)
    {
      token := Some(newToken);
      secureToken := Some(newToken);
      StartLoadData();
      load := newToken;
    }

    /** `handleLogout`: forget the token and the data and show a clean token form. */
    method HandleLogout()
      requires Valid()
      modifies this
      ensures Valid()
      ensures secureToken == None && token == None && userData == None
      ensures appState == AUTH && errorMsg == None
      ensures notification == old(notification)
    {
      secureToken := None;
      token := None;
      userData := None;
      appState := AUTH;
      errorMsg := None;
    }

    /** `handleExecuteScenario`: nothing without a token; otherwise run the scenario,
        announce the result and, on success, start a refresh with the same token. A
        failure is passed back to the caller. */
    method HandleExecuteScenario(scenarioId: string, outcome: Call)
      returns (result: Call, sent: Option<Request>, refreshWith: Option<string>)
      requires Valid()
      modifies this
      ensures Valid()
      ensures !Truthy(old(token)) ==> && result == Done && sent == None && refreshWith == None
                                      && notification == old(notification)
      ensures Truthy(old(token)) ==> sent == Some(ExecuteRequest(old(token).value, scenarioId))
      ensures Truthy(old(token)) && outcome.Done? ==>
                && result == Done && refreshWith == old(token)
                && notification == Some(Notification(SCENARIO_STARTED, SuccessNote))
      ensures Truthy(old(token)) && outcome.Failed? ==>
                && result == outcome && refreshWith == None
                && notification == Some(Notification(MessageOr(outcome.err, SCENARIO_FAILED), ErrorNote))
      ensures appState == old(appState) && token == old(token) && userData == old(userData)
      ensures errorMsg == old(errorMsg) && secureToken == old(secureToken)
    {
      if !Truthy(token) {
        return Done, None, None;
      }
      sent := Some(ExecuteRequest(token.value, scenarioId));
      match outcome
      case Done =>
        notification := Some(Notification(SCENARIO_STARTED, SuccessNote));
        result, refreshWith := Done, token;
      case Failed(err) =>
        notification := Some(Notification(MessageOr(err, SCENARIO_FAILED), ErrorNote));
        result, refreshWith := outcome, None;
    }

    /** `handleToggleDevice`: nothing without a token or data; otherwise ask for the
        opposite of `currentState`. Only once that call has succeeded is the held
        snapshot rewritten and a refresh started; a failure changes no data, starts no
        refresh, shows a notification and is passed back to the caller. */
    method HandleToggleDevice(deviceId: string, currentState: bool, outcome: Call)
      returns (result: Call, sent: Option<Request>, refreshWith: Option<string>)
      requires Valid()
      modifies this
      ensures Valid()
      ensures !Truthy(old(token)) || old(userData).None? ==>
                && result == Done && sent == None && refreshWith == None
                && userData == old(userData) && notification == old(notification)
      ensures Truthy(old(token)) && old(userData).Some? ==>
                sent == Some(ToggleRequest(old(token).value, deviceId, !currentState))
      ensures Truthy(old(token)) && old(userData).Some? && outcome.Done? ==>
                && result == Done && refreshWith == old(token)
                && userData == Some(ApplyToggle(old(userData).value, deviceId, !currentState))
                && notification == old(notification)
      ensures Truthy(old(token)) && old(userData).Some? && outcome.Failed? ==>
                && result == outcome && refreshWith == None && userData == old(userData)
                && notification == Some(Notification(
                     if outcome.err.ErrorObj? then "Ошибка: " + outcome.err.message else TOGGLE_FAILED, ErrorNote))
      ensures appState == old(appState) && token == old(token)
      ensures errorMsg == old(errorMsg) && secureToken == old(secureToken)
    {
      if !Truthy(token) || userData.None? {
        return Done, None, None;
      }
      var newState := !currentState;
      sent := Some(ToggleRequest(token.value, deviceId, newState));
      match outcome
      case Done =>
        userData := Some(ApplyToggle(userData.value, deviceId, newState));
        result, refreshWith := Done, token;
      case Failed(err) =>
        var message := if err.ErrorObj? then "Ошибка: " + err.message else TOGGLE_FAILED;
        notification := Some(Notification(message, ErrorNote));
        result, refreshWith := outcome, None;
    }
  }

  /** In every reachable state the DASHBOARD state renders the dashboard itself, never the
      fall-through token form. */
  lemma DashboardStateRendersDashboard(m: AppModel)
    requires m.Valid() && m.appState == DASHBOARD
    ensures Render(m.appState, m.userData, m.errorMsg) == DashboardScreen(m.userData.value)
  {
  }
}
