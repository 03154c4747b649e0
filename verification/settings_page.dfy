/**
 * The settings page (src/Pages/Settings.jsx): it loads the user's settings
 * (only with a stored token), normalises the fetched record field by
 * field, lets single keys be flipped or set, and saves them as a
 * PascalCase payload after checking for a user id.
 */
module SettingsPage {
  import opened Js
  import opened Storage
  import AuthService
  import SettingsService

  /** The settings state object, keyed by its camelCase property names. */
  type Settings = map<string, Value>

  const NotAuthenticated: string := "User is not authenticated"
  const LoadFailed: string := "Failed to load settings. Please try again."
  const UserIdRequired: string := "UserId is required."
  const Saved: string := "Settings saved successfully!"
  const SaveFailed: string := "Failed to save settings. Please try again."

  /** The initial settings, which are also the fallbacks for falsy fetched fields. */
  const Defaults: Settings := map[
    "userId" := Null,
    "emailNotifications" := Bool(false),
    "pushNotifications" := Bool(false),
    "updates" := Bool(false),
    "profileVisibility" := Str("public"),
    "activityStatus" := Bool(false),
    "enableSound" := Bool(false),
    "volume" := Num(50)
  ]

  /**
   * The record stored after a fetch: exactly the eight settings keys, each
   * holding the server's value when that is truthy and its default
   * otherwise (`response.x || default`).
   */
  function Normalize(response: Value): (s: Settings)
    requires !Nullish(response)
    ensures s.Keys == Defaults.Keys
    ensures forall k :: k in Defaults && Truthy(Member(response, k)) ==> s[k] == Member(response, k)
    ensures forall k :: k in Defaults && !Truthy(Member(response, k)) ==> s[k] == Defaults[k]
  {
    map[
      "userId" := Or(Member(response, "userId"), Null),
      "emailNotifications" := Or(Member(response, "emailNotifications"), Bool(false)),
      "pushNotifications" := Or(Member(response, "pushNotifications"), Bool(false)),
      "updates" := Or(Member(response, "updates"), Bool(false)),
      "profileVisibility" := Or(Member(response, "profileVisibility"), Str("public")),
      "activityStatus" := Or(Member(response, "activityStatus"), Bool(false)),
      "enableSound" := Or(Member(response, "enableSound"), Bool(false)),
      "volume" := Or(Member(response, "volume"), Num(50))
    ]
  }

  /** A server volume of 0 is falsy, so the stored volume becomes 50. */
  lemma ZeroVolumeBecomesFifty(response: Value)
    requires !Nullish(response) && Member(response, "volume") == Num(0)
    ensures Normalize(response)["volume"] == Num(50)
  {
  }

  function UpperChar(c: char): char {
    if 'a' <= c <= 'z' then (c as int - 32) as char else c
  }

  /** `pascal` is `camel` with its first letter upper-cased. */
  predicate PascalOf(pascal: string, camel: string) {
    |pascal| == |camel| > 0 && pascal[0] == UpperChar(camel[0]) && pascal[1..] == camel[1..]
  }

  /** The payload's field names, each paired with the setting it copies. */
  const Renames: seq<(string, string)> := [
    ("userId", "UserId"),
    ("emailNotifications", "EmailNotifications"),
    ("pushNotifications", "PushNotifications"),
    ("updates", "Updates"),
    ("profileVisibility", "ProfileVisibility"),
    ("activityStatus", "ActivityStatus"),
    ("enableSound", "EnableSound"),
    ("volume", "Volume")
  ]

  /** Every payload name is the PascalCase form of a settings key, and the settings keys are exactly those with defaults. */
  lemma RenamesArePascalCase()
    ensures forall i :: 0 <= i < |Renames| ==> PascalOf(Renames[i].1, Renames[i].0)
    ensures forall i :: 0 <= i < |Renames| ==> Renames[i].0 in Defaults
    ensures forall k :: k in Defaults ==> exists i :: 0 <= i < |Renames| && Renames[i].0 == k
  {
    forall k | k in Defaults
      ensures exists i :: 0 <= i < |Renames| && Renames[i].0 == k
    {
      if k == "userId" { assert Renames[0].0 == k; }
      else if k == "emailNotifications" { assert Renames[1].0 == k; }
      else if k == "pushNotifications" { assert Renames[2].0 == k; }
      else if k == "updates" { assert Renames[3].0 == k; }
      else if k == "profileVisibility" { assert Renames[4].0 == k; }
      else if k == "activityStatus" { assert Renames[5].0 == k; }
      else if k == "enableSound" { assert Renames[6].0 == k; }
      else { assert Renames[7].0 == k; }
    }
  }

  /** The save payload: exactly eight fields, the settings renamed to PascalCase with their values copied unchanged. */
  function Payload(s: Settings): (p: map<string, Value>)
    ensures |p| == |Renames| == 8
    ensures forall i :: 0 <= i < |Renames| ==> Renames[i].1 in p && p[Renames[i].1] == Field(s, Renames[i].0)
  {
    map[
      "UserId" := Field(s, "userId"),
      "EmailNotifications" := Field(s, "emailNotifications"),
      "PushNotifications" := Field(s, "pushNotifications"),
      "Updates" := Field(s, "updates"),
      "ProfileVisibility" := Field(s, "profileVisibility"),
      "ActivityStatus" := Field(s, "activityStatus"),
      "EnableSound" := Field(s, "enableSound"),
      "Volume" := Field(s, "volume")
    ]
  }

  /** `{...prev, [key]: !prev[key]}`: only `key` changes, to the negation of its truthiness. */
  function Toggle(s: Settings, key: string): (r: Settings)
    ensures r.Keys == s.Keys + {key}
    ensures r[key] == Bool(!Truthy(Field(s, key)))
    ensures forall k :: k in s && k != key ==> r[k] == s[k]
  {
    s[key := Bool(!Truthy(Field(s, key)))]
  }

  /** `{...prev, [key]: value}`: only `key` changes, to the given value. */
  function Assign(s: Settings, key: string, value: Value): (r: Settings)
    ensures r.Keys == s.Keys + {key}
    ensures r[key] == value
    ensures forall k :: k in s && k != key ==> r[k] == s[k]
  {
    s[key := value]
  }

  /** Flipping a boolean setting twice restores the original settings. */
  lemma {:induction false} ToggleTwiceRestores(s: Settings, key: string)
    requires key in s && s[key].Bool?
    ensures Toggle(Toggle(s, key), key) == s
  {
    var r := Toggle(Toggle(s, key), key);
    assert r.Keys == s.Keys;
    assert r[key] == s[key];
  }

  /** After one flip the key holds a boolean, so every later pair of flips cancels out. */
  lemma {:induction false} ToggleThriceIsToggle(s: Settings, key: string)
    ensures Toggle(Toggle(Toggle(s, key), key), key) == Toggle(s, key)
  {
    ToggleTwiceRestores(Toggle(s, key), key);
  }

  /** The page's state. */
  datatype PageState = PageState(settings: Settings, loading: bool, error: Value, successMessage: string, navigatedTo: Option<string>)

  const InitialPage: PageState := PageState(Defaults, false, Null, "", None)

  /** The state after a fetch, and the settings request sent (none without a token). */
  datatype FetchStep = FetchStep(state: PageState, request: Option<SettingsService.HttpRequest>)

  /** `fetchSettings`, given what the store holds and how the settings request ends. */
  function AfterFetch(p: PageState, store: LocalStorage, reply: HttpOutcome): (f: FetchStep)
    reads store
    ensures !TokenPresent(store.entries) ==> f == FetchStep(p.(navigatedTo := Some("/login")), None)
    ensures TokenPresent(store.entries) ==>
              && f.request == Some(SettingsService.Request(SettingsService.GetSettings, Undefined, store))
              && !f.state.loading && f.state.successMessage == p.successMessage
    ensures TokenPresent(store.entries) && reply.Response? ==>
              f.state == p.(settings := if Truthy(reply.data) then Normalize(reply.data) else p.settings, loading := false)
    ensures TokenPresent(store.entries) && reply.Failure? ==> f.state.settings == p.settings
    ensures TokenPresent(store.entries) && reply.Failure? && !Nullish(reply.error) ==>
              if SettingsService.ApiErrorMessage(reply.error) == NotAuthenticated
              then f.state == p.(navigatedTo := Some("/login"), loading := false)
              else f.state == p.(error := Str(LoadFailed), loading := false)
    ensures TokenPresent(store.entries) && reply.Failure? && Nullish(reply.error) ==>
              f.state == p.(error := Str(LoadFailed), loading := false)
  {
    if !Truthy(ItemValue(AuthService.GetCurrentUser(store))) then
      FetchStep(p.(navigatedTo := Some("/login")), None)
    else
      var request := SettingsService.Request(SettingsService.GetSettings, Undefined, store);
      match SettingsService.Call(SettingsService.GetSettings, reply)
      case Return(response) =>
        FetchStep(p.(settings := if Truthy(response) then Normalize(response) else p.settings, loading := false), Some(request))
      case Throw(err) =>
        if Member(err, "message") == Str(NotAuthenticated) then
          FetchStep(p.(navigatedTo := Some("/login"), loading := false), Some(request))
        else
          FetchStep(p.(error := Str(LoadFailed), loading := false), Some(request))
  }

  /**
   * The service call `handleSave` makes. `Missing` is the code as written:
   * the settings service defines no `updateUserSettings`, so the call
   * throws a TypeError before any request is sent. `Present` is the
   * evidently intended call, ending as given.
   */
  datatype UpdateCall = Missing | Present(outcome: Completion)

  const MissingUpdateError: Value := ErrorObject("TypeError", "settingsService.updateUserSettings is not a function")

  /** `err?.response?.data?.message || 'Failed to save settings. Please try again.'` */
  function SaveError(err: Value): (e: Value)
    ensures var server := OptionalRead(OptionalRead(OptionalRead(err, "response"), "data"), "message");
      e == if Truthy(server) then server else Str(SaveFailed)
    ensures Truthy(e)
  {
    Or(OptionalRead(OptionalRead(OptionalRead(err, "response"), "data"), "message"), Str(SaveFailed))
  }

  /** The state after a save, and the payload handed to the service (none when nothing is sent). */
  datatype SaveStep = SaveStep(state: PageState, sent: Option<map<string, Value>>)

  predicate HasUserId(s: Settings) {
    Truthy(Field(s, "userId"))
  }

  /** `handleSave`: messages cleared first, the user-id guard, then the service call; loading always ends false. */
  function AfterSave(p: PageState, call: UpdateCall): (f: SaveStep)
    ensures f.state.settings == p.settings && f.state.navigatedTo == p.navigatedTo && !f.state.loading
    ensures !HasUserId(p.settings) ==> f.sent.None? && f.state.error == Str(UserIdRequired) && f.state.successMessage == ""
    ensures f.sent.Some? <==> HasUserId(p.settings) && call.Present?
    ensures f.sent.Some? ==> f.sent.value == Payload(p.settings)
    ensures f.state.successMessage != "" <==> HasUserId(p.settings) && call.Present? && call.outcome.Return?
    ensures f.state.successMessage != "" ==> f.state.successMessage == Saved && f.state.error == Null
    ensures HasUserId(p.settings) && call.Present? && call.outcome.Throw? ==> f.state.error == SaveError(call.outcome.exception)
    ensures f.state.error != Null ==> Truthy(f.state.error)
  {
    var cleared := p.(loading := true, error := Null, successMessage := "");
    if !HasUserId(p.settings) then
      SaveStep(cleared.(error := Str(UserIdRequired), loading := false), None)
    else
      match call
      case Missing => SaveStep(cleared.(error := SaveError(MissingUpdateError), loading := false), None)
      case Present(Return(_)) => SaveStep(cleared.(successMessage := Saved, loading := false), Some(Payload(p.settings)))
      case Present(Throw(err)) => SaveStep(cleared.(error := SaveError(err), loading := false), Some(Payload(p.settings)))
  }

  /** As written, saving never succeeds: with a user id it always ends in the generic failure message. */
  lemma SaveAsWrittenNeverSucceeds(p: PageState)
    ensures var f := AfterSave(p, Missing);
      && f.sent.None? && f.state.successMessage == ""
      && f.state.error == if HasUserId(p.settings) then Str(SaveFailed) else Str(UserIdRequired)
  {
  }

  /** With the intended service call, a save that the server accepts reports success and sends the payload. */
  lemma SaveSucceedsWhenServiceAccepts(p: PageState, body: Value)
    requires HasUserId(p.settings)
    ensures AfterSave(p, Present(Return(body))) ==
              SaveStep(p.(loading := false, error := Null, successMessage := Saved), Some(Payload(p.settings)))
  {
  }

  class SettingsView {
    var settings: Settings
    var loading: bool
    var error: Value
    var successMessage: string
    var navigatedTo: Option<string>

    function State(): PageState
      reads this
    {
      PageState(settings, loading, error, successMessage, navigatedTo)
    }

    constructor ()
      ensures State() == InitialPage
    {
      settings := Defaults;
      loading := false;
      error := Null;
      successMessage := "";
      navigatedTo := None;
    }

    method FetchSettings(store: LocalStorage, reply: HttpOutcome) returns (request: Option<SettingsService.HttpRequest>)
      modifies this
      ensures FetchStep(State(), request) == AfterFetch(old(State()), store, reply)
    {
      var token := AuthService.GetCurrentUser(store);
      if !Truthy(ItemValue(token)) {
        navigatedTo := Some("/login");
        request := None;
        return;
      }
      loading := true;
      request := Some(SettingsService.Request(SettingsService.GetSettings, Undefined, store));
      var c := SettingsService.Call(SettingsService.GetSettings, reply);
      match c {
        case Return(response) =>
          if Truthy(response) {
            settings := Normalize(response);
          }
        case Throw(err) =>
          if Member(err, "message") == Str(NotAuthenticated) {
            navigatedTo := Some("/login");
          } else {
            error := Str(LoadFailed);
          }
      }
      loading := false;
    }

    method HandleNotificationChange(key: string)
      modifies this
      ensures State() == old(State()).(settings := Toggle(old(settings), key))
    {
      settings := Toggle(settings, key);
    }

    method HandlePrivacyChange(key: string, value: Value)
      modifies this
      ensures State() == old(State()).(settings := Assign(old(settings), key, value))
    {
      settings := Assign(settings, key, value);
    }

    method HandleSoundChange(key: string, value: Value)
      modifies this
      ensures State() == old(State()).(settings := Assign(old(settings), key, value))
    {
      settings := Assign(settings, key, value);
    }

    method HandleSave(call: UpdateCall) returns (sent: Option<map<string, Value>>)
      modifies this
      ensures SaveStep(State(), sent) == AfterSave(old(State()), call)
    {
      loading := true;
      error := Null;
      successMessage := "";
      if !HasUserId(settings) {
        error := Str(UserIdRequired);
        loading := false;
        sent := None;
        return;
      }
      var payload := Payload(settings);
      match call {
        case Missing =>
          error := SaveError(MissingUpdateError);
          sent := None;
        case Present(outcome) =>
          sent := Some(payload);
          match outcome {
            case Return(_) => successMessage := Saved;
            case Throw(err) => error := SaveError(err);
          }
      }
      loading := false;
    }
  }
}
