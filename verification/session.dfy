/**
 * The session provider and route guard of src/App.jsx. The provider keeps
 * `isAuthenticated`, `loading` and `error` in memory beside the persistent
 * 'token' entry; it is initialised once from the store, and login, signup
 * and logout move it between the anonymous and the authenticated state.
 */
module Session {
  import opened Js
  import opened Storage
  import AuthService

  /** The provider's state together with the store it writes. */
  datatype SessionState = SessionState(entries: map<string, string>, isAuthenticated: bool, loading: bool, error: Value)

  /** A state change together with how the asynchronous operation ends. */
  datatype Transition = Transition(state: SessionState, result: Completion)

  /** The state before the mount effect: `useState(false)`, `useState(true)`, `useState(null)`. */
  function Initial(entries: map<string, string>): (s: SessionState)
    ensures s.entries == entries && !s.isAuthenticated && s.loading && s.error == Null
  {
    SessionState(entries, false, true, Null)
  }

  /** The mount effect: a truthy stored token authenticates; loading ends either way. */
  function AfterMount(s: SessionState): (t: SessionState)
    ensures t.isAuthenticated <==> s.isAuthenticated || TokenPresent(s.entries)
    ensures !t.loading
    ensures t.entries == s.entries && t.error == s.error
  {
    s.(isAuthenticated := s.isAuthenticated || TokenPresent(s.entries), loading := false)
  }

  /**
   * The provider's reaction once the service call has settled: what it
   * writes under 'token', what it passes to `setError` in its catch block
   * (if the catch reaches that call), and how `login`/`signup` ends.
   */
  datatype Reaction = Reaction(write: Option<Value>, setError: Option<Value>, result: Completion)

  /** The catch block: `setError(err.message)` (which itself throws on a null or undefined err), then rethrow. */
  function Catch(err: Value): (r: Reaction)
    ensures r.write.None? && r.result.Throw?
    ensures !Nullish(err) ==> r.setError == Some(Member(err, "message")) && r.result == Throw(err)
  {
    match Read(err, "message")
    case Throw(e) => Reaction(None, None, Throw(e))
    case Return(message) => Reaction(None, Some(message), Throw(err))
  }

  /** Lines after `await authService.login(...)`: `response.token` is read even when the response is null. */
  function React(service: Completion): (r: Reaction)
    ensures r.write.Some? <==> service.Return? && !Nullish(service.value) && Truthy(Member(service.value, "token"))
    ensures r.write.Some? ==> r.write.value == Member(service.value, "token") && r.result == Return(service.value)
    ensures r.result.Return? ==> r.setError.None?
    ensures service.Return? && !Nullish(service.value) && r.write.None? ==> r.result == Return(Undefined)
    ensures service.Return? && Nullish(service.value) ==>
              r.result == Throw(ErrorObject("TypeError", ReadErrorMessage(service.value, "token")))
              && r.setError == Some(Str(ReadErrorMessage(service.value, "token")))
    ensures service.Throw? && !Nullish(service.exception) ==>
              r.result == service && r.setError == Some(Member(service.exception, "message"))
  {
    match service
    case Throw(err) => Catch(err)
    case Return(response) =>
      match Read(response, "token")
      case Throw(err) => Catch(err)
      case Return(token) =>
        if Truthy(token) then Reaction(Some(token), None, Return(response))
        else Reaction(None, None, Return(Undefined))
  }

  /** A reply that carries a truthy token under `data.token`. */
  predicate CarriesToken(reply: HttpOutcome) {
    reply.Response? && !Nullish(reply.data) && Truthy(Member(reply.data, "token"))
  }

  /**
   * The provider's `login` (fallback LoginFallback) or `signup` (fallback
   * SignupFallback): `setError(null)`, the service call with its own store
   * write, then the provider's reaction.
   */
  function AfterAuth(s: SessionState, reply: HttpOutcome, fallback: string): (t: Transition)
    ensures t.result.Return? <==> CarriesToken(reply)
    ensures CarriesToken(reply) ==>
              && t.result == Return(reply.data)
              && t.state == s.(entries := s.entries[TokenKey := ToJsString(Member(reply.data, "token"))],
                               isAuthenticated := true, error := Null)
    ensures !CarriesToken(reply) ==>
              && t.result.Throw? && !Nullish(t.result.exception)
              && t.state == s.(error := Member(t.result.exception, "message"))
  {
    var step := AuthService.Outcome(reply, fallback);
    var reaction := React(step.result);
    var entries := AuthService.Persist(AuthService.Persist(s.entries, step.write), reaction.write);
    var error := if reaction.setError.Some? then reaction.setError.value else Null;
    Transition(SessionState(entries, s.isAuthenticated || reaction.write.Some?, s.loading, error), reaction.result)
  }

  /** `logout`: the token entry is removed and the session becomes anonymous. */
  function AfterLogout(s: SessionState): (t: SessionState)
    ensures !t.isAuthenticated && TokenKey !in t.entries
    ensures forall k :: k != TokenKey ==> (k in t.entries <==> k in s.entries) && (k in t.entries ==> t.entries[k] == s.entries[k])
    ensures t.loading == s.loading && t.error == s.error
  {
    s.(entries := s.entries - {TokenKey}, isAuthenticated := false)
  }

  /** What `ProtectedRoute` renders. */
  datatype Route<T> = Redirect(to: string, replace: bool) | Children(children: T)

  /** `ProtectedRoute`: a replacing redirect to '/login' exactly when unauthenticated, otherwise its children. */
  function ProtectedRoute<T>(isAuthenticated: bool, children: T): (r: Route<T>)
    ensures r.Redirect? <==> !isAuthenticated
    ensures r.Redirect? ==> r.to == "/login" && r.replace
    ensures r.Children? ==> r.children == children
  {
    if !isAuthenticated then Redirect("/login", true) else Children(children)
  }

  class AuthProvider {
    const store: LocalStorage
    var isAuthenticated: bool
    var loading: bool
    var error: Value

    function State(): SessionState
      reads this, store
    {
      SessionState(store.entries, isAuthenticated, loading, error)
    }

    constructor (store: LocalStorage)
      ensures this.store == store
      ensures State() == Initial(store.entries)
    {
      this.store := store;
      isAuthenticated := false;
      loading := true;
      error := Null;
    }

    /** The mount effect (runs once). */
    method Mount()
      modifies this
      ensures State() == AfterMount(old(State()))
    {
      var token := store.GetItem(TokenKey);
      if Truthy(ItemValue(token)) {
        isAuthenticated := true;
      }
      loading := false;
    }

    /** `{!loading && children}`: nothing is rendered while loading. */
    function Rendered<T>(children: T): (r: Option<T>)
      reads this
      ensures r.Some? <==> !loading
      ensures r.Some? ==> r.value == children
    {
      if loading then None else Some(children)
    }

    /** The catch block of `login`/`signup`. */
    method CatchFailure(err: Value) returns (c: Completion)
      modifies this
      ensures var r := Catch(err); c == r.result && error == (if r.setError.Some? then r.setError.value else old(error))
      ensures store.entries == old(store.entries) && isAuthenticated == old(isAuthenticated) && loading == old(loading)
    {
      match Read(err, "message")
      case Throw(e) =>
        c := Throw(e);
      case Return(message) =>
        error := message;
        c := Throw(err);
    }

    /** Everything `login`/`signup` does after the awaited service call. */
    method Settle(service: Completion) returns (c: Completion)
      modifies this, store
      ensures var r := React(service);
        && c == r.result
        && error == (if r.setError.Some? then r.setError.value else old(error))
        && isAuthenticated == (old(isAuthenticated) || r.write.Some?)
        && store.entries == AuthService.Persist(old(store.entries), r.write)
        && loading == old(loading)
    {
      match service
      case Throw(err) =>
        c := CatchFailure(err);
      case Return(response) =>
        match Read(response, "token")
        case Throw(err) =>
          c := CatchFailure(err);
        case Return(token) =>
          if Truthy(token) {
            store.SetItem(TokenKey, token);
            isAuthenticated := true;
            c := Return(response);
          } else {
            c := Return(Undefined);
          }
    }

    method Login(reply: HttpOutcome) returns (c: Completion)
      modifies this, store
      ensures Transition(State(), c) == AfterAuth(old(State()), reply, AuthService.LoginFallback)
    {
      error := Null;
      var service := AuthService.Login(store, reply);
      c := Settle(service);
    }

    method Signup(reply: HttpOutcome) returns (c: Completion)
      modifies this, store
      ensures Transition(State(), c) == AfterAuth(old(State()), reply, AuthService.SignupFallback)
    {
      error := Null;
      var service := AuthService.Signup(store, reply);
      c := Settle(service);
    }

    method Logout()
      modifies this, store
      ensures State() == AfterLogout(old(State()))
    {
      store.RemoveItem(TokenKey);
      isAuthenticated := false;
    }
  }

  /** Mounting a fresh provider: authenticated exactly when a truthy token is stored, and no longer loading. */
  lemma MountReflectsStore(entries: map<string, string>)
    ensures AfterMount(Initial(entries)).isAuthenticated <==> TokenPresent(entries)
    ensures !AfterMount(Initial(entries)).loading
  {
  }

  /**
   * The composition quirk: a reply whose body lacks a token makes the
   * service return null, and reading `.token` of null throws a TypeError,
   * whose message becomes the error state.
   */
  lemma TokenlessReplyThrowsTypeError(s: SessionState, reply: HttpOutcome, fallback: string)
    requires reply.Response? && !Nullish(reply.data) && !Truthy(Member(reply.data, "token"))
    ensures var t := AfterAuth(s, reply, fallback);
      && t.result == Throw(ErrorObject("TypeError", "Cannot read properties of null (reading 'token')"))
      && t.state == s.(error := Str("Cannot read properties of null (reading 'token')"))
  {
    assert AuthService.Outcome(reply, fallback).result == Return(Null);
    assert ReadErrorMessage(Null, "token") == "Cannot read properties of null (reading 'token')";
  }

  /** A failed request whose error carries a string message surfaces the fixed fallback message. */
  lemma FailedRequestShowsFallback(s: SessionState, reply: HttpOutcome, fallback: string)
    requires reply.Failure? && !Nullish(reply.error) && Member(reply.error, "message").Str?
    ensures var t := AfterAuth(s, reply, fallback);
      && t.result == Throw(MessageObject(fallback))
      && t.state == s.(error := Str(fallback))
  {
    AuthService.StringMessageGivesFallback(reply, fallback);
  }

  /**
   * A reply with a null or undefined body: the service's own read of
   * `data.token` throws inside its try block, so its catch turns that into
   * the fixed fallback, which the provider shows and rethrows.
   */
  lemma NullBodyShowsFallback(s: SessionState, reply: HttpOutcome, fallback: string)
    requires reply.Response? && Nullish(reply.data)
    ensures var t := AfterAuth(s, reply, fallback);
      && t.result == Throw(MessageObject(fallback))
      && t.state == s.(error := Str(fallback))
  {
  }

  /** Signup changes the state exactly as login does; only the fallback message of a failure differs. */
  lemma {:induction false} SignupMirrorsLogin(s: SessionState, reply: HttpOutcome)
    ensures var l := AfterAuth(s, reply, AuthService.LoginFallback);
            var g := AfterAuth(s, reply, AuthService.SignupFallback);
      && l.result.Return? == g.result.Return?
      && l.state.entries == g.state.entries
      && l.state.isAuthenticated == g.state.isAuthenticated
      && l.state.loading == g.state.loading
      && (l.result.Return? ==> l == g)
  {
  }

  lemma LogoutIdempotent(s: SessionState)
    ensures AfterLogout(AfterLogout(s)) == AfterLogout(s)
  {
  }

  /** After logout the guard redirects; after a login that stored a token it renders its children. */
  lemma {:induction false} GuardFollowsSession<T>(s: SessionState, reply: HttpOutcome, children: T)
    ensures ProtectedRoute(AfterLogout(s).isAuthenticated, children) == Redirect("/login", true)
    ensures CarriesToken(reply) ==>
              ProtectedRoute(AfterAuth(s, reply, AuthService.LoginFallback).state.isAuthenticated, children) == Children(children)
  {
  }
}
