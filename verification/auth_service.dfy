/**
 * The authentication service object (src/API/authService.js): login and
 * signup persist the token a successful reply carries, the password-reset
 * request only forwards the reply, logout drops the token and
 * getCurrentUser reads it back.
 */
module AuthService {
  import opened Js
  import opened Storage

  const LoginFallback: string := "An error occurred during login"
  const SignupFallback: string := "An error occurred during signup"
  const ForgetPasswordFallback: string := "An error occurred during forget password"

  /**
   * What the service's catch blocks throw for a caught `error`:
   * `error.message?.data`, or `{message: fallback}` when that is falsy.
   * Reading `error.message` itself throws when `error` is null or undefined.
   */
  function Rejection(error: Value, fallback: string): (thrown: Value)
    ensures Truthy(thrown)
    ensures !Nullish(error) ==>
              var data := OptionalRead(Member(error, "message"), "data");
              thrown == if Truthy(data) then data else MessageObject(fallback)
    ensures !Nullish(error) && !Member(error, "message").Obj? ==> thrown == MessageObject(fallback)
    ensures Nullish(error) ==> thrown == ErrorObject("TypeError", ReadErrorMessage(error, "message"))
  {
    match Read(error, "message")
    case Throw(e) => e
    case Return(message) => Or(OptionalRead(message, "data"), MessageObject(fallback))
  }

  /** The effect of one login or signup request: the value written under 'token', if any, and how the call ends. */
  datatype Step = Step(write: Option<Value>, result: Completion)

  /** Login and signup, as a function of the server's reply. */
  function Outcome(reply: HttpOutcome, fallback: string): (s: Step)
    ensures s.write.Some? <==> reply.Response? && !Nullish(reply.data) && Truthy(Member(reply.data, "token"))
    ensures s.write.Some? ==> s.write.value == Member(reply.data, "token") && s.result == Return(reply.data)
    ensures s.write.None? ==> s.result == Return(Null) || (s.result.Throw? && Truthy(s.result.exception))
    ensures s.result.Return? <==> reply.Response? && !Nullish(reply.data)
    ensures reply.Failure? ==> s == Step(None, Throw(Rejection(reply.error, fallback)))
    ensures reply.Response? && Nullish(reply.data) ==>
              s == Step(None, Throw(Rejection(ErrorObject("TypeError", ReadErrorMessage(reply.data, "token")), fallback)))
  {
    match reply
    case Failure(error) => Step(None, Throw(Rejection(error, fallback)))
    case Response(data) =>
      match Read(data, "token")
      case Throw(e) => Step(None, Throw(Rejection(e, fallback)))
      case Return(token) =>
        if Truthy(token) then Step(Some(token), Return(data)) else Step(None, Return(Null))
  }

  /** The store after a step: the token entry is written exactly when the step writes one. */
  function Persist(entries: map<string, string>, write: Option<Value>): (r: map<string, string>)
    ensures write.None? ==> r == entries
    ensures write.Some? ==> TokenKey in r && r[TokenKey] == ToJsString(write.value)
    ensures forall k :: k != TokenKey ==> (k in r <==> k in entries) && (k in r ==> r[k] == entries[k])
  {
    match write
    case None => entries
    case Some(token) => entries[TokenKey := ToJsString(token)]
  }

  /** The shared body of `login` and `signup`. */
  method Submit(store: LocalStorage, reply: HttpOutcome, fallback: string) returns (c: Completion)
    modifies store
    ensures c == Outcome(reply, fallback).result
    ensures store.entries == Persist(old(store.entries), Outcome(reply, fallback).write)
  {
    match reply
    case Failure(error) =>
      c := Throw(Rejection(error, fallback));
    case Response(data) =>
      match Read(data, "token")
      case Throw(e) =>
        c := Throw(Rejection(e, fallback));
      case Return(token) =>
        if Truthy(token) {
          store.SetItem(TokenKey, token);
          c := Return(data);
        } else {
          c := Return(Null);
        }
  }

  method Login(store: LocalStorage, reply: HttpOutcome) returns (c: Completion)
    modifies store
    ensures c == Outcome(reply, LoginFallback).result
    ensures store.entries == Persist(old(store.entries), Outcome(reply, LoginFallback).write)
  {
    c := Submit(store, reply, LoginFallback);
  }

  method Signup(store: LocalStorage, reply: HttpOutcome) returns (c: Completion)
    modifies store
    ensures c == Outcome(reply, SignupFallback).result
    ensures store.entries == Persist(old(store.entries), Outcome(reply, SignupFallback).write)
  {
    c := Submit(store, reply, SignupFallback);
  }

  /** `forgetPassword`: forwards the reply body and never touches the store. */
  function ForgetPassword(reply: HttpOutcome): (c: Completion)
    ensures c.Return? <==> reply.Response?
    ensures c.Return? ==> c.value == reply.data
    ensures c.Throw? ==> Truthy(c.exception)
    ensures reply.Failure? ==> c == Throw(Rejection(reply.error, ForgetPasswordFallback))
    ensures reply.Failure? && !Nullish(reply.error) && Member(reply.error, "message").Str? ==>
              c == Throw(MessageObject(ForgetPasswordFallback))
  {
    match reply
    case Response(data) => Return(data)
    case Failure(error) => Throw(Rejection(error, ForgetPasswordFallback))
  }

  method Logout(store: LocalStorage)
    modifies store
    ensures store.entries == old(store.entries) - {TokenKey}
    ensures GetCurrentUser(store).None?
  {
    store.RemoveItem(TokenKey);
  }

  /** `getCurrentUser`: exactly what is stored under 'token'. */
  function GetCurrentUser(store: LocalStorage): (r: Option<string>)
    reads store
    ensures r.Some? <==> TokenKey in store.entries
    ensures r.Some? ==> r.value == store.entries[TokenKey]
  {
    store.GetItem(TokenKey)
  }

  /** A failed request whose error carries a string message throws the operation's fixed fallback. */
  lemma StringMessageGivesFallback(reply: HttpOutcome, fallback: string)
    requires reply.Failure? && !Nullish(reply.error) && Member(reply.error, "message").Str?
    ensures Outcome(reply, fallback).result == Throw(MessageObject(fallback))
    ensures Outcome(reply, fallback).write.None?
  {
  }

  /** After a login whose reply carries a truthy token, `getCurrentUser` reads back exactly that token, coerced to a string. */
  lemma {:induction false} CurrentUserAfterLogin(entries: map<string, string>, reply: HttpOutcome)
    requires reply.Response? && !Nullish(reply.data) && Truthy(Member(reply.data, "token"))
    ensures var r := Persist(entries, Outcome(reply, LoginFallback).write);
      TokenKey in r && r[TokenKey] == ToJsString(Member(reply.data, "token"))
  {
  }

  /** A reply without a truthy token leaves every entry of the store as it was. */
  lemma TokenlessReplyKeepsStore(entries: map<string, string>, reply: HttpOutcome, fallback: string)
    requires !(reply.Response? && !Nullish(reply.data) && Truthy(Member(reply.data, "token")))
    ensures Persist(entries, Outcome(reply, fallback).write) == entries
  {
  }
}
