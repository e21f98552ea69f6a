/**
 * The session: who is signed in and with which token, whether a sign-in
 * or sign-up call is running, and the last error it gave.
 */
module Auth {
  import opened Wrappers
  import opened Ideas

  const LoginFailed: string := "Falha no login."
  const RegisterFailed: string := "Falha no registro."

  /** The stored session; both parts are null when nobody is signed in. */
  datatype Session = Session(user: Option<User>, token: Option<string>)

  const SignedOut: Session := Session(None, None)

  /** `!!session.token`: a present, non-empty token. */
  predicate HasToken(s: Session)
  {
    s.token.Some? && s.token.value != ""
  }

  /** The error text of a failed call: the error's message, or the call's own default for a non-error value. */
  function FailureText(e: Thrown, fallback: string): (r: string)
    ensures e.ErrorObject? ==> r == e.message
    ensures e.OtherValue? ==> r == fallback
  {
    match e
    case ErrorObject(m) => m
    case OtherValue(_) => fallback
  }

  /** `AuthProvider`. */
  class AuthProvider {
    var session: Session
    var isLoading: bool
    var error: Option<string>

    /** Starts from the stored session, with no call running. */
    constructor (stored: Session)
      ensures session == stored && !isLoading && error.None?
    {
      session := stored;
      isLoading := false;
      error := None;
    }

    /** `isAuthenticated`. */
    predicate IsAuthenticated()
      reads this
    {
      HasToken(session)
    }

    /** The start shared by `login` and `register`: the call runs and the old error is cleared. */
    method Begin()
      modifies this`isLoading, this`error
      ensures isLoading && error.None?
    {
      isLoading := true;
      error := None;
    }

    /** The end shared by `login` and `register`. */
    method Finish(reply: Result<AuthResponse, Thrown>, fallback: string) returns (thrown: Option<Thrown>)
      modifies this
      ensures !isLoading
      ensures reply.Ok? ==> (
        && session == Session(Some(reply.value.user), Some(reply.value.token))
        && error.None? && thrown.None?)
      ensures reply.Err? ==> (
        && session == old(session)
        && error == Some(FailureText(reply.error, fallback))
        && thrown == Some(reply.error))
    {
      match reply {
        case Ok(data) =>
          session := Session(Some(data.user), Some(data.token));
          error := None;
          thrown := None;
        case Err(e) =>
          error := Some(FailureText(e, fallback));
          thrown := Some(e);
      }
      isLoading := false;
    }

    /**
     * The end of `login`: a reply stores its user and token and clears the
     * error; a failure keeps the session, records the message (or the
     * default) and is passed on. The call stops running either way.
     */
    method FinishLogin(reply: Result<AuthResponse, Thrown>) returns (thrown: Option<Thrown>)
      modifies this
      ensures !isLoading
      ensures reply.Ok? ==> (
        && session == Session(Some(reply.value.user), Some(reply.value.token))
        && error.None? && thrown.None?
        && (IsAuthenticated() <==> reply.value.token != ""))
      ensures reply.Err? ==> (
        && session == old(session)
        && error == Some(FailureText(reply.error, LoginFailed))
        && thrown == Some(reply.error)
        && IsAuthenticated() == old(IsAuthenticated()))
    {
      thrown := Finish(reply, LoginFailed);
    }

    /** The end of `register`: as for `login`, with its own default message. */
    method FinishRegister(reply: Result<AuthResponse, Thrown>) returns (thrown: Option<Thrown>)
      modifies this
      ensures !isLoading
      ensures reply.Ok? ==> (
        && session == Session(Some(reply.value.user), Some(reply.value.token))
        && error.None? && thrown.None?
        && (IsAuthenticated() <==> reply.value.token != ""))
      ensures reply.Err? ==> (
        && session == old(session)
        && error == Some(FailureText(reply.error, RegisterFailed))
        && thrown == Some(reply.error)
        && IsAuthenticated() == old(IsAuthenticated()))
    {
      thrown := Finish(reply, RegisterFailed);
    }

    /** `logout`: the session is cleared with no call made. */
    method Logout()
      modifies this`session
      ensures session == SignedOut
      ensures !IsAuthenticated()
    {
      session := SignedOut;
    }
  }
}
