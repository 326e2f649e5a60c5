/**
 * The sign-in / sign-up form, src/components/auth/AuthForm.tsx: a mode the
 * user toggles, and a submit that calls the matching auth operation while a
 * loading flag is raised.
 */
module Auth {
  import opened Wrappers

  datatype Mode = Login | Signup

  /** `mode === 'login' ? 'signup' : 'login'`. */
  function Toggled(m: Mode): (r: Mode)
    ensures r != m
  {
    if m == Login then Signup else Login
  }

  /** Toggling twice restores the mode. */
  lemma ToggleTwice(m: Mode)
    ensures Toggled(Toggled(m)) == m
  {
  }

  /** The auth operation a submit calls, with the credentials it sends. */
  datatype AuthCall = SignUp(email: string, password: string) | SignInWithPassword(email: string, password: string)

  /** The toast a submit shows. */
  datatype Notice = AccountCreated | LoggedIn | AuthFailed(message: string)

  /** The one toast for the answer to `call`: the call's own success toast, or the error. */
  function SubmitNotice(call: AuthCall, error: Option<string>): (n: Notice)
    ensures error.Some? ==> n == AuthFailed(error.value)
    ensures error.None? ==> (n == AccountCreated <==> call.SignUp?)
    ensures error.None? ==> (n == LoggedIn <==> call.SignInWithPassword?)
  {
    if error.Some? then AuthFailed(error.value)
    else if call.SignUp? then AccountCreated
    else LoggedIn
  }

  class AuthForm {
    var email: string
    var password: string
    var mode: Mode
    var isLoading: bool

    constructor ()
      ensures email == "" && password == "" && mode == Login && !isLoading
    {
      email, password := "", "";
      mode, isLoading := Login, false;
    }

    method SetEmail(value: string)
      modifies this`email
      ensures email == value
    {
      email := value;
    }

    method SetPassword(value: string)
      modifies this`password
      ensures password == value
    {
      password := value;
    }

    /** The submit button is disabled while a request is in flight. */
    predicate SubmitEnabled()
      reads this
      ensures SubmitEnabled() ==> !isLoading
    {
      !isLoading
    }

    /** So is the mode toggle. */
    predicate ToggleEnabled()
      reads this
      ensures ToggleEnabled() ==> !isLoading
    {
      !isLoading
    }

    /** `toggleMode`. */
    method ToggleMode()
      requires ToggleEnabled()
      modifies this`mode
      ensures mode == Toggled(old(mode))
    {
      if mode == Login {
        mode := Signup;
      } else {
        mode := Login;
      }
    }

    /** `handleSubmit` up to the awaited call: raise the flag and choose the call by `mode`. */
    method BeginSubmit() returns (call: AuthCall)
      requires SubmitEnabled()
      modifies this`isLoading
      ensures isLoading && !SubmitEnabled() && !ToggleEnabled()
      ensures call.SignUp? <==> mode == Signup
      ensures call.email == email && call.password == password
    {
      isLoading := true;
      if mode == Signup {
        call := SignUp(email, password);
      } else {
        call := SignInWithPassword(email, password);
      }
    }

    /** `handleSubmit` after the call answers: one toast, then the flag is cleared in `finally`. */
    method CompleteSubmit(call: AuthCall, error: Option<string>) returns (notice: Notice)
      requires isLoading
      modifies this`isLoading
      ensures !isLoading && SubmitEnabled() && ToggleEnabled()
      ensures notice == SubmitNotice(call, error)
    {
      if error.Some? {
        notice := AuthFailed(error.value);
      } else if call.SignUp? {
        notice := AccountCreated;
      } else {
        notice := LoggedIn;
      }
      isLoading := false;
    }

    /** A whole submit: the mode is never changed, and the flag ends cleared on every outcome. */
    method Submit(error: Option<string>) returns (call: AuthCall, notice: Notice)
      requires SubmitEnabled()
      modifies this`isLoading
      ensures mode == old(mode) && !isLoading
      ensures call.SignUp? <==> old(mode) == Signup
      ensures call.email == email && call.password == password
      ensures notice == SubmitNotice(call, error)
    {
      call := BeginSubmit();
      notice := CompleteSubmit(call, error);
    }
  }

  /** Toggling the form twice leaves its mode as it was. */
  method ToggleTwiceRestores(form: AuthForm)
    requires form.ToggleEnabled()
    modifies form`mode
    ensures form.mode == old(form.mode)
    ensures unchanged(form`email, form`password, form`isLoading)
  {
    form.ToggleMode();
    form.ToggleMode();
  }
}
