/** The sign-up form (features/auth/ui/register-form.tsx): the fields, the
    username filter on input, and the toast shown for the sign-up outcome.
    The sign-up call is a parameter; the redirect that follows a success
    after a one-second timer is reported, not performed. */
module Register {
  import opened Common
  import Username
  import Toast

  const SuccessMessage := "Регистрация успешна! Добро пожаловать в Russiagram! \U{1F389}"
  const DefaultError := "Ошибка при регистрации"

  /** The toast for a sign-up outcome: `signUp` is what the call returns —
      whether the reply holds a user — or the error it throws. A reply
      without a user shows nothing. */
  function OutcomeToast(signUp: Result<bool>): (r: Option<(Toast.ToastKind, string)>)
    ensures r.None? <==> signUp == Ok(false)
    ensures signUp == Ok(true) ==> r == Some((Toast.Success, SuccessMessage))
    ensures signUp.Err? ==> r.Some? && r.value.0 == Toast.Error && r.value.1 != ""
    ensures signUp.Err? && signUp.message != "" ==> r.value.1 == signUp.message
  {
    match signUp
    case Ok(hasUser) => if hasUser then Some((Toast.Success, SuccessMessage)) else None
    case Err(message) => Some((Toast.Error, OrElse(Some(message), DefaultError)))
  }

  class Form {
    var email: string
    var password: string
    var username: string
    var fullName: string
    var loading: bool
    const toasts: Toast.Queue

    constructor (toasts: Toast.Queue)
      ensures email == "" && password == "" && username == "" && fullName == "" && !loading
      ensures this.toasts == toasts
    {
      email, password, username, fullName := "", "", "", "";
      loading := false;
      this.toasts := toasts;
    }

    /** The username field's `onChange`. */
    method SetUsername(input: string)
      modifies this`username
      ensures username == Username.Sanitize(input)
    {
      username := Username.Sanitize(input);
    }

    /** `handleRegister`. `toastId` is the id the toast draws; the result
        says whether the redirect home is scheduled. */
    method HandleRegister(signUp: Result<bool>, toastId: string) returns (redirect: bool)
      modifies this`loading, toasts
      ensures !loading
      ensures redirect <==> signUp == Ok(true)
      ensures var shown := OutcomeToast(signUp);
        toasts.toasts == old(toasts.toasts) + (if shown.Some? then [Toast.Toast(toastId, shown.value.1, shown.value.0)] else [])
    {
      loading := true;
      var shown := OutcomeToast(signUp);
      if shown.Some? {
        toasts.AddToast(shown.value.1, shown.value.0, toastId);
      }
      redirect := signUp == Ok(true);
      loading := false;
    }
  }
}
