/** The login page: checks the form, signs in through the authentication context and opens
    the dashboard, or shows why it could not. */
module Login {
  import opened Common
  import opened Http
  import opened Auth
  import opened AuthContext

  const InvalidEmailMessage := "Iltimos, to'g'ri email manzilini kiriting"
  const MissingPasswordMessage := "Iltimos, parolni kiriting"
  const WrongCredentialsMessage := "Email yoki parol noto'g'ri"
  const DashboardRoute := "/admin"

  /** Non-empty and containing both "@" and ".". */
  predicate PlausibleEmail(email: string) {
    email != "" && Contains(email, "@") && Contains(email, ".")
  }

  /** The message the form check shows, if any: the e-mail is checked before the password. */
  function InputError(email: string, password: string): (e: Option<string>)
    ensures e.None? <==> PlausibleEmail(email) && password != ""
    ensures !PlausibleEmail(email) ==> e == Some(InvalidEmailMessage)
    ensures PlausibleEmail(email) && password == "" ==> e == Some(MissingPasswordMessage)
  {
    if !PlausibleEmail(email) then Some(InvalidEmailMessage)
    else if password == "" then Some(MissingPasswordMessage)
    else None
  }

  class LoginPage {
    var email: string
    var password: string
    var error: string
    var isLoading: bool
    /** The route `navigate` was last called with. */
    var navigatedTo: Option<string>
    const auth: AuthProvider

    constructor (auth: AuthProvider)
      ensures this.auth == auth && email == "" && password == "" && error == "" && !isLoading && navigatedTo == None
    {
      this.auth := auth;
      email := "";
      password := "";
      error := "";
      isLoading := false;
      navigatedTo := None;
    }

    method SetEmail(value: string)
      modifies this
      ensures email == value && password == old(password) && error == old(error)
      ensures isLoading == old(isLoading) && navigatedTo == old(navigatedTo)
    {
      email := value;
    }

    method SetPassword(value: string)
      modifies this
      ensures password == value && email == old(email) && error == old(error)
      ensures isLoading == old(isLoading) && navigatedTo == old(navigatedTo)
    {
      password := value;
    }

    /** Submit: a form that fails the check shows its message and calls nothing; otherwise
        one login is attempted, a success opens the dashboard and a refusal shows the
        wrong-credentials message. Loading always ends. */
    method HandleSubmit(reply: Reply<LoginResponse>)
      modifies this, auth, auth.service, auth.service.storage
      ensures email == old(email) && password == old(password) && !isLoading
      ensures InputError(email, password).Some? ==>
                error == InputError(email, password).value
                && navigatedTo == old(navigatedTo)
                && auth.service.calls == old(auth.service.calls)
                && auth.service.storage.items == old(auth.service.storage.items)
                && auth.isAuthenticated == old(auth.isAuthenticated)
      ensures InputError(email, password).None? ==>
                |auth.service.calls| == |old(auth.service.calls)| + 1
                && !auth.loading
                && (if reply.Ok? && reply.body.success
                    then error == "" && navigatedTo == Some(DashboardRoute) && auth.isAuthenticated
                    else error == WrongCredentialsMessage && navigatedTo == old(navigatedTo)
                         && auth.service.storage.items == old(auth.service.storage.items))
    {
      error := "";
      isLoading := true;
      var invalid := InputError(email, password);
      if invalid.Some? {
        error := invalid.value;
        isLoading := false;
        return;
      }
      var success := auth.Login(email, password, reply);
      if success {
        navigatedTo := Some(DashboardRoute);
      } else {
        error := WrongCredentialsMessage;
      }
      isLoading := false;
    }
  }
}
