/** The authentication context every page reads: whether the admin is signed in, whether a
    check or a login is under way, and the login and logout actions over `AuthService`. */
module AuthContext {
  import opened Common
  import opened Http
  import opened Auth

  class AuthProvider {
    var isAuthenticated: bool
    var loading: bool
    const service: AuthService

    /** Before the mount check: signed out and loading. */
    constructor (service: AuthService)
      ensures this.service == service && !isAuthenticated && loading
    {
      this.service := service;
      isAuthenticated := false;
      loading := true;
    }

    /** The mount effect: read the stored token once and stop loading. */
    method CheckAuth()
      modifies this
      ensures isAuthenticated == service.IsAuthenticated() && !loading
    {
      isAuthenticated := service.IsAuthenticated();
      loading := false;
    }

    /** `login` never throws: it answers true exactly when the service returned a successful
        response, and only then marks the admin signed in; loading ends either way. */
    method Login(email: string, password: string, reply: Reply<LoginResponse>) returns (ok: bool)
      modifies this, service, service.storage
      ensures ok <==> reply.Ok? && reply.body.success
      ensures isAuthenticated == (ok || old(isAuthenticated))
      ensures !loading
      ensures |service.calls| == |old(service.calls)| + 1
      ensures ok ==> service.storage.items
                     == old(service.storage.items)[AccessTokenKey := reply.body.access][RefreshTokenKey := reply.body.refresh]
      ensures !ok ==> service.storage.items == old(service.storage.items)
    {
      loading := true;
      var outcome := service.Login(email, password, reply);
      if outcome.Returned? && outcome.response.success {
        isAuthenticated := true;
        ok := true;
      } else {
        ok := false;
      }
      loading := false;
    }

    method Logout()
      modifies this, service.storage
      ensures !isAuthenticated && !service.IsAuthenticated()
      ensures service.storage.items == old(service.storage.items) - {AccessTokenKey, RefreshTokenKey}
      ensures loading == old(loading)
    {
      service.Logout();
      isAuthenticated := false;
    }
  }
}
