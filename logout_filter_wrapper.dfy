/** The logout filter (`LogoutFilterWrapper`): two configured URLs, and the success handler that
    checks the logged-out principal and chooses where to redirect. The redirect itself is the
    handler's single output. */
module LogoutFilters {
  import opened JavaLang
  import opened SpringSecurityContext

  /** The parts of the HTTP request the handler reads. */
  datatype HttpRequest = HttpRequest(contextPath: string, queryString: Option<string>)

  datatype LogoutError =
    | IllegalArgument(message: string)
    | IllegalState(message: string)
    | NullPointer

  class LogoutFilterWrapper {
    var logoutSuccessfulUrl: Option<string>
    var logoutSuccessfulInactivityUrl: Option<string>

    constructor ()
      ensures logoutSuccessfulUrl == None && logoutSuccessfulInactivityUrl == None
    {
      logoutSuccessfulUrl, logoutSuccessfulInactivityUrl := None, None;
    }

    method SetLogoutSuccessfulUrl(inUrl: Option<string>)
      modifies this`logoutSuccessfulUrl
      ensures logoutSuccessfulUrl == inUrl
    {
      logoutSuccessfulUrl := inUrl;
    }

    method SetLogoutSuccessfulUrlInactivity(inUrl: Option<string>)
      modifies this`logoutSuccessfulInactivityUrl
      ensures logoutSuccessfulInactivityUrl == inUrl
    {
      logoutSuccessfulInactivityUrl := inUrl;
    }

    /** The page shown after a logout for inactivity: the inactivity URL with the login page,
        under the context path, as its `login` parameter. A null URL prints as "null". */
    function TimeoutUrl(contextPath: string): (url: string)
      reads this
      ensures StringOf(logoutSuccessfulInactivityUrl) <= url
      ensures url[|StringOf(logoutSuccessfulInactivityUrl)|..] == "?login=" + contextPath + StringOf(logoutSuccessfulUrl)
    {
      StringOf(logoutSuccessfulInactivityUrl) + "?login=" + contextPath + StringOf(logoutSuccessfulUrl)
    }

    /** `CustomLogoutSuccessHandler.onLogoutSuccess`: the authentication must be present and its
        principal a domain account; the redirect goes to the timeout URL when the query string
        asks for it with "timeout=true", and to the login URL (which may be null) otherwise. */
    method OnLogoutSuccess(request: HttpRequest, authentication: Option<Authentication>)
      returns (redirect: Result<Option<string>, LogoutError>)
      ensures authentication.None? ==>
        redirect == Err(IllegalState("Security principal is not initialized!"))
      ensures authentication.Some? && !authentication.value.principal.AccountPrincipal? ==>
        redirect == Err(IllegalArgument("Invalid security principal type!"))
      ensures authentication.Some? && authentication.value.principal.AccountPrincipal? ==>
        match request.queryString
        case None => redirect == Err(NullPointer)
        case Some(query) =>
          && redirect.Ok?
          && (Contains(query, "timeout=true") <==> redirect.value == Some(TimeoutUrl(request.contextPath)))
          && (!Contains(query, "timeout=true") ==> redirect.value == logoutSuccessfulUrl)
    {
      if authentication.Some? && !authentication.value.principal.AccountPrincipal? {
        return Err(IllegalArgument("Invalid security principal type!"));
      }
      if authentication.None? {
        return Err(IllegalState("Security principal is not initialized!"));
      }
      var loginUrl := logoutSuccessfulUrl;
      var timeoutUrl := StringOf(logoutSuccessfulInactivityUrl) + "?login=" + request.contextPath + StringOf(loginUrl);
      if request.queryString.None? {
        return Err(NullPointer);
      }
      var targetUrl := if Contains(request.queryString.value, "timeout=true") then Some(timeoutUrl) else loginUrl;
      redirect := Ok(targetUrl);
    }
  }
}
