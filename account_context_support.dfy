/** The bind-and-reset lifecycle of the account context (`AccountContextSupport`): at the start of
    a request a fresh context is bound and filled from Spring Security and from the account store;
    at the end it is unbound. The request's session id and the account lookup are inputs. */
module AccountContextSupport {
  import opened JavaLang
  import opened Users
  import opened AccountContexts
  import opened SpringSecurityContext

  /** Binds a fresh context, sets its session id and the Spring roles, and, when Spring holds user
      details, looks the account up by the Spring username and records it with its username.
      A failed lookup is not caught: it is returned, and the context stays bound without account. */
  method ProcessAccountContext(
    holder: AccountContextHolder, security: SecurityContext, sessionId: string, accounts: AccountStore)
    returns (outcome: Outcome<LookupError>)
    modifies holder
    ensures holder.current != null && fresh(holder.current)
    ensures holder.current.sessionId == Some(sessionId)
    ensures holder.current.roles == Some(GetRoles(security))
    ensures GetUserDetails(security).None? ==>
      outcome == Pass && holder.current.account == null && holder.current.username == None
    ensures GetUserDetails(security).Some? ==>
      match accounts.ObtainAccount(GetUserDetails(security).value.username)
      case Err(e) =>
        outcome == Fail(e) && holder.current.account == null && holder.current.username == None
      case Ok(found) =>
        && outcome == Pass
        && holder.current.account == found
        && holder.current.username == (if found == null then None else found.username)
  {
    var accountContext := new AccountContext();
    holder.SetAccountContext(accountContext);
    accountContext.SetSessionId(Some(sessionId));
    var roles := ToStringList(if security.authentication.Some? then security.authentication.value.authorities else []);
    accountContext.SetRoles(Some(roles));

    if GetUserDetails(security).Some? {
      var lookup := accounts.ObtainAccount(GetUsername(security).value);
      if lookup.Err? {
        return Fail(lookup.error);
      }
      var account := lookup.value;
      if account != null {
        accountContext.SetAccount(account);
        accountContext.SetUsername(account.username);
      }
    }
    outcome := Pass;
  }

  /** Unbinds whatever context is bound; harmless when none is. */
  method ResetContext(holder: AccountContextHolder)
    modifies holder
    ensures holder.current == null
  {
    holder.ResetAccountContext();
  }

  /** A request after a forced login: the bound context carries the forced roles and the stored
      account's username; after the request ends (even twice) only the defaults remain. */
  method ForcedLoginRequest(alice: User)
    requires alice.username == Some("alice")
  {
    var security := new SecurityContext();
    ForceAuthentication(security, "alice", Some(""), ["Manager"]);
    var accounts := new AccountStore(map["alice" := Ok(alice)]);
    var holder := new AccountContextHolder();

    var outcome := ProcessAccountContext(holder, security, "session-1", accounts);
    assert outcome == Pass;
    assert holder.GetCurrentUserRoles() == ["Manager"];
    assert holder.current.account == alice;
    assert holder.current.username == Some("alice");
    assert holder.GetCurrentUsername() == "alice" by {
      assert !IsWhitespace("alice"[0]);
    }

    ResetContext(holder);
    ResetContext(holder);
    assert holder.GetCurrentUsername() == USER_SYSTEM;
    assert holder.GetCurrentUserRoles() == [];
  }
}
