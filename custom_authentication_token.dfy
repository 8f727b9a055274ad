/** The authentication token built after a Windows login (`CustomAuthenticationToken`): it strips
    the domain prefix from the Windows principal name, loads the account's roles as authorities,
    and holds Spring user details for the result. It cannot be marked unauthenticated. */
module CustomAuthenticationTokens {
  import opened JavaLang
  import opened Users
  import opened SpringSecurityContext

  /** The domain name whose length, plus one for the separator, is cut from principal names. */
  const LDAP_DOMAIN: string := "LDAP_DOMAIN"

  /** The Windows principal handed over by the Windows login; only its name is used. */
  datatype WindowsPrincipal = WindowsPrincipal(name: string)

  datatype TokenError =
    | StringIndexOutOfBounds
    | UsernameNotFound(message: string)
    | NullPointer
    | IllegalArgument

  /** `name.substring(LDAP_DOMAIN.length() + 1)`: the username after a 12-character prefix, or an
      index error for a shorter name. */
  function StripDomain(name: string): (r: Result<string, TokenError>)
    ensures r.Ok? <==> |name| >= 12
    ensures r.Err? ==> r.error == StringIndexOutOfBounds
    ensures r.Ok? ==> exists prefix :: |prefix| == 12 && name == prefix + r.value
  {
    assert |LDAP_DOMAIN| + 1 == 12;
    if |name| < |LDAP_DOMAIN| + 1 then Err(StringIndexOutOfBounds)
    else
      assert name == name[..12] + name[12..];
      Ok(name[|LDAP_DOMAIN| + 1..])
  }

  /** Looks the account up and converts its role names to authorities. Every lookup failure
      becomes UsernameNotFound; an account the store answers as null fails on its first use. */
  method LoadAuthorities(username: string, accounts: AccountStore) returns (r: Result<seq<GrantedAuthority>, TokenError>)
    ensures accounts.ObtainAccount(username).Err? ==>
      r == Err(UsernameNotFound("A unique account " + username + " could not be found"))
    ensures accounts.ObtainAccount(username) == Ok(null) ==> r == Err(NullPointer)
    ensures r.Ok? <==> accounts.ObtainAccount(username).Ok? && accounts.ObtainAccount(username).value != null
    ensures r.Ok? ==> AuthorityNames(r.value) == RoleNamesOf(accounts.ObtainAccount(username).value.roles)
  {
    var lookup := accounts.ObtainAccount(username);
    if lookup.Err? {
      return Err(UsernameNotFound("A unique account " + username + " could not be found"));
    }
    var account := lookup.value;
    if account == null {
      return Err(NullPointer);
    }
    var roles := account.GetRoleNames();
    var grantedAuthorities := ToGrantedAuthorities(roles);
    r := Ok(grantedAuthorities);
  }

  class CustomAuthenticationToken {
    const windowsPrincipal: WindowsPrincipal
    const principal: Option<UserDetails>
    const authorities: Option<seq<GrantedAuthority>>

    /** The field assignments that end a successful construction. */
    constructor Init(windowsPrincipal: WindowsPrincipal, username: string, authorities: seq<GrantedAuthority>)
      ensures this.windowsPrincipal == windowsPrincipal
      ensures principal == Some(UserDetails(username, Some(""), true, true, true, true, authorities))
      ensures this.authorities == Some(authorities)
    {
      this.windowsPrincipal := windowsPrincipal;
      this.authorities := Some(authorities);
      principal := Some(UserDetails(username, Some(""), true, true, true, true, authorities));
    }

    /** The Java constructor: derives the username, loads the authorities, and builds the
        principal; it fails when the name is too short or the account lookup fails. */
    static method Create(windowsPrincipal: WindowsPrincipal, accounts: AccountStore)
      returns (r: Result<CustomAuthenticationToken, TokenError>)
      ensures StripDomain(windowsPrincipal.name).Err? ==> r == Err(StringIndexOutOfBounds)
      ensures StripDomain(windowsPrincipal.name).Ok? ==>
        var found := accounts.ObtainAccount(StripDomain(windowsPrincipal.name).value);
        (found.Err? ==> r.Err? && r.error.UsernameNotFound?)
        && (found == Ok(null) ==> r == Err(NullPointer))
        && (found.Ok? && found.value != null <==> r.Ok?)
      ensures r.Ok? ==>
        && r.value.IsAuthenticated()
        && StripDomain(windowsPrincipal.name).Ok?
        && r.value.GetName() == StripDomain(windowsPrincipal.name).value
        && r.value.GetCredentials() == None
        && r.value.GetDetails() == windowsPrincipal
        && r.value.GetAuthorities().Some?
        && AuthorityNames(r.value.GetAuthorities().value)
           == RoleNamesOf(accounts.ObtainAccount(r.value.GetName()).value.roles)
    {
      var username := StripDomain(windowsPrincipal.name);
      if username.Err? {
        return Err(username.error);
      }
      var loaded := LoadAuthorities(username.value, accounts);
      if loaded.Err? {
        return Err(loaded.error);
      }
      var token := new CustomAuthenticationToken.Init(windowsPrincipal, username.value, loaded.value);
      r := Ok(token);
    }

    function GetAuthorities(): Option<seq<GrantedAuthority>>
    {
      authorities
    }

    /** No credentials are kept. */
    function GetCredentials(): Option<string>
    {
      None
    }

    function GetDetails(): WindowsPrincipal
    {
      windowsPrincipal
    }

    function GetPrincipal(): Option<UserDetails>
    {
      principal
    }

    predicate IsAuthenticated()
    {
      principal.Some?
    }

    /** Always refused; the token stays as it is. */
    method SetAuthenticated(authenticated: bool) returns (r: Outcome<TokenError>)
      ensures r == Fail(IllegalArgument)
    {
      r := Fail(IllegalArgument);
    }

    function GetName(): string
      requires principal.Some?
    {
      principal.value.username
    }
  }
}
