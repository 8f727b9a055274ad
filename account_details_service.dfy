/** Spring's user-details service over the account store (`AccountDetailsServiceImpl`): validates
    the login, looks the account up, and builds Spring user details whose authorities and password
    come from overridable hooks, falling back to the account's own. */
module AccountDetailsService {
  import opened JavaLang
  import opened Users
  import opened SpringSecurityContext

  datatype DetailsError =
    | UsernameNotFound(message: string)
    | LookupFailed(cause: LookupError)

  /** The three protected hooks a subclass may override; the account hook is a store's answers. */
  datatype Hooks = Hooks(
    accounts: AccountStore,
    obtainGrantedAuthorities: string -> Option<seq<GrantedAuthority>>,
    obtainPassword: string -> Option<string>)

  /** The service as shipped: accounts come from the store, and the other two hooks return null. */
  function DefaultHooks(accounts: AccountStore): (hooks: Hooks)
    ensures hooks.accounts == accounts
    ensures forall login :: hooks.obtainGrantedAuthorities(login) == None
    ensures forall login :: hooks.obtainPassword(login) == None
  {
    Hooks(accounts, _ => None, _ => None)
  }

  /** The account the lookup finds for `login`, or null when there is no login, the lookup fails
      or it finds nothing. */
  function FoundAccount(login: Option<string>, hooks: Hooks): User?
  {
    match login
    case None => null
    case Some(name) =>
      match hooks.accounts.ObtainAccount(name)
      case Ok(account) => account
      case Err(_) => null
  }

  /** Validates the login, looks the account up, and builds the user details: authorities and
      password come from their hooks when those return something, and from the account otherwise. */
  function LoadUserByUsername(login: Option<string>, hooks: Hooks): (r: Result<UserDetails, DetailsError>)
    reads FoundAccount(login, hooks)
    ensures login.None? || Trim(login.value) == [] ==> r == Err(UsernameNotFound("Empty login"))
    ensures login.Some? && Trim(login.value) != [] ==>
      match hooks.accounts.ObtainAccount(login.value)
      case Err(e) => r == Err(LookupFailed(e))
      case Ok(account) =>
        (account == null <==> r == Err(UsernameNotFound("account " + login.value + " could not be found")))
        && (account != null <==> r.Ok?)
    ensures r.Ok? ==>
      && login == Some(r.value.username) && Trim(login.value) != []
      && FoundAccount(login, hooks) != null
      && r.value.enabled && r.value.accountNonExpired && r.value.credentialsNonExpired && r.value.accountNonLocked
    ensures r.Ok? ==>
      match hooks.obtainGrantedAuthorities(login.value)
      case Some(authorities) => r.value.authorities == authorities
      case None => AuthorityNames(r.value.authorities) == RoleNamesOf(FoundAccount(login, hooks).roles)
    ensures r.Ok? ==>
      match hooks.obtainPassword(login.value)
      case Some(password) => r.value.password == Some(password)
      case None => r.value.password == FoundAccount(login, hooks).password
  {
    if login.None? || Trim(login.value) == [] then
      Err(UsernameNotFound("Empty login"))
    else
      var name := login.value;
      match hooks.accounts.ObtainAccount(name)
      case Err(e) => Err(LookupFailed(e))
      case Ok(account) =>
        if account == null then
          Err(UsernameNotFound("account " + name + " could not be found"))
        else
          var hookAuthorities := hooks.obtainGrantedAuthorities(name);
          var grantedAuthorities :=
            if hookAuthorities.Some? then hookAuthorities.value else Authorities(RoleNamesOf(account.roles));
          var hookPassword := hooks.obtainPassword(name);
          var password := if hookPassword.Some? then hookPassword else account.password;
          NamesOfAuthorities(RoleNamesOf(account.roles));
          Ok(UserDetails(name, password, true, true, true, true, grantedAuthorities))
  }

  /** With the hooks as shipped, a user-details result carries the found account's role names, in
      order, as its authorities, and the account's own password. */
  lemma DefaultHooksUseTheAccount(login: Option<string>, accounts: AccountStore)
    ensures var r := LoadUserByUsername(login, DefaultHooks(accounts));
      r.Ok? ==>
        && login.Some?
        && accounts.ObtainAccount(login.value).Ok?
        && var account := accounts.ObtainAccount(login.value).value;
           && account != null
           && AuthorityNames(r.value.authorities) == RoleNamesOf(account.roles)
           && r.value.password == account.password
  {
  }
}
