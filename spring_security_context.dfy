/** Spring Security's view of the current user (`SpringSecurityContext`): conversions between role
    names and granted authorities, reads of the ambient authentication, and forced authentication.
    The ambient `SecurityContextHolder` storage is one cell holding an optional authentication. */
module SpringSecurityContext {
  import opened JavaLang
  import opened Users

  datatype GrantedAuthority = GrantedAuthority(authority: string)

  /** Spring's `userdetails.User`: a username, a password, four status flags and authorities. */
  datatype UserDetails = UserDetails(
    username: string,
    password: Option<string>,
    enabled: bool,
    accountNonExpired: bool,
    credentialsNonExpired: bool,
    accountNonLocked: bool,
    authorities: seq<GrantedAuthority>)

  /** What `Authentication.getPrincipal()` holds: Spring user details, a domain account, or some
      other object; `shown` is the principal's `toString()`. */
  datatype Principal =
    | DetailsPrincipal(details: UserDetails)
    | AccountPrincipal(account: User, shown: string)
    | OtherPrincipal(shown: string)

  datatype Authentication = Authentication(
    principal: Principal,
    credentials: Option<string>,
    authorities: seq<GrantedAuthority>)

  /** The ambient security context of the current request. */
  class SecurityContext {
    var authentication: Option<Authentication>

    constructor ()
      ensures authentication == None
    {
      authentication := None;
    }
  }

  /** One authority per role name, in order. */
  function Authorities(roles: seq<string>): (authorities: seq<GrantedAuthority>)
    ensures |authorities| == |roles|
    ensures forall i :: 0 <= i < |roles| ==> authorities[i].authority == roles[i]
  {
    if roles == [] then [] else [GrantedAuthority(roles[0])] + Authorities(roles[1..])
  }

  /** The name of each authority, in order. */
  function AuthorityNames(authorities: seq<GrantedAuthority>): (names: seq<string>)
    ensures |names| == |authorities|
    ensures forall i :: 0 <= i < |authorities| ==> names[i] == authorities[i].authority
  {
    if authorities == [] then [] else [authorities[0].authority] + AuthorityNames(authorities[1..])
  }

  lemma {:induction false} NamesOfAuthorities(roles: seq<string>)
    ensures AuthorityNames(Authorities(roles)) == roles
  {
    if roles != [] {
      NamesOfAuthorities(roles[1..]);
    }
  }

  lemma {:induction false} AuthoritiesOfNames(authorities: seq<GrantedAuthority>)
    ensures Authorities(AuthorityNames(authorities)) == authorities
  {
    if authorities != [] {
      AuthoritiesOfNames(authorities[1..]);
    }
  }

  method ToGrantedAuthorities(roles: seq<string>) returns (result: seq<GrantedAuthority>)
    ensures result == Authorities(roles)
    ensures AuthorityNames(result) == roles
  {
    result := [];
    for i := 0 to |roles|
      invariant |result| == i
      invariant forall j :: 0 <= j < i ==> result[j] == GrantedAuthority(roles[j])
    {
      result := result + [GrantedAuthority(roles[i])];
    }
    NamesOfAuthorities(roles);
  }

  method ToStringList(grantedAuthorities: seq<GrantedAuthority>) returns (result: seq<string>)
    ensures result == AuthorityNames(grantedAuthorities)
    ensures Authorities(result) == grantedAuthorities
  {
    result := [];
    for i := 0 to |grantedAuthorities|
      invariant |result| == i
      invariant forall j :: 0 <= j < i ==> result[j] == grantedAuthorities[j].authority
    {
      result := result + [grantedAuthorities[i].authority];
    }
    AuthoritiesOfNames(grantedAuthorities);
  }

  /** The user details of the current authentication, when its principal is one. */
  function GetUserDetails(security: SecurityContext): (details: Option<UserDetails>)
    reads security
    ensures details.Some? <==>
      security.authentication.Some? && security.authentication.value.principal.DetailsPrincipal?
    ensures details.Some? ==> details.value == security.authentication.value.principal.details
  {
    match security.authentication
    case Some(Authentication(DetailsPrincipal(details), _, _)) => Some(details)
    case _ => None
  }

  /** The current username: null without an authentication, the user details' username for a
      UserDetails principal, and the principal's string form otherwise. */
  function GetUsername(security: SecurityContext): (name: Option<string>)
    reads security
    ensures name.None? <==> security.authentication.None?
    ensures GetUserDetails(security).Some? ==> name == Some(GetUserDetails(security).value.username)
    ensures security.authentication.Some? && GetUserDetails(security).None? ==>
      name == Some(security.authentication.value.principal.shown)
  {
    match security.authentication
    case None => None
    case Some(auth) =>
      match auth.principal
      case DetailsPrincipal(details) => Some(details.username)
      case AccountPrincipal(_, shown) => Some(shown)
      case OtherPrincipal(shown) => Some(shown)
  }

  /** The names of the current authorities, in order; empty without an authentication. */
  function GetRoles(security: SecurityContext): (roles: seq<string>)
    reads security
    ensures security.authentication.None? ==> roles == []
    ensures security.authentication.Some? ==> Authorities(roles) == security.authentication.value.authorities
  {
    match security.authentication
    case None => []
    case Some(auth) => AuthoritiesOfNames(auth.authorities); AuthorityNames(auth.authorities)
  }

  /** Installs an authenticated Spring user with the given login, password and roles, replacing
      whatever authentication was there. */
  method ForceAuthentication(security: SecurityContext, login: string, password: Option<string>, grantedRoles: seq<string>)
    modifies security
    ensures security.authentication == Some(Authentication(
      DetailsPrincipal(UserDetails(login, password, true, true, true, true, Authorities(grantedRoles))),
      password,
      Authorities(grantedRoles)))
    ensures GetUserDetails(security).Some?
    ensures GetUsername(security) == Some(login)
    ensures GetRoles(security) == grantedRoles
  {
    var roles := ToGrantedAuthorities(grantedRoles);
    var enabled, accountNonExpired, credentialsNonExpired, accountNonLocked := true, true, true, true;
    var user := UserDetails(login, password, enabled, accountNonExpired, credentialsNonExpired, accountNonLocked, roles);
    security.authentication := Some(Authentication(DetailsPrincipal(user), password, roles));
  }
}
