/** The per-request account context (`AccountContext`): a session id, a username, role names and
    an account, bound to the current request through a holder cell, and the role and identity
    queries answered from it. The holder is one sequential cell; its inheritance by spawned
    threads is not modelled. */
module AccountContexts {
  import opened JavaLang
  import opened Users

  /** The username reported when no bound context carries one. */
  const USER_SYSTEM: string := "system!"

  // ---------------------------------------------------------------------------------------------
  // Role queries over a list of role names, as the loops of hasRole and its relatives decide them.

  /** Some role of `roles` equals `roleName` ignoring case; never for a null `roleName`. */
  predicate RoleIn(roles: seq<string>, roleName: Option<string>)
  {
    exists i :: 0 <= i < |roles| && EqualsIgnoreCase(roles[i], roleName)
  }

  /** Every name of `roleNames` is a role of `roles`. */
  predicate AllRolesIn(roles: seq<string>, roleNames: seq<Option<string>>)
  {
    forall i :: 0 <= i < |roleNames| ==> RoleIn(roles, roleNames[i])
  }

  /** Some name of `roleNames` is a role of `roles`. */
  predicate AnyRoleIn(roles: seq<string>, roleNames: seq<Option<string>>)
  {
    exists i :: 0 <= i < |roleNames| && RoleIn(roles, roleNames[i])
  }

  /** Role membership does not depend on the case of the name asked for. */
  lemma RoleInIgnoresCase(roles: seq<string>, a: string, b: string)
    requires SameIgnoringCase(a, b)
    ensures RoleIn(roles, Some(a)) <==> RoleIn(roles, Some(b))
  {
    if RoleIn(roles, Some(a)) {
      var i :| 0 <= i < |roles| && EqualsIgnoreCase(roles[i], Some(a));
      SameIgnoringCaseIsEquivalence(roles[i], a, b);
      assert EqualsIgnoreCase(roles[i], Some(b));
    }
    if RoleIn(roles, Some(b)) {
      var i :| 0 <= i < |roles| && EqualsIgnoreCase(roles[i], Some(b));
      SameIgnoringCaseIsEquivalence(b, a, a);
      SameIgnoringCaseIsEquivalence(roles[i], b, a);
      assert EqualsIgnoreCase(roles[i], Some(a));
    }
  }

  /** With roles Admin and User: "admin" is held, one of Guest and "user" is held, and not both of
      Admin and Guest are held. */
  lemma MixedCaseRoleQueries()
    ensures RoleIn(["Admin", "User"], Some("admin"))
    ensures AnyRoleIn(["Admin", "User"], [Some("Guest"), Some("user")])
    ensures !AllRolesIn(["Admin", "User"], [Some("Admin"), Some("Guest")])
  {
    var roles := ["Admin", "User"];
    assert EqualsIgnoreCase(roles[0], Some("admin"));
    assert EqualsIgnoreCase(roles[1], Some("user"));
    assert RoleIn(roles, [Some("Guest"), Some("user")][1]);
    assert !EqualsIgnoreCase(roles[0], Some("Guest")) by {
      assert ToLowerAscii(roles[0][0]) != ToLowerAscii("Guest"[0]);
    }
    assert !EqualsIgnoreCase(roles[1], Some("Guest")) by {
      assert |roles[1]| != |"Guest"|;
    }
    assert !RoleIn(roles, [Some("Admin"), Some("Guest")][1]);
  }

  /** Whether two account references denote the same persisted account: both present, and with
      equal ids that are not null. */
  predicate SameAccount(a: User?, b: User?)
  {
    a != null && b != null && a.id.Some? && a.id == b.id
  }

  lemma SameAccountIsSymmetric(a: User?, b: User?)
    ensures SameAccount(a, b) <==> SameAccount(b, a)
  {
  }

  class AccountContext {
    var sessionId: Option<string>
    var username: Option<string>
    var roles: Option<seq<string>>
    var account: User?

    constructor ()
      ensures sessionId == None && username == None && roles == None && account == null
    {
      sessionId, username, roles, account := None, None, None, null;
    }

    method SetSessionId(sessionId: Option<string>)
      modifies this`sessionId
      ensures this.sessionId == sessionId
    {
      this.sessionId := sessionId;
    }

    function GetSessionId(): Option<string>
      reads this
    {
      sessionId
    }

    method SetUsername(username: Option<string>)
      modifies this`username
      ensures this.username == username
    {
      this.username := username;
    }

    function GetUsername(): Option<string>
      reads this
    {
      username
    }

    method SetRoles(roles: Option<seq<string>>)
      modifies this`roles
      ensures this.roles == roles
    {
      this.roles := roles;
    }

    /** The stored role list, or an empty one when none is set; never null. */
    function GetRoleNames(): (names: seq<string>)
      reads this
      ensures roles.Some? ==> names == roles.value
      ensures roles.None? ==> names == []
    {
      match roles
      case Some(list) => list
      case None => []
    }

    method SetAccount(account: User?)
      modifies this`account
      ensures this.account == account
    {
      this.account := account;
    }

    function GetAccount(): User?
      reads this
    {
      account
    }

    method HasRole(roleName: Option<string>) returns (found: bool)
      ensures found <==> RoleIn(GetRoleNames(), roleName)
      ensures roleName.None? || GetRoleNames() == [] ==> !found
    {
      var names := GetRoleNames();
      for i := 0 to |names|
        invariant forall j :: 0 <= j < i ==> !EqualsIgnoreCase(names[j], roleName)
      {
        if EqualsIgnoreCase(names[i], roleName) {
          return true;
        }
      }
      return false;
    }

    method HasAllRoles(roleNames: seq<Option<string>>) returns (all: bool)
      ensures all <==> AllRolesIn(GetRoleNames(), roleNames)
      ensures roleNames == [] ==> all
    {
      for i := 0 to |roleNames|
        invariant AllRolesIn(GetRoleNames(), roleNames[..i])
      {
        var held := HasRole(roleNames[i]);
        if !held {
          return false;
        }
        assert roleNames[..i + 1] == roleNames[..i] + [roleNames[i]];
      }
      assert roleNames[..|roleNames|] == roleNames;
      return true;
    }

    method HasAnyRole(roleNames: seq<Option<string>>) returns (any: bool)
      ensures any <==> AnyRoleIn(GetRoleNames(), roleNames)
      ensures roleNames == [] ==> !any
    {
      for i := 0 to |roleNames|
        invariant !AnyRoleIn(GetRoleNames(), roleNames[..i])
      {
        var held := HasRole(roleNames[i]);
        if held {
          assert roleNames[i] == roleNames[..i + 1][i];
          return true;
        }
        assert roleNames[..i + 1] == roleNames[..i] + [roleNames[i]];
      }
      assert roleNames[..|roleNames|] == roleNames;
      return false;
    }

    /** Always the negation of HasAnyRole on the same names. */
    method HasNoRole(roleNames: seq<Option<string>>) returns (none: bool)
      ensures none <==> !AnyRoleIn(GetRoleNames(), roleNames)
      ensures roleNames == [] ==> none
    {
      for i := 0 to |roleNames|
        invariant !AnyRoleIn(GetRoleNames(), roleNames[..i])
      {
        var held := HasRole(roleNames[i]);
        if held {
          assert roleNames[i] == roleNames[..i + 1][i];
          return false;
        }
        assert roleNames[..i + 1] == roleNames[..i] + [roleNames[i]];
      }
      assert roleNames[..|roleNames|] == roleNames;
      return true;
    }

    /** Whether `accountToCheck` is the bound account: compared by id, and never when the bound
        account, its id or the candidate is null, or when the candidate's id is null. */
    predicate IsAccount(accountToCheck: User?)
      reads this
      ensures IsAccount(accountToCheck) <==> SameAccount(account, accountToCheck)
      ensures IsAccount(accountToCheck) ==> accountToCheck != null && accountToCheck.id.Some?
    {
      if account != null && account.id != None && accountToCheck != null then
        account.id == accountToCheck.id
      else
        false
    }
  }

  /** The holder cell binding at most one account context to the current request. */
  class AccountContextHolder {
    var current: AccountContext?

    constructor ()
      ensures current == null
    {
      current := null;
    }

    /** Binds `accountContext`, replacing the previous binding; null unbinds. */
    method SetAccountContext(accountContext: AccountContext?)
      modifies this
      ensures current == accountContext
    {
      current := accountContext;
    }

    function GetAccountContext(): AccountContext?
      reads this
    {
      current
    }

    method ResetAccountContext()
      modifies this
      ensures current == null
    {
      current := null;
    }

    /** The bound username when it has text, and "system!" otherwise, also when nothing is bound;
        the result always has text. */
    function GetCurrentUsername(): (name: string)
      reads this, current
      ensures HasText(Some(name))
      ensures current != null && HasText(current.username) ==> Some(name) == current.username
      ensures current == null || !HasText(current.username) ==> name == USER_SYSTEM
    {
      var bound := if current != null then current.GetUsername() else None;
      if HasText(bound) then bound.value
      else assert !IsWhitespace(USER_SYSTEM[0]); USER_SYSTEM
    }

    /** The bound context's role names, or an empty list when nothing is bound; never null. */
    function GetCurrentUserRoles(): (roles: seq<string>)
      reads this, current
      ensures current == null ==> roles == []
      ensures current != null ==> roles == current.GetRoleNames()
    {
      if current != null then current.GetRoleNames() else []
    }
  }

  /** Two separately loaded copies of one stored account are the same account to `isAccount`;
      a new, unsaved account is not, even against itself. */
  method IdentityByIdScenario() {
    var first := new User.Loaded(7, Some("secret"), Some("alice"), []);
    var second := new User.Loaded(7, None, Some("alice"), []);
    var unsaved := new User(Some("secret"), Some("alice"));
    var context := new AccountContext();
    context.SetAccount(first);
    assert context.IsAccount(second);
    assert !context.IsAccount(unsaved);
    context.SetAccount(unsaved);
    assert !context.IsAccount(unsaved);
    assert !context.IsAccount(first);
  }
}
