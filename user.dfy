/** The account entity (domain `User`). Its role list holds `javax.management.relation.Role`
    objects (that is the `Role` the class imports), which have a name and no `equals` of their
    own: list membership and removal compare them by reference. */
module Users {
  import opened JavaLang

  /** A role of the user's list: a name, compared by reference. */
  class RelationRole {
    const roleName: string

    constructor (roleName: string)
      ensures this.roleName == roleName
    {
      this.roleName := roleName;
    }
  }

  /** The names of a role list, one per role and in the same order. */
  function RoleNamesOf(roles: seq<RelationRole>): (names: seq<string>)
    ensures |names| == |roles|
    ensures forall i :: 0 <= i < |roles| ==> names[i] == roles[i].roleName
  {
    if roles == [] then [] else [roles[0].roleName] + RoleNamesOf(roles[1..])
  }

  /** The position of the first element of `roles` identical to `role`, or `|roles|` if none is. */
  function FirstIndex(roles: seq<RelationRole>, role: RelationRole?): (k: nat)
    ensures k <= |roles|
    ensures k < |roles| ==> roles[k] == role
    ensures forall j :: 0 <= j < k ==> roles[j] != role
  {
    if roles == [] then 0
    else if roles[0] == role then 0
    else 1 + FirstIndex(roles[1..], role)
  }

  /** `List.remove(Object)`: drops the first identical element, keeping the others in order. */
  function RemoveFirst(roles: seq<RelationRole>, role: RelationRole?): (rest: seq<RelationRole>)
    ensures role !in roles ==> rest == roles
    ensures role in roles ==>
      var k := FirstIndex(roles, role);
      rest == roles[..k] + roles[k + 1..] && |rest| == |roles| - 1
  {
    var k := FirstIndex(roles, role);
    if k < |roles| then roles[..k] + roles[k + 1..] else roles
  }

  /** Removing one occurrence lowers that role's count by one and keeps every other role. */
  lemma RemoveFirstIsMultisetDifference(roles: seq<RelationRole>, role: RelationRole)
    ensures multiset(RemoveFirst(roles, role)) == multiset(roles) - multiset{role}
  {
    if role in roles {
      var k := FirstIndex(roles, role);
      assert roles == roles[..k] + [roles[k]] + roles[k + 1..];
    }
  }

  /** Why the persistence lookup `getSingleResult` failed. */
  datatype LookupError = NoResult | NonUniqueResult | DataAccessFailure

  /** The account store as the named query User.FIND_BY_USERNAME sees it: what `getSingleResult`
      answers for each username. A username it has no answer for finds no result. */
  class AccountStore {
    const answers: map<string, Result<User?, LookupError>>

    constructor (answers: map<string, Result<User?, LookupError>>)
      ensures this.answers == answers
    {
      this.answers := answers;
    }

    function ObtainAccount(username: string): Result<User?, LookupError>
    {
      if username in answers then answers[username] else Err(NoResult)
    }
  }

  class User {
    /** Generated by the persistence layer when the account is stored; null for a new entity. */
    const id: Option<Long>
    const password: Option<string>
    const username: Option<string>
    var roles: seq<RelationRole>

    /** Note the argument order: the password comes first. A new entity has no id yet. */
    constructor (password: Option<string>, userName: Option<string>)
      ensures id == None && this.password == password && username == userName
      ensures roles == []
    {
      id := None;
      this.password := password;
      username := userName;
      roles := [];
    }

    /** An account as the persistence layer materialises it, with its generated id and loaded
        roles; the application itself never calls this. */
    constructor Loaded(id: Long, password: Option<string>, userName: Option<string>, roles: seq<RelationRole>)
      ensures this.id == Some(id) && this.password == password && username == userName
      ensures this.roles == roles
    {
      this.id := Some(id);
      this.password := password;
      username := userName;
      this.roles := roles;
    }

    method GetRoleNames() returns (names: seq<string>)
      ensures names == RoleNamesOf(roles)
      ensures |names| == |roles|
      ensures forall i :: 0 <= i < |roles| ==> names[i] == roles[i].roleName
    {
      names := [];
      var i := 0;
      while i < |roles|
        invariant 0 <= i <= |roles|
        invariant |names| == i
        invariant forall j :: 0 <= j < i ==> names[j] == roles[j].roleName
      {
        names := names + [roles[i].roleName];
        i := i + 1;
      }
    }

    method AddRole(role: RelationRole) returns (added: bool)
      modifies this`roles
      ensures added
      ensures roles == old(roles) + [role]
    {
      roles := roles + [role];
      added := true;
    }

    method RemoveRole(role: RelationRole?) returns (removed: bool)
      modifies this`roles
      ensures removed <==> role in old(roles)
      ensures roles == RemoveFirst(old(roles), role)
    {
      removed := role in roles;
      roles := RemoveFirst(roles, role);
    }

    /** The role list is never null here, so this is plain membership by reference. */
    predicate ContainsRole(role: RelationRole?)
      reads this
      ensures ContainsRole(role) <==> FirstIndex(roles, role) < |roles|
    {
      role in roles
    }
  }
}
