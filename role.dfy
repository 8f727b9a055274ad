/** The persisted role entity (domain `Role`): an optional generated id and a name, with
    equality and hash code defined by the id alone. */
module Roles {
  import opened JavaLang

  datatype Role = Role(id: Option<Long>, roleName: Option<string>)

  /** The argument of `Role.equals(Object)`: null, a Role, or an instance of some other class. */
  datatype Obj = NullRef | RoleObj(role: Role) | OtherObj

  /** `Role.equals`, without the diagnostic print it makes on a match. The first disjunct is the
      identity shortcut: an identical object has, in particular, the same field values. */
  predicate Equals(self: Role, obj: Obj)
    ensures obj == NullRef || obj == OtherObj ==> !Equals(self, obj)
    ensures Equals(self, obj) ==> obj.RoleObj? && obj.role.id == self.id
  {
    obj == RoleObj(self)
    || (obj.RoleObj? &&
        match self.id
        case None => obj.role.id.None?
        case Some(mine) => obj.role.id.Some? && mine == obj.role.id.value)
  }

  /** Two Roles are equal exactly when their ids are: both null, or both present with one value. */
  lemma EqualsIffSameId(a: Role, b: Role)
    ensures Equals(a, RoleObj(b)) <==> a.id == b.id
  {
  }

  lemma EqualsIsEquivalence(a: Role, b: Role, c: Role)
    ensures Equals(a, RoleObj(a))
    ensures Equals(a, RoleObj(b)) <==> Equals(b, RoleObj(a))
    ensures Equals(a, RoleObj(b)) && Equals(b, RoleObj(c)) ==> Equals(a, RoleObj(c))
  {
    EqualsIffSameId(a, b);
    EqualsIffSameId(b, a);
    EqualsIffSameId(b, c);
    EqualsIffSameId(a, c);
  }

  /** A value modulo 2^32 read as a Java `int`, the way `int` arithmetic wraps around. */
  function WrapInt(n: int): (v: int)
    ensures -0x8000_0000 <= v < 0x8000_0000
    ensures (v - n) % 0x1_0000_0000 == 0
  {
    var low := n % 0x1_0000_0000;
    if low < 0x8000_0000 then low else low - 0x1_0000_0000
  }

  /** `Long.hashCode`: the two 32-bit halves combined by exclusive or, as an unsigned bit pattern. */
  function LongHash(value: Long): (h: nat)
    ensures h < 0x1_0000_0000
  {
    ((value ^ (value >> 32)) & 0xFFFF_FFFF) as nat
  }

  /** `Role.hashCode`: `31 * 1 + (id == null ? 0 : id.hashCode())` in wrapping 32-bit arithmetic. */
  function HashCode(role: Role): (h: int)
    ensures -0x8000_0000 <= h < 0x8000_0000
    ensures role.id.None? ==> h == 31
  {
    var idHash := match role.id case None => 0 case Some(value) => LongHash(value);
    WrapInt(31 * 1 + idHash)
  }

  /** Equal Roles have equal hash codes. */
  lemma EqualRolesHashAlike(a: Role, b: Role)
    requires Equals(a, RoleObj(b))
    ensures HashCode(a) == HashCode(b)
  {
  }

  /** `Role.toString`: the role name (or "null") followed by a comma. */
  function ToString(role: Role): (s: string)
    ensures |s| >= 1 && s[|s| - 1] == ','
    ensures s[..|s| - 1] == StringOf(role.roleName)
  {
    StringOf(role.roleName) + ","
  }
}
