# Account context and role checks of springsecurity-ad, in Dafny

This project models the request-scoped account context of the springsecurity-ad web application
and the pieces of Spring Security glue around it, and proves what they promise.

- **Account context** (`AccountContexts`): an `AccountContext` holds a session id, a username,
  role names and an account. An `AccountContextHolder` cell binds at most one context to the
  current request; binding replaces, resetting empties. The context answers `hasRole` (case
  insensitive), `hasAllRoles`, `hasAnyRole`, `hasNoRole` and `isAccount` (same id). The holder
  answers the current username, which falls back to `"system!"`, and the current roles, which are
  never null.
- **Spring bridge** (`SpringSecurityContext`): converts between role names and granted
  authorities, both ways and losslessly. It reads the username, user details and roles of the
  ambient authentication, a `SecurityContext` cell. `ForceAuthentication` overwrites that cell.
- **Lifecycle** (`AccountContextSupport`): binds a fresh context and fills it in. The session id
  comes from the request and the roles from Spring. When Spring holds user details, the account
  and its username come from the account store. A failing lookup is passed on to the caller.
- **Domain entities**: `User` (`Users`) keeps a list of role objects that it compares by
  reference. That is because `User.java` imports `javax.management.relation.Role`, not the
  domain `Role`. `Role` (`Roles`) has id-based equality and an id-based hash code, with Java's
  32-bit wrap-around written out.
- **Login services**: `loadUserByUsername` (`AccountDetailsService`) validates the login, looks
  the account up, and fills in authorities and password from hooks, falling back to the
  account's own. The Windows token (`CustomAuthenticationTokens`) cuts a 12-character domain
  prefix from the principal name and loads the account's roles. It cannot be marked
  unauthenticated.
- **Logout** (`LogoutFilters`): checks the principal and picks the redirect target.

Java `null` is `Option.None` or a nullable reference. A thrown exception is a `Result.Err` or
`Outcome.Fail`. Database lookups are an `AccountStore` holding the answer of the named query
`User.FIND_BY_USERNAME` for each username. `JavaLang` holds the library behaviour the code relies
on: `String.trim`, `StringUtils.hasText` with `Character.isWhitespace`, `equalsIgnoreCase`
(ASCII folding), `contains`, and the printing of `null` in a string concatenation.

Some behaviours of the source that are easy to miss, and that the model keeps:
- `processAccountContext` does not catch a failing account lookup
  (utils/AccountContextSupport.java:38). The failure reaches the caller, and the fresh context
  stays bound without an account.
- `getCurrentUsername` falls back to `"system!"` whenever the bound username has no
  non-whitespace character (`StringUtils.hasText`, domain/AccountContext.java:205). An empty
  username is only one such case.
- The context's roles always come from Spring's authentication
  (utils/AccountContextSupport.java:32), never from the stored account's roles.
- `Role.equals` treats two Roles whose ids are both null as equal (domain/Role.java:55-57).
- `toGrantedAuthorities` and `toStringList` copy names one for one, in order, and keep
  duplicates (spring/SpringSecurityContext.java:96-114).

## Model

| member | source | states |
|---|---|---|
| `AccountContexts.AccountContextHolder.constructor` | src/main/java/github/priyatam/springsecurity/domain/AccountContext.java:28 | a new holder has nothing bound |
| `AccountContexts.AccountContextHolder.SetAccountContext` | src/main/java/github/priyatam/springsecurity/domain/AccountContext.java:40-42 | afterwards exactly the given context (or nothing, for null) is bound, replacing the earlier one |
| `AccountContexts.AccountContextHolder.ResetAccountContext` | src/main/java/github/priyatam/springsecurity/domain/AccountContext.java:54-56 | afterwards nothing is bound |
| `AccountContexts.AccountContextHolder.GetCurrentUsername` | src/main/java/github/priyatam/springsecurity/domain/AccountContext.java:199-206 | the bound username when it has text, else "system!" (also when nothing is bound); the result always has text |
| `AccountContexts.AccountContextHolder.GetCurrentUserRoles` | src/main/java/github/priyatam/springsecurity/domain/AccountContext.java:208-215 | empty when nothing is bound, else the bound context's role names; never null |
| `AccountContexts.AccountContext.constructor` | src/main/java/github/priyatam/springsecurity/domain/AccountContext.java:30-33 | a new context has no session id, username, roles or account |
| `AccountContexts.AccountContext.SetSessionId` | src/main/java/github/priyatam/springsecurity/domain/AccountContext.java:58-60 | sets the session id and no other field |
| `AccountContexts.AccountContext.SetUsername` | src/main/java/github/priyatam/springsecurity/domain/AccountContext.java:72-74 | sets the username and no other field |
| `AccountContexts.AccountContext.SetRoles` | src/main/java/github/priyatam/springsecurity/domain/AccountContext.java:90-92 | sets the role list (null allowed) and no other field |
| `AccountContexts.AccountContext.SetAccount` | src/main/java/github/priyatam/springsecurity/domain/AccountContext.java:171-173 | sets the account and no other field |
| `AccountContexts.AccountContext.GetRoleNames` | src/main/java/github/priyatam/springsecurity/domain/AccountContext.java:99-105 | the stored list unchanged when one is set, the empty list otherwise (also after setting null) |
| `AccountContexts.AccountContext.HasRole` | src/main/java/github/priyatam/springsecurity/domain/AccountContext.java:112-121 | true iff some stored role equals the name ignoring case; false for a null name and for no roles |
| `AccountContexts.AccountContext.HasAllRoles` | src/main/java/github/priyatam/springsecurity/domain/AccountContext.java:128-136 | true iff every given name is held; true for no names |
| `AccountContexts.AccountContext.HasAnyRole` | src/main/java/github/priyatam/springsecurity/domain/AccountContext.java:143-151 | true iff some given name is held; false for no names |
| `AccountContexts.AccountContext.HasNoRole` | src/main/java/github/priyatam/springsecurity/domain/AccountContext.java:158-166 | exactly the negation of HasAnyRole on the same names; true for no names |
| `AccountContexts.AccountContext.IsAccount` | src/main/java/github/priyatam/springsecurity/domain/AccountContext.java:191-197 | true iff the bound account and the candidate are present and have the same non-null id; a candidate with a null id never matches |
| `AccountContexts.SameAccountIsSymmetric` | src/main/java/github/priyatam/springsecurity/domain/AccountContext.java:191-197 | the same-account relation behind isAccount does not depend on which side is bound |
| `AccountContexts.RoleInIgnoresCase` | src/main/java/github/priyatam/springsecurity/domain/AccountContext.java:112-121 | two names that differ only in letter case are held or not held together |
| `AccountContexts.MixedCaseRoleQueries` | src/main/java/github/priyatam/springsecurity/domain/AccountContext.java:112-166 | with roles Admin and User: "admin" is held, one of Guest and "user" is held, not both of Admin and Guest |
| `JavaLang.TrimLeading` | src/main/java/github/priyatam/springsecurity/spring/AccountDetailsServiceImpl.java:40 | the leading part removed by trim consists of code units not above a space, and what remains starts above a space |
| `JavaLang.TrimTrailing` | src/main/java/github/priyatam/springsecurity/spring/AccountDetailsServiceImpl.java:40 | the trailing part removed by trim consists of code units not above a space, and what remains ends above a space |
| `JavaLang.TrimEmptyIffBlank` | src/main/java/github/priyatam/springsecurity/spring/AccountDetailsServiceImpl.java:40 | a login trims to empty exactly when every code unit of it is at most U+0020 (a space or a C0 control character U+0000-U+001F); DEL and U+0080-U+009F are kept |
| `JavaLang.ToLowerAscii` | src/main/java/github/priyatam/springsecurity/domain/AccountContext.java:115 | upper-case ASCII letters fold to their lower-case letters, every other character is kept |
| `JavaLang.SameIgnoringCaseIsEquivalence` | src/main/java/github/priyatam/springsecurity/domain/AccountContext.java:115 | case-insensitive equality is reflexive, symmetric and transitive |
| `Roles.Equals` | src/main/java/github/priyatam/springsecurity/domain/Role.java:47-64 | never equal to null or to another class; equal Roles have the same id |
| `Roles.EqualsIffSameId` | src/main/java/github/priyatam/springsecurity/domain/Role.java:55-63 | two Roles are equal iff both ids are null or both are present with the same value |
| `Roles.EqualsIsEquivalence` | src/main/java/github/priyatam/springsecurity/domain/Role.java:47-64 | Role equality is reflexive, symmetric and transitive |
| `Roles.WrapInt` | src/main/java/github/priyatam/springsecurity/domain/Role.java:41-42 | int arithmetic wraps into the 32-bit signed range, congruent modulo 2^32 |
| `Roles.LongHash` | src/main/java/github/priyatam/springsecurity/domain/Role.java:42 | the hash of a Long is a 32-bit pattern |
| `Roles.HashCode` | src/main/java/github/priyatam/springsecurity/domain/Role.java:37-44 | a Java int; 31 for a null id |
| `Roles.EqualRolesHashAlike` | src/main/java/github/priyatam/springsecurity/domain/Role.java:37-64 | equal Roles have equal hash codes |
| `Roles.ToString` | src/main/java/github/priyatam/springsecurity/domain/Role.java:31-35 | the role name (or "null") followed by one comma |
| `Users.RelationRole.constructor` | src/main/java/github/priyatam/springsecurity/domain/User.java:3 | a role object carries the given name |
| `Users.RoleNamesOf` | src/main/java/github/priyatam/springsecurity/domain/User.java:56-64 | one name per role, same length and order, entry i the name of role i |
| `Users.FirstIndex` | src/main/java/github/priyatam/springsecurity/domain/User.java:70-80 | the first position holding the very same role object, or the length when there is none |
| `Users.RemoveFirst` | src/main/java/github/priyatam/springsecurity/domain/User.java:70-72 | without the role the list is unchanged; otherwise only its first occurrence is dropped, the rest keeping their order |
| `Users.RemoveFirstIsMultisetDifference` | src/main/java/github/priyatam/springsecurity/domain/User.java:70-72 | removal lowers the removed role's count by one and keeps every other role |
| `Users.AccountStore.constructor` | src/main/java/github/priyatam/springsecurity/domain/User.java:10-13 | the store gives the stated answer for each username |
| `Users.User.constructor` | src/main/java/github/priyatam/springsecurity/domain/User.java:27-33 | password from the first argument, username from the second, no id, empty role list |
| `Users.User.Loaded` | src/main/java/github/priyatam/springsecurity/domain/User.java:17-27 | an account as the persistence layer returns it: the stored id, password and username, and its role list |
| `Users.User.GetRoleNames` | src/main/java/github/priyatam/springsecurity/domain/User.java:56-64 | same length and order as the role list, entry i the name of role i; the list is left as it was |
| `Users.User.AddRole` | src/main/java/github/priyatam/springsecurity/domain/User.java:66-68 | appends the role at the end, keeps the others, returns true |
| `Users.User.RemoveRole` | src/main/java/github/priyatam/springsecurity/domain/User.java:70-72 | removes only the first identical occurrence, keeps the order, returns whether one was there |
| `Users.User.ContainsRole` | src/main/java/github/priyatam/springsecurity/domain/User.java:78-80 | true iff the very same role object is in the list |
| `SpringSecurityContext.SecurityContext.constructor` | src/main/java/github/priyatam/springsecurity/spring/SpringSecurityContext.java:31 | a new security context holds no authentication |
| `SpringSecurityContext.Authorities` | src/main/java/github/priyatam/springsecurity/spring/SpringSecurityContext.java:96-104 | one authority per role name, same length and order |
| `SpringSecurityContext.AuthorityNames` | src/main/java/github/priyatam/springsecurity/spring/SpringSecurityContext.java:106-114 | one name per authority, same length and order |
| `SpringSecurityContext.NamesOfAuthorities` | src/main/java/github/priyatam/springsecurity/spring/SpringSecurityContext.java:96-114 | converting names to authorities and back gives the same names |
| `SpringSecurityContext.AuthoritiesOfNames` | src/main/java/github/priyatam/springsecurity/spring/SpringSecurityContext.java:96-114 | converting authorities to names and back gives the same authorities |
| `SpringSecurityContext.ToGrantedAuthorities` | src/main/java/github/priyatam/springsecurity/spring/SpringSecurityContext.java:96-104 | the loop builds one authority per name in order, and its names read back as the input |
| `SpringSecurityContext.ToStringList` | src/main/java/github/priyatam/springsecurity/spring/SpringSecurityContext.java:106-114 | the loop builds one name per authority in order, and converting back gives the input |
| `SpringSecurityContext.GetUserDetails` | src/main/java/github/priyatam/springsecurity/spring/SpringSecurityContext.java:49-57 | the principal exactly when an authentication exists and its principal is user details; null otherwise |
| `SpringSecurityContext.GetUsername` | src/main/java/github/priyatam/springsecurity/spring/SpringSecurityContext.java:30-44 | null iff no authentication; the user details' username for such a principal; the principal's string form otherwise |
| `SpringSecurityContext.GetRoles` | src/main/java/github/priyatam/springsecurity/spring/SpringSecurityContext.java:62-70 | empty without an authentication; otherwise names that convert back to exactly its authorities |
| `SpringSecurityContext.ForceAuthentication` | src/main/java/github/priyatam/springsecurity/spring/SpringSecurityContext.java:81-94 | replaces the authentication; afterwards user details exist, the username is the login and the roles are the given ones |
| `AccountContextSupport.ProcessAccountContext` | src/main/java/github/priyatam/springsecurity/utils/AccountContextSupport.java:27-48 | binds a fresh context with the session id and Spring's roles; without user details no account or username; a found account and its username are recorded, a null answer leaves them unset, a failed lookup is passed on |
| `AccountContextSupport.ResetContext` | src/main/java/github/priyatam/springsecurity/utils/AccountContextSupport.java:53-55 | afterwards nothing is bound |
| `AccountDetailsService.DefaultHooks` | src/main/java/github/priyatam/springsecurity/spring/AccountDetailsServiceImpl.java:79-97 | the shipped hooks: accounts from the store, authorities and password hooks always null |
| `AccountDetailsService.LoadUserByUsername` | src/main/java/github/priyatam/springsecurity/spring/AccountDetailsServiceImpl.java:39-72 | a null or blank login is rejected; a failed lookup propagates; a null account is rejected; otherwise the user details carry the untrimmed login, all four flags true, the hook's authorities or else the account's role names in order, the hook's password or else the account's |
| `AccountDetailsService.DefaultHooksUseTheAccount` | src/main/java/github/priyatam/springsecurity/spring/AccountDetailsServiceImpl.java:53-63 | with the hooks as shipped, a successful result has the found account's role names as authorities and the account's password |
| `CustomAuthenticationTokens.StripDomain` | src/main/java/github/priyatam/springsecurity/waffle/CustomAuthenticationToken.java:31-44 | the name after a prefix of length 12 (the domain and one separator); an index error for a shorter name |
| `CustomAuthenticationTokens.LoadAuthorities` | src/main/java/github/priyatam/springsecurity/waffle/CustomAuthenticationToken.java:61-79 | any lookup failure becomes UsernameNotFound; a null account fails; otherwise the authorities read back as the account's role names in order |
| `CustomAuthenticationTokens.CustomAuthenticationToken.Init` | src/main/java/github/priyatam/springsecurity/waffle/CustomAuthenticationToken.java:41-53 | the principal is enabled user details with the username, an empty password and the authorities |
| `CustomAuthenticationTokens.CustomAuthenticationToken.Create` | src/main/java/github/priyatam/springsecurity/waffle/CustomAuthenticationToken.java:41-109 | fails for a short name or a failed lookup; a built token is authenticated, named by the stripped username, with null credentials, the Windows principal as details and the account's role names as authorities |
| `CustomAuthenticationTokens.CustomAuthenticationToken.SetAuthenticated` | src/main/java/github/priyatam/springsecurity/waffle/CustomAuthenticationToken.java:103-105 | always fails with IllegalArgument and changes nothing |
| `LogoutFilters.LogoutFilterWrapper.constructor` | src/main/java/github/priyatam/springsecurity/spring/LogoutFilterWrapper.java:25-27 | both URLs start unset |
| `LogoutFilters.LogoutFilterWrapper.SetLogoutSuccessfulUrl` | src/main/java/github/priyatam/springsecurity/spring/LogoutFilterWrapper.java:40-42 | sets the login URL and nothing else |
| `LogoutFilters.LogoutFilterWrapper.SetLogoutSuccessfulUrlInactivity` | src/main/java/github/priyatam/springsecurity/spring/LogoutFilterWrapper.java:44-46 | sets the inactivity URL and nothing else |
| `LogoutFilters.LogoutFilterWrapper.TimeoutUrl` | src/main/java/github/priyatam/springsecurity/spring/LogoutFilterWrapper.java:93-97 | the inactivity URL followed by "?login=", the context path and the login URL |
| `LogoutFilters.LogoutFilterWrapper.OnLogoutSuccess` | src/main/java/github/priyatam/springsecurity/spring/LogoutFilterWrapper.java:74-102 | no authentication is an IllegalState error; a principal that is not a domain User is an IllegalArgument error; a null query string fails; otherwise one target, the timeout URL iff the query contains "timeout=true", else the login URL |

## Left out

- Thread inheritance and isolation of the holder (`InheritableThreadLocal`). This is concurrency: the holder is one sequential cell.
- The Windows negotiation filter and provider (`CustomAuthenticationFilter`, `CustomAuthenticationProvider`). They are native SSPI calls, HTTP 401 responses and header writes.
- `AccountContextInterceptor` (utils/AccountContextInterceptor.java:24-45). Its calls to `processAccountContext` before the handler and `resetContext` after completion are modelled as the lifecycle methods. Not modelled: its exposure of the bound context to the view as the request attribute `accountContext` (line 32), its `true` result that lets the request proceed (line 35), and its empty `postHandle`.
- The JPA queries. Each lookup is the answer an `AccountStore` gives for a username, so which rows the query matches is not modelled.
- The `@Autowired` store inside the token. The token is not a Spring bean, so at run time that field stays null. The model passes the store in instead.
- Spring Security internals. Not modelled: the null and empty checks in Spring's `User` constructor, its sorting of authorities into a set, `GrantedAuthorityImpl`'s check on the role text, and the token's null-element check.
- Logging, and the diagnostic print inside `Role.equals`. Equality is pure.
- Servlet plumbing of the logout filter: the redirect mechanics, `doFilter` delegation, `init`, `destroy`, `initialize` and `toString`.
- Locale handling. The import is unused.
- Java strings are UTF-16 code units. Here they are Unicode scalar values, and case folding covers ASCII letters only.
- Aliasing of lists. `setRoles` keeps the caller's list and `getRoleNames` hands out the stored one, but the model copies lists as values.
- A null element of the stored role list fails with `NullPointerException` at `role.equalsIgnoreCase` in `hasRole` (domain/AccountContext.java:115). The stored list holds non-null strings here. A null element of the `roleNames` array is modelled: it reaches `hasRole(null)` and matches nothing.
- A null `roleNames` array fails with `NullPointerException` in the for-each of `hasAllRoles`, `hasAnyRole` and `hasNoRole` (domain/AccountContext.java:129, 144, 159). The array is a non-null sequence here.
- A null element of a `User`'s role list fails in `getRoleNames` (domain/User.java:60). The list holds non-null role objects here.
- A null list given to `toGrantedAuthorities`, `toStringList` or `forceAuthentication` fails with `NullPointerException` in the for-each (spring/SpringSecurityContext.java:99, 109, 84). The lists are non-null sequences here.
- A null principal inside an authentication makes `getUsername` fail at `principal.toString()` (spring/SpringSecurityContext.java:40). The `Principal` datatype has no null case.
- A null `WindowsPrincipal` makes the token constructor fail at `windowsPrincipal.getName()` (waffle/CustomAuthenticationToken.java:44). `Create` takes a non-null principal.
- Plain getters with no contract of their own. They read a field, and what they return is stated by the contracts of the members that set or use that field: `AccountContexts.AccountContextHolder.GetAccountContext` (domain/AccountContext.java:47-49, through `SetAccountContext`, `ResetAccountContext`, `GetCurrentUsername` and `GetCurrentUserRoles`); `AccountContexts.AccountContext.GetSessionId`, `GetUsername` and `GetAccount` (through the setters and `ProcessAccountContext`); and the token's `GetAuthorities`, `GetCredentials`, `GetDetails`, `GetPrincipal`, `IsAuthenticated` and `GetName` (through `Create`).
- Users.AccountStore.ObtainAccount: `obtainAccount` (utils/AccountContextSupport.java:57-61 and spring/AccountDetailsServiceImpl.java:79-83) is the store's answer for the username, with no contract of its own. Which row the named query matches, and the choice among no result, several results and a data-access failure, are inputs to the model.
- `Role`'s and `User`'s plain getters and the `Role(String)` constructor. They are field reads and the datatype constructor.
- Users.User.ContainsRole: the role list is never null in the model, so the `getRoles() != null` half of the test is always true.
- Users.User.AddRole: `addRole(null)` is not modelled, because the list holds non-null roles.
- SpringSecurityContext.GetUsername: the string form of a principal that is not user details is an opaque value carried with the principal.
- SpringSecurityContext.ForceAuthentication: the login must be non-null. Spring would reject a null one.
- CustomAuthenticationTokens.CustomAuthenticationToken.Create: the Windows principal's name is never null.
