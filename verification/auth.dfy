/**
 * The requester as the REST framework sees it, and the framework's three
 * stock permission classes that the viewsets return from `get_permissions`.
 */
module Auth {
  import opened Wrappers

  /**
   * `request.user`: a stored account (with a primary key) or the anonymous
   * user (no key, never authenticated, never staff).
   */
  datatype Requester = Requester(id: Option<nat>, isAuthenticated: bool, isStaff: bool)

  const Anonymous: Requester := Requester(None, false, false)

  datatype PermissionClass = AllowAny | IsAuthenticated | IsAdminUser

  /**
   * `has_permission` of each stock class. `IsAdminUser` looks only at
   * `is_staff`; `IsAuthenticated` only at `is_authenticated`.
   */
  function Grants(p: PermissionClass, u: Requester): (allowed: bool)
    ensures p == AllowAny ==> allowed
    ensures p == IsAuthenticated ==> (allowed <==> u.isAuthenticated)
    ensures p == IsAdminUser ==> (allowed <==> u.isStaff)
  {
    match p
    case AllowAny => true
    case IsAuthenticated => u.isAuthenticated
    case IsAdminUser => u.isStaff
  }

  /** The anonymous user passes only `AllowAny`. */
  lemma AnonymousGrantedOnlyAllowAny(p: PermissionClass)
    ensures Grants(p, Anonymous) <==> p == AllowAny
  {
  }
}
