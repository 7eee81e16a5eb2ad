/**
 * The two custom permission classes. Neither is attached to a viewset; they
 * are modelled as the predicates they define.
 */
module Permissions {
  import opened Wrappers
  import opened Auth

  /** The framework's `SAFE_METHODS`. */
  const SafeMethods: set<string> := {"GET", "HEAD", "OPTIONS"}

  predicate IsSafe(httpMethod: string) {
    httpMethod in SafeMethods
  }

  /**
   * `IsAdminOrReadOnly.has_permission`: safe methods for anyone; otherwise a
   * present, authenticated staff user.
   */
  function IsAdminOrReadOnly(httpMethod: string, user: Option<Requester>): (allowed: bool)
    ensures allowed <==> IsSafe(httpMethod) || (user.Some? && user.value.isAuthenticated && user.value.isStaff)
  {
    if IsSafe(httpMethod) then true
    else if user.None? || !user.value.isAuthenticated then false
    else user.value.isStaff
  }

  /**
   * Whether the object has a `user` attribute and, if so, the key of the
   * account it holds (`None` for a null owner).
   */
  datatype Ownership = NoUserAttribute | OwnedBy(owner: Option<nat>)

  /**
   * `obj.user == request.user`: two accounts are equal when their primary
   * keys are; a null owner equals nobody, and the anonymous user (no key)
   * equals no stored account.
   */
  predicate SameAccount(owner: Option<nat>, user: Requester) {
    owner.Some? && user.id == owner
  }

  /**
   * `IsOwnerOrAdmin.has_object_permission`: safe methods for anyone; staff
   * for anything; otherwise only the owner, and only if the object has one.
   */
  function IsOwnerOrAdmin(httpMethod: string, user: Requester, obj: Ownership): (allowed: bool)
    ensures allowed <==> IsSafe(httpMethod) || user.isStaff
                         || (obj.OwnedBy? && SameAccount(obj.owner, user))
  {
    if IsSafe(httpMethod) then true
    else if user.isStaff then true
    else match obj
      case OwnedBy(owner) => SameAccount(owner, user)
      case NoUserAttribute => false
  }

  lemma AdminOrReadOnlySafeMethods(httpMethod: string, user: Option<Requester>)
    requires httpMethod in {"GET", "HEAD", "OPTIONS"}
    ensures IsAdminOrReadOnly(httpMethod, user)
  {
  }

  lemma AdminOrReadOnlyNeedsAuthentication(httpMethod: string, user: Option<Requester>)
    requires !IsSafe(httpMethod)
    requires user.None? || !user.value.isAuthenticated
    ensures !IsAdminOrReadOnly(httpMethod, user)
  {
  }

  lemma AdminOrReadOnlyWriteIffStaff(httpMethod: string, u: Requester)
    requires !IsSafe(httpMethod) && u.isAuthenticated
    ensures IsAdminOrReadOnly(httpMethod, Some(u)) <==> u.isStaff
  {
  }

  lemma OwnerOrAdminSafeMethods(httpMethod: string, user: Requester, obj: Ownership)
    requires IsSafe(httpMethod)
    ensures IsOwnerOrAdmin(httpMethod, user, obj)
  {
  }

  lemma OwnerOrAdminStaff(httpMethod: string, user: Requester, obj: Ownership)
    requires user.isStaff
    ensures IsOwnerOrAdmin(httpMethod, user, obj)
  {
  }

  /**
   * A write by a non-staff user is allowed only on an object with an
   * owner, when the owner is that user.
   */
  lemma OwnerOrAdminWriteNeedsOwnership(httpMethod: string, user: Requester, obj: Ownership)
    requires !IsSafe(httpMethod) && !user.isStaff
    ensures IsOwnerOrAdmin(httpMethod, user, obj) <==>
              obj.OwnedBy? && obj.owner.Some? && user.id == obj.owner
  {
  }

  /** None of the application's records has a `user` field, so only staff may write. */
  lemma OwnerOrAdminOnApplicationRecords(httpMethod: string, user: Requester)
    requires !IsSafe(httpMethod)
    ensures IsOwnerOrAdmin(httpMethod, user, NoUserAttribute) <==> user.isStaff
  {
  }

  /** Granting staff status never turns an allowed request into a denied one. */
  lemma StaffIsMonotone(httpMethod: string, u: Requester, obj: Ownership)
    ensures IsAdminOrReadOnly(httpMethod, Some(u)) ==> IsAdminOrReadOnly(httpMethod, Some(u.(isStaff := true)))
    ensures IsOwnerOrAdmin(httpMethod, u, obj) ==> IsOwnerOrAdmin(httpMethod, u.(isStaff := true), obj)
  {
  }
}
