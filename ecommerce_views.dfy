/**
 * The permission rule of the ecommerce viewsets. All eight viewsets (category, category
 * image, product, subcategory, table field, product variant, variant data, exclusive price)
 * declare the same `get_permissions`, modelled once here.
 */
module EcommerceViews {
  import opened Wrappers
  import opened AccountModels

  datatype Permission = IsAuthenticated | IsAdminUser

  /** The actions that write. */
  const WriteActions: seq<string> := ["create", "update", "partial_update", "destroy"]

  predicate IsWriteAction(action: Option<string>) {
    action.Some? && action.value in WriteActions
  }

  /**
   * `get_permissions`: exactly one permission for every action (`None` when the router set
   * none): admin for the four write actions, a logged-in user for everything else.
   */
  function GetPermissions(action: Option<string>): (r: seq<Permission>)
    ensures |r| == 1
    ensures r[0] == IsAdminUser <==> IsWriteAction(action)
    ensures r[0] == IsAuthenticated <==> !IsWriteAction(action)
  {
    if IsWriteAction(action) then [IsAdminUser] else [IsAuthenticated]
  }

  /**
   * The framework's reading of the two permissions: a request is authenticated when it
   * carries a user (`None` is the anonymous user), and it is from an admin when that user
   * is staff.
   */
  predicate Grants(p: Permission, user: Option<User>) {
    match p
    case IsAuthenticated => user.Some?
    case IsAdminUser => user.Some? && IsStaff(user.value)
  }

  /** The request passes every permission the action asks for. */
  predicate Allowed(action: Option<string>, user: Option<User>) {
    forall p :: p in GetPermissions(action) ==> Grants(p, user)
  }

  /** Only admins write; every user who is logged in reads; anonymous requests get nothing. */
  lemma AccessByAction(action: Option<string>, user: Option<User>)
    ensures IsWriteAction(action) ==> (Allowed(action, user) <==> user.Some? && user.value.isAdmin)
    ensures !IsWriteAction(action) ==> (Allowed(action, user) <==> user.Some?)
  {
    assert GetPermissions(action)[0] in GetPermissions(action);
  }

  /** `list`, `retrieve` and a missing action are reads. */
  lemma ReadActions()
    ensures GetPermissions(Some("list")) == [IsAuthenticated]
    ensures GetPermissions(Some("retrieve")) == [IsAuthenticated]
    ensures GetPermissions(None) == [IsAuthenticated]
  {
  }
}
