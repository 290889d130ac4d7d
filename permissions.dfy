/** The two custom permission classes: decisions over the request method
    and flags of the requesting user. */
module Permissions {
  import opened Wrappers
  import opened Json
  import opened Models

  /** DRF's `SAFE_METHODS`: the read-only HTTP methods. */
  const SafeMethods: set<string> := {"GET", "HEAD", "OPTIONS"}

  predicate IsSafe(verb: string) {
    verb in SafeMethods
  }

  /** `request.user`: no user object at all, the anonymous user, or an
      authenticated account with its staff and superuser flags. `seller` is
      the account's `is_seller` attribute, `None` when the account's class
      declares no such attribute (the `User` model of models.py does not). */
  datatype Requester =
    | NoUser
    | Anonymous
    | Account(isStaff: bool, isSuperuser: bool, seller: Option<bool>)

  /** The requester a signed-in user of the declared `User` model is: its
      staff and superuser columns, and no `is_seller` attribute. */
  function RequesterOf(r: UserRecord): (q: Requester)
    ensures IsAuthenticated(q)
    ensures q.isStaff == r.isStaff && q.isSuperuser == r.isSuperuser
    ensures q.seller == None
  {
    Account(r.isStaff, r.isSuperuser, None)
  }

  /** `request.user.is_authenticated` (false without a user object). */
  predicate IsAuthenticated(user: Requester) {
    user.Account?
  }

  /** `IsAdminOrStaff.has_permission`: every safe method is allowed to
      anyone; any other method only to an authenticated staff member or
      superuser. */
  function IsAdminOrStaff(verb: string, user: Requester): (granted: bool)
    ensures IsSafe(verb) ==> granted
    ensures !IsSafe(verb) ==>
              (granted <==> IsAuthenticated(user) && (user.isStaff || user.isSuperuser))
  {
    if IsSafe(verb) then true
    else
      match user
      case NoUser => false
      case Anonymous => false
      case Account(staff, superuser, _) => staff || superuser
  }

  /** `IsSellerOrReadOnly.has_permission`: every safe method is allowed to
      anyone; any other method to an authenticated account whose
      `is_seller` is true. Reading `is_seller` on an account that has no
      such attribute raises `AttributeError`; an unauthenticated requester
      is refused before the attribute is read. */
  function IsSellerOrReadOnly(verb: string, user: Requester): (r: Result<bool, Exception>)
    ensures IsSafe(verb) ==> r == Ok(true)
    ensures !IsSafe(verb) && !IsAuthenticated(user) ==> r == Ok(false)
    ensures !IsSafe(verb) && IsAuthenticated(user) ==>
              r == if user.seller.Some? then Ok(user.seller.value)
                   else Err(AttributeError("is_seller"))
  {
    if IsSafe(verb) then Ok(true)
    else
      match user
      case NoUser => Ok(false)
      case Anonymous => Ok(false)
      case Account(_, _, seller) =>
        match seller
        case Some(isSeller) => Ok(isSeller)
        case None => Err(AttributeError("is_seller"))
  }

  /** Neither class lets an unauthenticated requester use an unsafe method. */
  lemma UnauthenticatedNeverWrites(verb: string, user: Requester)
    requires !IsSafe(verb) && !IsAuthenticated(user)
    ensures !IsAdminOrStaff(verb, user)
    ensures IsSellerOrReadOnly(verb, user) == Ok(false)
  {
  }

  /** Staff and superusers get no write access from `IsSellerOrReadOnly`
      unless they are also sellers, though `IsAdminOrStaff` lets them in. */
  lemma StaffAreNotSellers(verb: string, staff: bool, superuser: bool)
    requires !IsSafe(verb) && (staff || superuser)
    ensures IsAdminOrStaff(verb, Account(staff, superuser, Some(false)))
    ensures IsSellerOrReadOnly(verb, Account(staff, superuser, Some(false))) == Ok(false)
  {
  }

  /** With the `User` model as declared (no `is_seller`), every unsafe
      request by a signed-in user makes `IsSellerOrReadOnly` raise. */
  lemma DeclaredUserHasNoSellerFlag(verb: string, user: UserRecord)
    requires !IsSafe(verb)
    ensures IsSellerOrReadOnly(verb, RequesterOf(user)) == Err(AttributeError("is_seller"))
  {
  }
}
