/** moziotest/permissions.py: the two ownership rules. Both always allow the
    safe methods; for any other method they allow only an authenticated
    caller whose id is the account named in the path (IsOwnerAccountOrReadOnly)
    or the owner stored on the object (IsOwnerObjectOrReadOnly). */
module Permissions {
  import opened Wrappers
  import PyText

  const SafeMethods: set<string> := {"GET", "HEAD", "OPTIONS"}

  /** `request.user`: no user object at all, the anonymous user, or an account. */
  datatype User = NoUser | AnonymousUser | Account(id: int)

  /** `request.user and is_authenticated(request.user)`: only an account. */
  predicate IsAuthenticated(user: User) {
    user.Account?
  }

  datatype Request = Request(httpMethod: string, user: User)

  /** `view.kwargs['pk']`: the text the URL pattern `\d+` captured, or an
      integer when the view is called directly (as the view tests do). */
  datatype PathPk = PkText(text: string) | PkInt(n: int)

  /** `int(pk)`: an integer is kept and text is read in decimal; None where
      Python raises ValueError. */
  function PkValue(pk: PathPk): (r: Option<int>)
    ensures pk.PkInt? ==> r == Some(pk.n)
    ensures pk.PkText? && r.Some? ==>
              var t := PyText.Strip(pk.text);
              PyText.IsDigits(t) || (|t| > 1 && PyText.IsSign(t[0]) && PyText.IsDigits(t[1..]))
  {
    match pk
    case PkInt(n) => Some(n)
    case PkText(t) => PyText.IntOfText(t)
  }

  /** Digit text, as the URL pattern captures it, reads as its decimal value. */
  lemma PkValueOfDigits(t: string)
    requires PyText.IsDigits(t)
    ensures PkValue(PkText(t)) == Some(PyText.DecimalValue(t).value as int)
    ensures PkValue(PkText(t)).value >= 0
  {
    PyText.IntOfDigits(t);
  }

  /** IsOwnerAccountOrReadOnly.has_permission, where `pk` is the `pk` of the
      view's keyword arguments. The result is None when `int(pk)` would raise,
      which can happen only once the method is unsafe and the caller
      authenticated, because the rule is evaluated left to right. */
  function AccountHasPermission(request: Request, pk: PathPk): (r: Option<bool>)
    ensures r.None? ==> request.httpMethod !in SafeMethods && IsAuthenticated(request.user) && PkValue(pk).None?
    ensures r == Some(true) ==>
              request.httpMethod in SafeMethods || (IsAuthenticated(request.user) && PkValue(pk) == Some(request.user.id))
  {
    if request.httpMethod in SafeMethods then Some(true)
    else if !IsAuthenticated(request.user) then Some(false)
    else match PkValue(pk)
      case None => None
      case Some(n) => Some(n == request.user.id)
  }

  /** IsOwnerAccountOrReadOnly.has_object_permission: the view-level rule
      again; the object itself is not looked at. */
  function AccountHasObjectPermission<T>(request: Request, pk: PathPk, obj: T): Option<bool> {
    AccountHasPermission(request, pk)
  }

  /** IsOwnerObjectOrReadOnly.has_object_permission, where `ownerId` is the
      object's stored `user_id`; no path parameter takes part. */
  function ObjectHasObjectPermission(request: Request, ownerId: int): bool {
    request.httpMethod in SafeMethods || (IsAuthenticated(request.user) && ownerId == request.user.id)
  }

  /** Safe methods are allowed by both rules, whoever asks. */
  lemma SafeMethodsAlwaysAllowed(request: Request, pk: PathPk, ownerId: int)
    requires request.httpMethod in SafeMethods
    ensures AccountHasPermission(request, pk) == Some(true)
    ensures ObjectHasObjectPermission(request, ownerId)
  {
  }

  /** An unauthenticated caller never gets an unsafe method through, and the
      path is not even read. */
  lemma UnauthenticatedUnsafeDenied(request: Request, pk: PathPk, ownerId: int)
    requires request.httpMethod !in SafeMethods && !IsAuthenticated(request.user)
    ensures AccountHasPermission(request, pk) == Some(false)
    ensures !ObjectHasObjectPermission(request, ownerId)
  {
  }

  /** For an unsafe method and an authenticated caller with a numeric path,
      the account rule allows exactly when the path names the caller. */
  lemma AccountRuleAllowsOwnerOnly(request: Request, pk: PathPk)
    requires request.httpMethod !in SafeMethods && request.user.Account?
    requires pk.PkInt? || PyText.IsDigits(pk.text)
    ensures AccountHasPermission(request, pk).Some?
    ensures AccountHasPermission(request, pk) == Some(true)
            <==> PkValue(pk) == Some(request.user.id)
  {
    if pk.PkText? {
      PkValueOfDigits(pk.text);
    }
  }

  /** The path written by `str` for an account id names that account, so the
      owner passes and everyone else is refused. */
  lemma AccountRuleOnOwnPath(request: Request, accountId: nat)
    requires request.httpMethod !in SafeMethods && request.user.Account?
    ensures AccountHasPermission(request, PkText(PyText.NatString(accountId)))
            == Some(accountId == request.user.id)
  {
    PyText.IntOfNatString(accountId);
  }

  /** The object-level check of the account rule equals its view-level check. */
  lemma AccountObjectCheckIgnoresObject<T>(request: Request, pk: PathPk, a: T, b: T)
    ensures AccountHasObjectPermission(request, pk, a) == AccountHasPermission(request, pk)
    ensures AccountHasObjectPermission(request, pk, a) == AccountHasObjectPermission(request, pk, b)
  {
  }

  /** For an unsafe method and an authenticated caller, the object rule
      allows exactly when the stored owner is the caller. */
  lemma ObjectRuleAllowsOwnerOnly(request: Request, ownerId: int)
    requires request.httpMethod !in SafeMethods && request.user.Account?
    ensures ObjectHasObjectPermission(request, ownerId) <==> ownerId == request.user.id
  {
  }

  /** An unsafe method that either rule lets through came from an
      authenticated caller whose id is the one compared against. */
  lemma AllowedWriteImpliesOwner(request: Request, pk: PathPk, ownerId: int)
    requires request.httpMethod !in SafeMethods
    ensures AccountHasPermission(request, pk) == Some(true) ==>
              request.user.Account? && PkValue(pk) == Some(request.user.id)
    ensures ObjectHasObjectPermission(request, ownerId) ==>
              request.user.Account? && ownerId == request.user.id
  {
  }

  /** Adding the safe-method disjunct only widens access: whatever a rule
      allows for an unsafe method it also allows once the method is safe. */
  lemma SafeDisjunctOnlyWidens(request: Request, safe: string, pk: PathPk, ownerId: int)
    requires safe in SafeMethods
    ensures AccountHasPermission(request, pk) == Some(true) ==>
              AccountHasPermission(request.(httpMethod := safe), pk) == Some(true)
    ensures ObjectHasObjectPermission(request, ownerId) ==>
              ObjectHasObjectPermission(request.(httpMethod := safe), ownerId)
  {
  }

  /** The users/tests/test_views.py cases, which pass `pk` as an integer:
      account 2 may not write to account 1; account 1 may delete and update
      itself; anyone may read. */
  lemma AccountRuleTestCases()
    ensures AccountHasPermission(Request("DELETE", Account(2)), PkInt(1)) == Some(false)
    ensures AccountHasPermission(Request("PATCH", Account(2)), PkInt(1)) == Some(false)
    ensures AccountHasPermission(Request("PUT", Account(2)), PkInt(1)) == Some(false)
    ensures AccountHasPermission(Request("DELETE", Account(1)), PkInt(1)) == Some(true)
    ensures AccountHasPermission(Request("PATCH", Account(1)), PkInt(1)) == Some(true)
    ensures AccountHasPermission(Request("GET", AnonymousUser), PkInt(2)) == Some(true)
  {
  }

  /** The path text "1", named so that the proof below does not unfold the
      literal. */
  const RoutedOne := "1"

  /** The same outcome when the path text "1" comes through the URL pattern. */
  lemma AccountRuleRoutedCases()
    ensures AccountHasPermission(Request("PATCH", Account(2)), PkText(RoutedOne)) == Some(false)
    ensures AccountHasPermission(Request("PATCH", Account(1)), PkText(RoutedOne)) == Some(true)
  {
    assert PyText.NatString(1) == RoutedOne;
    AccountRuleOnOwnPath(Request("PATCH", Account(2)), 1);
    AccountRuleOnOwnPath(Request("PATCH", Account(1)), 1);
  }
}
