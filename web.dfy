/** The MVC surroundings of the controllers: what an action returns, and the per-user
    and per-request state it reads and writes (session, TempData, ViewBag, ModelState,
    the signed-in identity). Redirect, view and cookie handling by the framework itself
    is not modelled. */
module Web {
  import opened Wrappers
  import opened Text
  import opened Models

  /** What a value placed in ViewBag, or handed to a view as its model, can be. */
  datatype ViewValue =
    | NoModel
    | Number(n: int)
    | Message(text: string)
    | Flag(b: bool)
    | ArtworkList(arts: seq<Artwork>)
    | ArtworkItem(artwork: Artwork)
    | CategoryList(categories: seq<Category>)
    | UserItem(user: UserDto)
    | AppUserItem(appUser: AppUser)
    | DashboardItem(dashboard: AdminDashboard)
    | DetailedArtList(detailed: seq<DetailedArt>)
    | RowList(rows: seq<ViewRow>)

  /** `IActionResult`: a redirect to an action, a rendered view, a 404, or an exception
      that no handler in the action catches (the framework's error page). */
  datatype ActionResult =
    | RedirectToAction(action: string, controller: string, id: Option<int>)
    | ViewResult(model: ViewValue)
    | NotFoundResult
    | ServerError(message: string)

  datatype Claim = Claim(claimType: string, value: string)

  const NameClaim := "http://schemas.xmlsoap.org/ws/2005/05/identity/claims/name"
  const NameIdentifierClaim := "http://schemas.xmlsoap.org/ws/2005/05/identity/claims/nameidentifier"
  const EmailClaim := "http://schemas.xmlsoap.org/ws/2005/05/identity/claims/emailaddress"
  const SurnameClaim := "http://schemas.xmlsoap.org/ws/2005/05/identity/claims/surname"
  const RoleClaim := "http://schemas.microsoft.com/ws/2008/06/identity/claims/role"

  /** `ClaimsPrincipal.FindFirst(type)?.Value`: the value of the first claim of that type. */
  function FindFirst(claims: seq<Claim>, claimType: string): (r: Option<string>)
    ensures r.None? <==> forall i :: 0 <= i < |claims| ==> claims[i].claimType != claimType
    ensures r.Some? ==> exists i :: 0 <= i < |claims| && claims[i] == Claim(claimType, r.value)
                          && forall j :: 0 <= j < i ==> claims[j].claimType != claimType
  {
    if |claims| == 0 then None
    else if claims[0].claimType == claimType then Some(claims[0].value)
    else
      var r := FindFirst(claims[1..], claimType);
      assert r.Some? ==> exists i :: 1 <= i < |claims| && claims[i] == Claim(claimType, r.value)
                          && forall j :: 0 <= j < i ==> claims[j].claimType != claimType by {
        if r.Some? {
          var i :| 0 <= i < |claims[1..]| && claims[1..][i] == Claim(claimType, r.value)
                   && forall j :: 0 <= j < i ==> claims[1..][j].claimType != claimType;
          assert claims[i + 1] == Claim(claimType, r.value);
          assert forall j :: 1 <= j < i + 1 ==> claims[j].claimType != claimType by {
            forall j | 1 <= j < i + 1 ensures claims[j].claimType != claimType {
              assert claims[j] == claims[1..][j - 1];
            }
          }
        }
      }
      r
  }

  /** `map.TryGetValue`: the value stored under `key`, if any. */
  function Lookup(m: map<string, string>, key: string): Option<string>
  {
    if key in m then Some(m[key]) else None
  }

  /** The login page, where every token gate sends a visitor without a token. */
  const LoginRedirect := RedirectToAction("Login", "Auth", None)
  /** The public gallery. */
  const GalleryRedirect := RedirectToAction("Index", "Artwork", None)

  const TokenKey := "jwt"
  const ErrorMessageKey := "ErrorMessage"
  const SuccessMessageKey := "SuccessMessage"
  const WarningMessageKey := "WarningMessage"

  /** The state one request of one user touches. `session` and `tempData` belong to the
      user and outlive the request; `viewBag` and `modelErrors` belong to the request;
      `claims` is the identity the request arrived with (`HttpContext.User`),
      `issuedCookie` the identity `SignInAsync` hands to the next request, and
      `signedOut` whether `SignOutAsync` removed the authentication cookie. */
  class RequestContext {
    var session: map<string, string>
    var tempData: map<string, string>
    var viewBag: map<string, ViewValue>
    var modelErrors: seq<string>
    var claims: seq<Claim>
    var issuedCookie: Option<seq<Claim>>
    var signedOut: bool

    constructor (session: map<string, string>, tempData: map<string, string>, claims: seq<Claim>)
      ensures this.session == session && this.tempData == tempData && this.claims == claims
      ensures viewBag == map[] && modelErrors == [] && issuedCookie == None && !signedOut
    {
      this.session := session;
      this.tempData := tempData;
      this.claims := claims;
      viewBag := map[];
      modelErrors := [];
      issuedCookie := None;
      signedOut := false;
    }

    /** `HttpContext.Session.GetString(key)`. */
    function SessionValue(key: string): Option<string>
      reads this
    {
      Lookup(session, key)
    }

    /** The bearer token the session holds, if any. */
    function Token(): Option<string>
      reads this
    {
      SessionValue(TokenKey)
    }
  }
}
