/** The profile page (Controllers/ProfileController.cs): which record describes the
    signed-in user, chosen in priority order from the session, then the cookie's
    claims, then the upstream `auth/me` call, and how each failure ends the request. */
module Profile {
  import opened Wrappers
  import opened Text
  import opened Models
  import opened Http
  import opened Web
  import opened ApiClient
  import Auth

  const UserIdKey := "userId"
  const UsernameKey := "username"
  const EmailKey := "email"
  const SurnameKey := "surname"
  const UserKey := "User"

  const PleaseLogInMessage := "Lütfen giriş yapın."
  const IncompleteProfileMessage := "Kullanıcı bilgileriniz tam olarak yüklenemedi. Lütfen tekrar giriş yapın."
  const SessionEndedMessage := "Oturumunuz sona erdi. Lütfen tekrar giriş yapın."
  const ProfileFailedMessage := "Profil bilgileri yüklenirken bir hata oluştu."

  /** The record shown when `auth/me` answers 404 and nothing local names the user. */
  const PlaceholderUser := UserDto(0, "Kullanıcı", "Bilinmiyor", "", false, [])

  /** What `int.Parse` throws on an identifier that is not a decimal `int`. */
  const BadIdentifierMessage := "The input string was not in a correct format."

  /** Where the profile's user record came from. */
  datatype UserSource = SessionFields | ClaimFields | CurrentUserCall | NotFoundPlaceholder

  /** The user record, or the exception that escaped while choosing it. */
  datatype Resolution = Resolved(user: UserDto, source: UserSource) | Raised(error: ApiError)

  /** `new UserDTO { Id = …, Username = …, Email = email ?? "", Surname = surname ?? "" }`
      with the identifier parsed by `int.Parse` unless it is null or empty, in which
      case it is 0. An identifier that does not parse throws. */
  function UserFromFields(id: Option<string>, username: string, email: Option<string>, surname: Option<string>)
    : (r: Result<UserDto, ApiError>)
    ensures r.Success? <==> NullOrEmpty(id) || ParseInt32(id.value).Some?
    ensures r.Success? ==> r.value.username == username && !r.value.enabled && r.value.roles == []
    ensures r.Success? ==> r.value.email == email.GetOr("") && r.value.surname == surname.GetOr("")
    ensures r.Success? && NullOrEmpty(id) ==> r.value.id == 0
    ensures r.Success? && !NullOrEmpty(id) ==> r.value.id == ParseInt32(id.value).value
    ensures r.Failure? ==> r.error.kind == Format
  {
    var parsed := if NullOrEmpty(id) then Some(0) else ParseInt32(id.value);
    if parsed.None? then Failure(ApiError(Format, BadIdentifierMessage))
    else Success(UserDto(parsed.value, username, email.GetOr(""), surname.GetOr(""), false, []))
  }

  /** The user name the cookie's identity carries (`User.Identity?.Name`, falling back
      to the first Name claim; for a cookie identity both are the first Name claim). */
  function ClaimsUsername(claims: seq<Claim>): Option<string>
  {
    FindFirst(claims, NameClaim)
  }

  /** Neither the session nor the claims name the user: only then is `auth/me` called. */
  predicate NeedsCurrentUser(session: map<string, string>, claims: seq<Claim>) {
    NullOrEmpty(Lookup(session, UsernameKey)) && NullOrEmpty(ClaimsUsername(claims))
  }

  /** The exception filter `catch (HttpRequestException ex) when (ex.Message.Contains("404"))`. */
  predicate IsNotFoundFailure(e: ApiError) {
    e.kind == HttpRequest && Contains(e.message, "404")
  }

  /** The priority cascade of `Index`. `current` is what `GetCurrentUser` returns or
      throws; it is consulted only when neither the session nor the claims name a user. */
  function Resolve(session: map<string, string>, claims: seq<Claim>, current: Result<UserDto, ApiError>)
    : (r: Resolution)
    ensures r.Resolved? && r.source == SessionFields <==>
              !NullOrEmpty(Lookup(session, UsernameKey)) && !r.Raised?
    ensures r.Resolved? && r.source == ClaimFields <==>
              NullOrEmpty(Lookup(session, UsernameKey)) && !NullOrEmpty(ClaimsUsername(claims)) && !r.Raised?
    ensures r.Resolved? && (r.source == CurrentUserCall || r.source == NotFoundPlaceholder) ==>
              NeedsCurrentUser(session, claims)
    ensures r.Resolved? && r.source == NotFoundPlaceholder ==> r.user == PlaceholderUser
    ensures NeedsCurrentUser(session, claims) && current.Success? ==> r == Resolved(current.value, CurrentUserCall)
    ensures NeedsCurrentUser(session, claims) && current.Failure? && !IsNotFoundFailure(current.error) ==>
              r == Raised(current.error)
    ensures r.Raised? && r.error.kind != Format ==> NeedsCurrentUser(session, claims) && !IsNotFoundFailure(r.error)
  {
    var username := Lookup(session, UsernameKey);
    if !NullOrEmpty(username) then
      match UserFromFields(Lookup(session, UserIdKey), username.value, Lookup(session, EmailKey), Lookup(session, SurnameKey))
      case Success(u) => Resolved(u, SessionFields)
      case Failure(e) => Raised(e)
    else
      var claimsUsername := ClaimsUsername(claims);
      if !NullOrEmpty(claimsUsername) then
        match UserFromFields(FindFirst(claims, NameIdentifierClaim), claimsUsername.value,
                             FindFirst(claims, EmailClaim), FindFirst(claims, SurnameClaim))
        case Success(u) => Resolved(u, ClaimFields)
        case Failure(e) => Raised(e)
      else
        match current
        case Success(u) => Resolved(u, CurrentUserCall)
        case Failure(e) =>
          if IsNotFoundFailure(e) then Resolved(PlaceholderUser, NotFoundPlaceholder) else Raised(e)
  }

  /** How `Index` ends once a user record is chosen (or not) and the user's own
      artworks fetched (or not): the page, the expired-session exit taken for
      `UnauthorizedAccessException`, or the gallery exit taken for every other exception. */
  datatype Ending = Shown(user: UserDto, artworks: seq<Artwork>) | SessionEnded | ProfileFailed

  function EndingOf(resolution: Resolution, artworks: Result<seq<Artwork>, ApiError>): (e: Ending)
    ensures e.Shown? <==> resolution.Resolved? && artworks.Success?
    ensures e.Shown? ==> e.user == resolution.user && e.artworks == artworks.value
    ensures e.SessionEnded? <==>
              (resolution.Raised? && resolution.error.kind == UnauthorizedAccess)
              || (resolution.Resolved? && artworks.Failure? && artworks.error.kind == UnauthorizedAccess)
  {
    var escaped := if resolution.Raised? then Some(resolution.error)
                   else if artworks.Failure? then Some(artworks.error)
                   else None;
    match escaped
    case None => Shown(resolution.user, artworks.value)
    case Some(e) => if e.kind == UnauthorizedAccess then SessionEnded else ProfileFailed
  }

  /** The page an ending shows. */
  function EndingResult(ending: Ending): ActionResult {
    match ending
    case Shown(_, list) => ViewResult(ArtworkList(list))
    case SessionEnded => LoginRedirect
    case ProfileFailed => GalleryRedirect
  }

  /** TempData after `Index`: the warning of the placeholder record, then the error
      message of whichever exception ended the request. */
  function EndingTempData(tempData: map<string, string>, resolution: Resolution, ending: Ending)
    : (t: map<string, string>)
    ensures ending.Shown? && !(resolution.Resolved? && resolution.source == NotFoundPlaceholder) ==> t == tempData
    ensures resolution.Resolved? && resolution.source == NotFoundPlaceholder ==>
              WarningMessageKey in t && t[WarningMessageKey] == IncompleteProfileMessage
    ensures ending.SessionEnded? ==> ErrorMessageKey in t && t[ErrorMessageKey] == SessionEndedMessage
    ensures ending.ProfileFailed? ==> ErrorMessageKey in t && t[ErrorMessageKey] == ProfileFailedMessage
  {
    var warned := if resolution.Resolved? && resolution.source == NotFoundPlaceholder
                  then tempData[WarningMessageKey := IncompleteProfileMessage]
                  else tempData;
    match ending
    case Shown(_, _) => warned
    case SessionEnded => warned[ErrorMessageKey := SessionEndedMessage]
    case ProfileFailed => warned[ErrorMessageKey := ProfileFailedMessage]
  }

  /** The requests `Index` sends once past the token gate: `auth/me` only when nothing
      local names the user, `arts/my-artworks` only when a record was chosen. */
  function IndexRequests(token: string, asked: bool, resolved: bool): seq<Request> {
    (if asked then [Request(Get, "auth/me", Some(Bearer(token)), NoBody)] else [])
    + (if resolved then [Request(Get, "arts/my-artworks", Some(Bearer(token)), NoBody)] else [])
  }

  /** The first half of `Index`: pick the user record, calling `auth/me` only when the
      session and the claims name nobody. */
  method ChooseUser(ctx: RequestContext, api: SpringApiClient, token: string, meReply: Exchange, me: Json<UserDto>)
    returns (resolution: Resolution)
    modifies api
    ensures resolution == Resolve(ctx.session, ctx.claims, CurrentUserReply(meReply, me))
    ensures NeedsCurrentUser(ctx.session, ctx.claims) ==>
              && api.sent == old(api.sent) + [Request(Get, "auth/me", Some(Bearer(token)), NoBody)]
              && api.authorization == Some(Bearer(token))
    ensures !NeedsCurrentUser(ctx.session, ctx.claims) ==>
              api.sent == old(api.sent) && api.authorization == old(api.authorization)
  {
    var current: Result<UserDto, ApiError> := Success(EmptyUserDto);
    if NeedsCurrentUser(ctx.session, ctx.claims) {
      current := api.GetCurrentUser(token, meReply, me);
    }
    resolution := Resolve(ctx.session, ctx.claims, current);
  }

  /** `Index`. `meReply`/`me` are the `auth/me` exchange, `artsReply`/`arts` the
      `arts/my-artworks` exchange; each is consumed only if that call is made. An
      `UnauthorizedAccessException` clears the session; every ending other than the
      page leaves ViewBag alone. */
  method Index(ctx: RequestContext, api: SpringApiClient,
               meReply: Exchange, me: Json<UserDto>, artsReply: Exchange, arts: Json<seq<Artwork>>)
    returns (result: ActionResult)
    modifies ctx`tempData, ctx`session, ctx`viewBag, api
    ensures NullOrEmpty(old(ctx.Token())) ==>
              && result == LoginRedirect
              && ctx.tempData == old(ctx.tempData)[ErrorMessageKey := PleaseLogInMessage]
              && ctx.session == old(ctx.session) && ctx.viewBag == old(ctx.viewBag)
              && api.sent == old(api.sent) && api.authorization == old(api.authorization)
    ensures !NullOrEmpty(old(ctx.Token())) ==>
              var token := old(ctx.Token()).value;
              var resolution := Resolve(old(ctx.session), ctx.claims, CurrentUserReply(meReply, me));
              var ending := EndingOf(resolution, JsonReply(artsReply, arts, []));
              var requests := IndexRequests(token, NeedsCurrentUser(old(ctx.session), ctx.claims), resolution.Resolved?);
              && api.sent == old(api.sent) + requests
              && api.authorization == (if requests == [] then old(api.authorization) else Some(Bearer(token)))
              && result == EndingResult(ending)
              && ctx.tempData == EndingTempData(old(ctx.tempData), resolution, ending)
              && ctx.session == (if ending.SessionEnded? then map[] else old(ctx.session))
              && ctx.viewBag == (if ending.Shown? then old(ctx.viewBag)[UserKey := UserItem(ending.user)] else old(ctx.viewBag))
  {
    var token := ctx.Token();
    if NullOrEmpty(token) {
      ctx.tempData := ctx.tempData[ErrorMessageKey := PleaseLogInMessage];
      return LoginRedirect;
    }
    var resolution := ChooseUser(ctx, api, token.value, meReply, me);
    var artworks: Result<seq<Artwork>, ApiError> := Failure(ApiError(HttpRequest, ""));
    if resolution.Resolved? {
      artworks := api.GetUserArtworks(token.value, artsReply, arts);
    }
    var ending := EndingOf(resolution, artworks);
    assert ending == EndingOf(resolution, JsonReply(artsReply, arts, []));
    result := RecordEnding(ctx, resolution, ending);
  }

  /** The second half of `Index`: the placeholder's warning, then the page or the exit
      the escaping exception leads to. */
  method RecordEnding(ctx: RequestContext, resolution: Resolution, ending: Ending) returns (result: ActionResult)
    modifies ctx`tempData, ctx`session, ctx`viewBag
    ensures result == EndingResult(ending)
    ensures ctx.tempData == EndingTempData(old(ctx.tempData), resolution, ending)
    ensures ctx.session == (if ending.SessionEnded? then map[] else old(ctx.session))
    ensures ctx.viewBag == (if ending.Shown? then old(ctx.viewBag)[UserKey := UserItem(ending.user)] else old(ctx.viewBag))
  {
    if resolution.Resolved? && resolution.source == NotFoundPlaceholder {
      ctx.tempData := ctx.tempData[WarningMessageKey := IncompleteProfileMessage];
    }
    match ending
    case Shown(user, list) =>
      ctx.viewBag := ctx.viewBag[UserKey := UserItem(user)];
      result := ViewResult(ArtworkList(list));
    case SessionEnded =>
      ctx.tempData := ctx.tempData[ErrorMessageKey := SessionEndedMessage];
      ctx.session := map[];
      result := LoginRedirect;
    case ProfileFailed =>
      ctx.tempData := ctx.tempData[ErrorMessageKey := ProfileFailedMessage];
      result := GalleryRedirect;
  }

  // ---------------------------------------------------------------------------
  // Properties of the cascade

  /** A session that names the user decides alone: the claims and whatever `auth/me`
      would answer make no difference, and the record carries the session's fields. */
  lemma SessionTakesPriority(session: map<string, string>, claims: seq<Claim>, claims': seq<Claim>,
                             current: Result<UserDto, ApiError>, current': Result<UserDto, ApiError>)
    requires !NullOrEmpty(Lookup(session, UsernameKey))
    ensures Resolve(session, claims, current) == Resolve(session, claims', current')
    ensures !NeedsCurrentUser(session, claims)
    ensures var r := Resolve(session, claims, current);
      r.Resolved? ==>
        && r.source == SessionFields
        && r.user.username == session[UsernameKey]
        && r.user.email == (if EmailKey in session then session[EmailKey] else "")
        && r.user.surname == (if SurnameKey in session then session[SurnameKey] else "")
  {
  }

  /** Without a session user name, claims that name the user decide, whatever `auth/me`
      would answer. */
  lemma ClaimsComeSecond(session: map<string, string>, claims: seq<Claim>,
                         current: Result<UserDto, ApiError>, current': Result<UserDto, ApiError>)
    requires NullOrEmpty(Lookup(session, UsernameKey))
    requires !NullOrEmpty(ClaimsUsername(claims))
    ensures Resolve(session, claims, current) == Resolve(session, claims, current')
    ensures !NeedsCurrentUser(session, claims)
    ensures var r := Resolve(session, claims, current);
      r.Resolved? ==>
        && r.source == ClaimFields
        && r.user.username == ClaimsUsername(claims).value
        && r.user.email == FindFirst(claims, EmailClaim).GetOr("")
        && r.user.surname == FindFirst(claims, SurnameClaim).GetOr("")
  {
  }

  /** A session identifier that `ToString()` printed comes back as the same number. */
  lemma SessionIdentifierRoundTrip(session: map<string, string>, claims: seq<Claim>,
                                   current: Result<UserDto, ApiError>, n: Int32)
    requires !NullOrEmpty(Lookup(session, UsernameKey))
    requires Lookup(session, UserIdKey) == Some(DecimalString(n))
    ensures Resolve(session, claims, current) == Resolved(
              UserDto(n, session[UsernameKey], Lookup(session, EmailKey).GetOr(""),
                      Lookup(session, SurnameKey).GetOr(""), false, []),
              SessionFields)
  {
    ParseDecimalRoundTrip(n);
  }

  /** A user signed in by the local login form (whose cookie carries name, identifier
      and role only) and with no session user name gets a profile record with their
      own name and identifier and an empty email and surname. */
  lemma LocalSignInProfile(u: AppUser, session: map<string, string>, current: Result<UserDto, ApiError>)
    requires u.role.Some? && u.username != ""
    requires NullOrEmpty(Lookup(session, UsernameKey))
    ensures Resolve(session, Auth.LoginClaims(u).value, current)
            == Resolved(UserDto(u.id, u.username, "", "", false, []), ClaimFields)
  {
    Auth.LoginClaimsIdentify(u);
    ParseDecimalRoundTrip(u.id);
  }

  /** When nothing local names the user, an `auth/me` reply of 404 yields the
      placeholder record, and the page still loads if the artworks do. */
  lemma NotFoundGivesPlaceholder(session: map<string, string>, claims: seq<Claim>, resp: HttpResponse, me: Json<UserDto>)
    requires NeedsCurrentUser(session, claims)
    requires resp.status == 404
    ensures Resolve(session, claims, CurrentUserReply(Replied(resp), me)) == Resolved(PlaceholderUser, NotFoundPlaceholder)
  {
    NotFoundMessageNamesStatus(resp);
  }

  /** When nothing local names the user, an `auth/me` reply of 401 ends the session. */
  lemma UnauthorizedEndsSession(session: map<string, string>, claims: seq<Claim>, resp: HttpResponse,
                                me: Json<UserDto>, artworks: Result<seq<Artwork>, ApiError>)
    requires NeedsCurrentUser(session, claims)
    requires resp.status == 401
    ensures EndingOf(Resolve(session, claims, CurrentUserReply(Replied(resp), me)), artworks) == SessionEnded
  {
  }

  /** Any other failed `auth/me` status, with a reason phrase free of the digit 4, is
      not taken for a 404: the request ends at the gallery with an error message. */
  lemma OtherStatusLeavesProfile(session: map<string, string>, claims: seq<Claim>, resp: HttpResponse,
                                 me: Json<UserDto>, artworks: Result<seq<Artwork>, ApiError>)
    requires NeedsCurrentUser(session, claims)
    requires 100 <= resp.status <= 999 && resp.status != 401 && resp.status != 404
    requires !IsSuccessStatusCode(resp.status)
    requires Lacks(resp.reasonPhrase, '4')
    ensures EndingOf(Resolve(session, claims, CurrentUserReply(Replied(resp), me)), artworks) == ProfileFailed
  {
    OtherStatusMessageOmits404(resp);
  }
}
