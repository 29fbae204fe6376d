/** Local registration and cookie sign-in (Controllers/AuthController.cs), over the
    application's own user table. */
module Auth {
  import opened Wrappers
  import opened Text
  import opened Models
  import opened Web

  /** The `AppUsers` table, its rows in insertion order. */
  class UserTable {
    var rows: seq<AppUser>

    constructor (rows: seq<AppUser>)
      ensures this.rows == rows
    {
      this.rows := rows;
    }
  }

  const DefaultRole := "User"
  const DuplicateEmailMessage := "Bu email zaten kayıtlı."
  const BadCredentialsMessage := "Email veya şifre hatalı!"
  /** What `new Claim(type, null)` throws. */
  const NullClaimValueMessage := "Value cannot be null. (Parameter 'value')"
  const ErrorKey := "Error"

  /** Some row has this email. */
  predicate EmailTaken(rows: seq<AppUser>, email: string) {
    exists i :: 0 <= i < |rows| && rows[i].email == email
  }

  predicate Matches(u: AppUser, email: string, password: string) {
    u.email == email && u.password == password
  }

  /** `FirstOrDefault(u => u.Email == email && u.Password == password)`. */
  function FirstMatch(rows: seq<AppUser>, email: string, password: string): (r: Option<AppUser>)
    ensures r.None? <==> forall i :: 0 <= i < |rows| ==> !Matches(rows[i], email, password)
    ensures r.Some? ==> exists i :: 0 <= i < |rows| && rows[i] == r.value && Matches(r.value, email, password)
                          && forall j :: 0 <= j < i ==> !Matches(rows[j], email, password)
  {
    if |rows| == 0 then None
    else if Matches(rows[0], email, password) then Some(rows[0])
    else
      var r := FirstMatch(rows[1..], email, password);
      assert r.None? ==> forall i :: 0 <= i < |rows| ==> !Matches(rows[i], email, password) by {
        if r.None? {
          forall i | 0 <= i < |rows| ensures !Matches(rows[i], email, password) {
            if i > 0 {
              assert rows[i] == rows[1..][i - 1];
            }
          }
        }
      }
      assert r.Some? ==> exists i :: 1 <= i < |rows| && rows[i] == r.value && Matches(r.value, email, password)
                          && forall j :: 0 <= j < i ==> !Matches(rows[j], email, password) by {
        if r.Some? {
          var i :| 0 <= i < |rows[1..]| && rows[1..][i] == r.value && Matches(r.value, email, password)
                   && forall j :: 0 <= j < i ==> !Matches(rows[1..][j], email, password);
          assert rows[i + 1] == r.value;
          forall j | 0 <= j < i + 1 ensures !Matches(rows[j], email, password) {
            if j > 0 {
              assert rows[j] == rows[1..][j - 1];
            }
          }
        }
      }
      r
  }

  /** The row a successful registration adds: the posted user with the default role and
      the identifier the database generates. */
  function NewRow(user: AppUser, generatedId: Int32): AppUser {
    user.(id := generatedId, role := Some(DefaultRole))
  }

  /** The claims a sign-in cookie carries for a user: name, identifier, role. `None`
      when the role is null, since `new Claim` refuses a null value. */
  function LoginClaims(u: AppUser): (r: Option<seq<Claim>>)
    ensures r.Some? <==> u.role.Some?
    ensures r.Some? ==> |r.value| == 3
  {
    if u.role.None? then None
    else Some([Claim(NameClaim, u.username), Claim(NameIdentifierClaim, DecimalString(u.id)), Claim(RoleClaim, u.role.value)])
  }

  /** The claims cookie names the user and carries the identifier so that parsing it
      gives the user's id back, and the role. */
  lemma LoginClaimsIdentify(u: AppUser)
    requires u.role.Some?
    ensures var claims := LoginClaims(u).value;
      && FindFirst(claims, NameClaim) == Some(u.username)
      && FindFirst(claims, RoleClaim) == u.role
      && FindFirst(claims, NameIdentifierClaim).Some?
      && ParseInt32(FindFirst(claims, NameIdentifierClaim).value) == Some(u.id)
      && FindFirst(claims, EmailClaim) == None
      && FindFirst(claims, SurnameClaim) == None
  {
    ParseDecimalRoundTrip(u.id);
    var claims := LoginClaims(u).value;
    assert |NameClaim| == 58 && |NameIdentifierClaim| == 68 && |EmailClaim| == 66;
    assert |SurnameClaim| == 61 && |RoleClaim| == 60;
    FindFirstOfThree(claims, NameClaim);
    FindFirstOfThree(claims, NameIdentifierClaim);
    FindFirstOfThree(claims, RoleClaim);
    FindFirstOfThree(claims, EmailClaim);
    FindFirstOfThree(claims, SurnameClaim);
  }

  lemma FindFirstOfThree(claims: seq<Claim>, t: string)
    requires |claims| == 3
    ensures FindFirst(claims, t) ==
      if claims[0].claimType == t then Some(claims[0].value)
      else if claims[1].claimType == t then Some(claims[1].value)
      else if claims[2].claimType == t then Some(claims[2].value)
      else None
  {
    assert claims[1..][0] == claims[1];
    assert claims[1..][1..][0] == claims[2];
    assert |claims[1..][1..][1..]| == 0;
  }

  /** `Register` (POST). `modelValid` is the outcome of model binding and validation;
      `generatedId` is the key the database assigns on insert. */
  method Register(ctx: RequestContext, db: UserTable, user: AppUser, modelValid: bool, generatedId: Int32)
    returns (result: ActionResult)
    modifies ctx`viewBag, db
    ensures !modelValid ==> result == ViewResult(AppUserItem(user)) && db.rows == old(db.rows) && ctx.viewBag == old(ctx.viewBag)
    ensures modelValid && EmailTaken(old(db.rows), user.email) ==>
              && result == ViewResult(AppUserItem(user))
              && db.rows == old(db.rows)
              && ctx.viewBag == old(ctx.viewBag)[ErrorKey := Message(DuplicateEmailMessage)]
    ensures modelValid && !EmailTaken(old(db.rows), user.email) ==>
              && result == LoginRedirect
              && db.rows == old(db.rows) + [NewRow(user, generatedId)]
              && ctx.viewBag == old(ctx.viewBag)
  {
    if !modelValid {
      return ViewResult(AppUserItem(user));
    }
    var taken := false;
    var i := 0;
    while i < |db.rows|
      invariant 0 <= i <= |db.rows|
      invariant db.rows == old(db.rows)
      invariant taken <==> exists k :: 0 <= k < i && db.rows[k].email == user.email
    {
      if db.rows[i].email == user.email {
        taken := true;
      }
      i := i + 1;
    }
    if taken {
      ctx.viewBag := ctx.viewBag[ErrorKey := Message(DuplicateEmailMessage)];
      return ViewResult(AppUserItem(user));
    }
    db.rows := db.rows + [NewRow(user, generatedId)];
    result := LoginRedirect;
  }

  /** `Login` (POST): the first row with this email and password signs in, with the
      claims of `LoginClaims`; no such row shows the form again with an error. */
  method Login(ctx: RequestContext, db: UserTable, email: string, password: string)
    returns (result: ActionResult)
    modifies ctx`viewBag, ctx`issuedCookie
    ensures FirstMatch(db.rows, email, password).None? ==>
              && result == ViewResult(NoModel)
              && ctx.viewBag == old(ctx.viewBag)[ErrorKey := Message(BadCredentialsMessage)]
              && ctx.issuedCookie == old(ctx.issuedCookie)
    ensures FirstMatch(db.rows, email, password).Some? ==>
              var claims := LoginClaims(FirstMatch(db.rows, email, password).value);
              && ctx.viewBag == old(ctx.viewBag)
              && (claims.Some? ==> result == GalleryRedirect && ctx.issuedCookie == claims)
              && (claims.None? ==> result == ServerError(NullClaimValueMessage) && ctx.issuedCookie == old(ctx.issuedCookie))
  {
    var user := FirstMatch(db.rows, email, password);
    if user.None? {
      ctx.viewBag := ctx.viewBag[ErrorKey := Message(BadCredentialsMessage)];
      return ViewResult(NoModel);
    }
    var claims := LoginClaims(user.value);
    if claims.None? {
      return ServerError(NullClaimValueMessage);
    }
    ctx.issuedCookie := claims;
    result := GalleryRedirect;
  }

  /** `Logout`: drop the authentication cookie and go to the login page. */
  method Logout(ctx: RequestContext) returns (result: ActionResult)
    modifies ctx`signedOut
    ensures ctx.signedOut && result == LoginRedirect
  {
    ctx.signedOut := true;
    result := LoginRedirect;
  }

  // ---------------------------------------------------------------------------
  // Properties of the table

  function Registered(rows: seq<AppUser>, user: AppUser, generatedId: Int32): seq<AppUser> {
    if EmailTaken(rows, user.email) then rows else rows + [NewRow(user, generatedId)]
  }

  /** Registration never lets two rows share an email: if the table had distinct
      emails before, it has them after. */
  lemma RegisterKeepsEmailsDistinct(rows: seq<AppUser>, user: AppUser, generatedId: Int32)
    requires forall i, j :: 0 <= i < j < |rows| ==> rows[i].email != rows[j].email
    ensures var after := Registered(rows, user, generatedId);
      forall i, j :: 0 <= i < j < |after| ==> after[i].email != after[j].email
  {
    var after := Registered(rows, user, generatedId);
    if !EmailTaken(rows, user.email) {
      forall i, j | 0 <= i < j < |after| ensures after[i].email != after[j].email {
        if j == |rows| {
          assert after[i] == rows[i];
        }
      }
    }
  }

  /** Once registered, the new user's email and password sign in as that user, with
      the default role. */
  lemma RegisteredUserCanLogIn(rows: seq<AppUser>, user: AppUser, generatedId: Int32)
    requires !EmailTaken(rows, user.email)
    ensures var after := Registered(rows, user, generatedId);
      && FirstMatch(after, user.email, user.password) == Some(NewRow(user, generatedId))
      && LoginClaims(NewRow(user, generatedId)).Some?
  {
    var after := Registered(rows, user, generatedId);
    var r := FirstMatch(after, user.email, user.password);
    assert Matches(after[|rows|], user.email, user.password);
    assert forall j :: 0 <= j < |rows| ==> !Matches(after[j], user.email, user.password) by {
      forall j | 0 <= j < |rows| ensures !Matches(after[j], user.email, user.password) {
        assert after[j] == rows[j];
      }
    }
    var i :| 0 <= i < |after| && after[i] == r.value && Matches(r.value, user.email, user.password)
             && forall j :: 0 <= j < i ==> !Matches(after[j], user.email, user.password);
    assert i == |rows|;
  }
}
