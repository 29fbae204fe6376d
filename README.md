# AI Art Gallery web tier: the gateway and page rules, modelled in Dafny

The gallery's web tier is an ASP.NET Core MVC application. Artworks, likes, comments and
categories live behind a separate upstream REST service. The web tier reaches that
service through one gateway class, `SpringApiClient`. It also keeps a small local user
table for its own cookie sign-in. This project models the rules the web tier decides
itself. The upstream service, the JSON decoder and the transport are inputs.

Modules, one per concern:

- `Wrappers`: `Option` for C# `null`, `Result` for a value or a thrown exception.
- `Text`: the .NET string behaviour the code relies on. This covers `Int32.ToString()`,
  `int.Parse`, ordinal `Contains`, `IsNullOrEmpty` and `IsNullOrWhiteSpace`. A Dafny
  `char` is a Unicode scalar value, while a C# `char` is a UTF-16 code unit, so lengths
  that C# counts are stated with `Utf16Length`.
- `Models`: the records (artwork, comment, user, DTOs). `Artwork` carries `likeCount`,
  `commentCount`, `isLikedByCurrentUser` and `category`. The gateway and the dashboard
  read these fields although `Models/Artwork.cs` does not declare them. The two
  declarations of `Comment` are one datatype.
- `Http`: one upstream exchange (`Replied(response)` or `Failed(error)`), what the JSON
  decoder made of the body, `EnsureSuccessStatusCode` and the exception message it
  builds.
- `Web`: what an action returns, and the `RequestContext` class. That class holds the
  session, TempData, ViewBag, model errors, the incoming claims and the issued cookie.
- `ApiClient`: the `SpringApiClient` class. It has one field for the shared
  `DefaultRequestHeaders.Authorization` slot and a log `sent` of every request handed to
  the transport, each with the header it carried. So a stale token carried from one call
  into the next is visible in the contracts. The pure parts are functions: preview and
  log truncation, the upload size gate and form, the `Register` message choice and the
  empty-list or `null` fallbacks.
- `Admin`: `ReadLastLines`, the dashboard figures (count, two checked sums, the five
  newest), and the token gate of the three database-view pages.
- `Profile`: the identity cascade of the profile page. It tries session, then claims,
  then `auth/me`, then a 404 placeholder. It also models how each exception ends the
  request.
- `ArtworkPages`: the gallery pages, the token gate shared by the five write actions,
  and the redirect and notice each action leaves.
- `Auth`: local registration and sign-in as operations on the `AppUsers` table, and the
  claims a sign-in issues.

Where the intended design of the gateway and its code differ, the model follows the
code:

- The design wants per-request credentials. The code writes one shared default header,
  and some calls never reset it. `AnonymousListingAfterSignedInCall` shows an anonymous
  listing going out with the token of the previous call on the same client. The client is
  registered scoped, so the calls that share it are those of one request.
- The design describes a normalising decoder and an error taxonomy. The code has
  neither. Every body goes to `System.Text.Json`, and failures surface as the .NET
  exceptions modelled in `Http.ErrorKind`.
- The design asks for a `PayloadTooLarge` error. The size gate throws
  `InvalidOperationException` instead.
- The design wants logout failures swallowed. `SpringApiClient.Logout` ignores the
  status but not a failed connection.
- The design wants a 401 on a read to give an empty result. `GetCurrentUser` throws
  `UnauthorizedAccessException` instead.

The user-facing strings in `SpringApiClient.cs` are stored in a Turkish single-byte code
page. The model uses the intended Turkish text (for example "Kayıt başarılı").

## Model

| member | source | states |
|---|---|---|
| `ApiClient.SpringApiClient.constructor` | Services/SpringApiClient.cs:14-23 | a new client has no authorization header and has sent nothing |
| `ApiClient.SpringApiClient.AddAuthHeader` | Services/SpringApiClient.cs:25-28 | afterwards the shared header is `Bearer token`, whatever it held before; nothing is sent |
| `ApiClient.SpringApiClient.LoginWithDetails` | Services/SpringApiClient.cs:73-94 | one `auth/login` request with the shared header untouched; every failure propagates; a JSON `null` gives the empty login response |
| `ApiClient.SpringApiClient.Login` | Services/SpringApiClient.cs:96-100 | the token of the login response, or the exception `LoginWithDetails` raised |
| `ApiClient.SpringApiClient.Register` | Services/SpringApiClient.cs:103-146 | one `auth/register` request, header untouched; the result is `RegisterReply`, whose failure message names the status as `HttpStatusCode.ToString()` does |
| `ApiClient.SpringApiClient.GetAllArts` | Services/SpringApiClient.cs:149-201 | a null or white-space token leaves the header as the previous call left it, otherwise it becomes `Bearer token`; the request carries that header; the result is the list or the empty list, never an exception |
| `ApiClient.SpringApiClient.GetCurrentUser` | Services/SpringApiClient.cs:204-244 | the header is reset to `Bearer token` before the one `auth/me` request; the result or exception is `CurrentUserReply` |
| `ApiClient.SpringApiClient.GetUserArtworks` | Services/SpringApiClient.cs:247-252 | header becomes `Bearer token`; the list, the empty list for JSON `null`, or the status or decoding exception |
| `ApiClient.SpringApiClient.GetArtworkDetails` | Services/SpringApiClient.cs:255-316 | same header rule as `GetAllArts`; the artwork or null on any failure |
| `ApiClient.SpringApiClient.GetArtworkComments` | Services/SpringApiClient.cs:319-371 | header reset to `Bearer token`; the comments or the empty list on any failure |
| `ApiClient.SpringApiClient.GetCategories` | Services/SpringApiClient.cs:374-399 | the header is never touched, so the request carries whatever the previous call left; the categories or the empty list |
| `ApiClient.SpringApiClient.CreateArtwork` | Services/SpringApiClient.cs:402-456 | the header is set first, even when the upload is then refused; a file over 10 MiB is refused; a null title throws; a non-empty image whose content type `MediaTypeHeaderValue` refuses throws its exception; a non-empty image whose file name is empty or white space throws the `ArgumentException` of `MultipartFormDataContent.Add`; in all four cases nothing is sent; otherwise exactly one `arts/create` request with the form of `Form`, and every failure propagates |
| `ApiClient.SpringApiClient.DeleteArtwork` | Services/SpringApiClient.cs:459-464 | header becomes `Bearer token`; one DELETE; succeeds exactly on a 2xx reply |
| `ApiClient.SpringApiClient.ToggleLike` | Services/SpringApiClient.cs:467-505 | header reset to `Bearer token`; one POST; every failure propagates; JSON `null` gives the empty interaction response |
| `ApiClient.SpringApiClient.AddComment` | Services/SpringApiClient.cs:508-518 | header becomes `Bearer token`; one POST carrying the content; every failure propagates |
| `ApiClient.SpringApiClient.DeleteComment` | Services/SpringApiClient.cs:521-526 | header becomes `Bearer token`; one DELETE; succeeds exactly on a 2xx reply |
| `ApiClient.SpringApiClient.Logout` | Services/SpringApiClient.cs:529-533 | header becomes `Bearer token`; the reply status is ignored and only a failed connection raises |
| `ApiClient.SpringApiClient.GetDatabaseView` | Services/SpringApiClient.cs:536-564 | header becomes `Bearer token`; the rows of the view or the empty list on any failure |
| `ApiClient.Preview` | Services/SpringApiClient.cs:283 | a body longer than `limit` UTF-16 code units becomes a proper prefix of it plus "..."; the prefix holds exactly `limit` code units, or one less when the cut would split a surrogate pair; a shorter body is unchanged; the result never exceeds limit+3 code units (limit 2000 here, 500 for comments at line 340) |
| `ApiClient.LoggedResponseBody` | Services/SpringApiClient.cs:56-69 | the body is logged exactly when asked for or when the status failed, and verbatim only if it has at most 1000 UTF-16 code units; a longer body is logged as its length in code units only |
| `ApiClient.ListOrEmpty` | Services/SpringApiClient.cs:177-200 | the decoded list on a 2xx reply with a JSON array, the empty list on a failed status, a failed connection, `null` or an undecodable body |
| `ApiClient.DetailsOrNull` | Services/SpringApiClient.cs:272-315 | an artwork exactly when the reply is 2xx and decodes to one, null otherwise |
| `ApiClient.CurrentUserReply` | Services/SpringApiClient.cs:217-243 | 401 becomes `UnauthorizedAccessException`; other failed statuses the `EnsureSuccessStatusCode` exception; connection failures propagate; success exactly on a 2xx reply that decodes |
| `ApiClient.RegisterReply` | Services/SpringApiClient.cs:120-145 | a failed status throws "Register failed: " plus the status's `HttpStatusCode` member name (the number for a status the enum does not declare); a JSON reply gives the decoded message or "Kayıt başarılı" for `null`; any other media type gives the raw body as the message |
| `ApiClient.RegisterMessageChoice` | Services/SpringApiClient.cs:131-143 | a JSON `null` reply yields "Kayıt başarılı"; a `text/plain` reply is taken word for word, whatever the decoder would have said |
| `ApiClient.CreateArtworkOutcome` | Services/SpringApiClient.cs:411-455 | a file over 10 MiB gives the size exception; a refused image content type gives the `MediaTypeHeaderValue` exception; an accepted one with a blank file name gives the `ArgumentException` of `MultipartFormDataContent.Add`; the upload succeeds exactly when it is sent (file within the gate, title present, content type accepted, file name not blank) and the reply is 2xx and decodes |
| `ApiClient.MediaTypeExamples` | Services/SpringApiClient.cs:424 | `image/png` is accepted; an empty content type, one with a trailing space and one with a parameter are refused |
| `ApiClient.FileNameExamples` | Services/SpringApiClient.cs:425 | a part whose file name is a single space is refused by `MultipartFormDataContent.Add`, and `a.png` is accepted |
| `ApiClient.Form` | Services/SpringApiClient.cs:417-431 | the parts in order: `title`, `promptText` (null as ""), `imageFile` exactly when the file is non-null and non-empty, then one `categoryIds` part per id in list order, and nothing else |
| `ApiClient.BuildForm` | Services/SpringApiClient.cs:417-431 | the loop of `Add` calls builds exactly the form `Form` describes |
| `ApiClient.FormFieldCounts` | Services/SpringApiClient.cs:421-431 | the form holds exactly `\|categoryIds\|` category parts, not one delimited string, and one image part exactly when the file is non-null and non-empty |
| `ApiClient.AnonymousListingAfterSignedInCall` | Services/SpringApiClient.cs:153-157 | after `GetCurrentUser(t)`, an anonymous `GetAllArts` goes out carrying `Bearer t` |
| `ApiClient.CategoriesInheritLastToken` | Services/SpringApiClient.cs:374-381 | `GetCategories` after a like toggle carries the toggling user's token; on a fresh client it carries none |
| `ApiClient.UploadAtAndOverLimit` | Services/SpringApiClient.cs:411-415 | a file of exactly 10 MiB is sent; one byte more is refused with `InvalidOperationException` and nothing sent |
| `Http.EnsureSuccess` | Services/SpringApiClient.cs:459-464 | the reply exactly when its status is 2xx; otherwise the status exception with the .NET message, or the connection failure |
| `Http.JsonReply` | Services/SpringApiClient.cs:508-518 | succeeds exactly when the status is 2xx and the body decodes; JSON `null` gives the fallback value |
| `Http.NotFoundMessageNamesStatus` | Controllers/ProfileController.cs:101 | the exception for a 404 status has a message containing "404", whatever the reason phrase |
| `Http.OtherStatusMessageOmits404` | Controllers/ProfileController.cs:101 | for any other three-digit status whose reason phrase has no digit 4, the message does not contain "404" |
| `Text.ParseDecimalRoundTrip` | Controllers/AuthController.cs:71 | `int.Parse` of what `ToString()` printed gives back the same `int` |
| `Text.ParseBlankFails` | Controllers/ProfileController.cs:68 | an identifier of white space alone does not parse |
| `Text.EmptyIsBlank` | Services/SpringApiClient.cs:153 | every null-or-empty token is null-or-white-space, but `" "` passes the controllers' empty check and fails the client's white-space check |
| `Text.Utf16Prefix` | Services/SpringApiClient.cs:283 | `Substring(0, n)`: a prefix of at most `n` UTF-16 code units, the whole string when it fits, and otherwise one that the next character would overflow |
| `Text.Utf16LengthOfBmp` | Services/SpringApiClient.cs:62 | on text without characters outside the Basic Multilingual Plane, `Length` equals the number of characters |
| `Web.FindFirst` | Controllers/ProfileController.cs:78-81 | the value of the first claim of the type, and `None` exactly when no claim has that type |
| `Admin.LastLines` | Controllers/AdminController.cs:239 | for lines ≤ 0 nothing; otherwise the last `min(lines, count)` lines, as a suffix of the file in its own order |
| `Admin.LastLinesAsWritten` | Controllers/AdminController.cs:239 | the code as written, with the unchecked 32-bit subtraction, still returns a suffix of the file |
| `Admin.LastLinesAsWrittenAgrees` | Controllers/AdminController.cs:239 | the code as written agrees with `LastLines` whenever `count - lines` fits an `int` |
| `Admin.LastLinesMinValueShowsWholeFile` | Controllers/AdminController.cs:239 | with `lines = int.MinValue` the code as written returns the whole file, where `LastLines` returns nothing |
| `Admin.ReadLastLines` | Controllers/AdminController.cs:225-243 | the line-collecting loop followed by the tail gives exactly `LastLinesAsWritten` of the file's lines (the whole file for `int.MinValue`), and `LastLines` whenever `count - lines` fits an `int` |
| `Admin.CheckedSum` | Controllers/AdminController.cs:36-37 | LINQ's checked `Sum`: when it returns a value, that value is the true sum |
| `Admin.CheckedSumOfCounts` | Controllers/AdminController.cs:36-37 | over non-negative counts the checked sum overflows exactly when the true total exceeds `int.MaxValue` |
| `Admin.SortOrders` | Controllers/AdminController.cs:47 | the stable descending sort orders newest first |
| `Admin.SortPermutes` | Controllers/AdminController.cs:47 | the sort is a permutation of its input |
| `Admin.SortStable` | Controllers/AdminController.cs:47 | artworks with the same `CreatedAt` keep their input order |
| `Admin.RecentAreLatest` | Controllers/AdminController.cs:47 | `RecentArtworks` holds `min(5, n)` artworks, all from the input, newest first, and no artwork left out is newer than one kept |
| `Admin.DashboardFigures` | Controllers/AdminController.cs:35-62 | with non-negative counts whose sums fit an `int`: the artwork count, the two sums and "Çalışıyor"; otherwise the four counters are 0 and the status is "Hata" |
| `Admin.Index` | Controllers/AdminController.cs:24-65 | one `arts/public` request; it carries `Bearer token` when the session holds a token that is not white space, and otherwise whatever header the client already held, which stays; ViewBag is exactly `DashboardBag` of the listed artworks; nothing else in the request context changes |
| `Admin.DatabaseViews` | Controllers/AdminController.cs:246-278 | with a null or empty token: the session-expired message and a login redirect with no request sent and the header untouched; otherwise the `vw_categorystats`, `vw_activeusers` and `vw_recentuploads` requests in that order, each carrying `Bearer token`, and the dashboard of their rows; only TempData may change in the context |
| `Admin.DetailedArts` | Controllers/AdminController.cs:281-304 | with no token: a login redirect and no request; otherwise one `vw_detailedartlist` request carrying `Bearer token`, which stays as the header, and its rows |
| `Admin.SystemLogs` | Controllers/AdminController.cs:307-330 | with no token: a login redirect and no request; otherwise one `vw_logsummary` request carrying `Bearer token`, which stays as the header, and its rows |
| `Profile.UserFromFields` | Controllers/ProfileController.cs:66-72 | succeeds exactly when the identifier is null, empty or parses; then the id is the parsed identifier (0 when missing), the user name is kept, email and surname are the fields or "" when null, `Enabled` is false and `Roles` empty; a bad identifier is a `FormatException` |
| `Profile.Resolve` | Controllers/ProfileController.cs:55-117 | the record comes from the session exactly when the session names the user; from claims exactly when only the claims do; from `auth/me` or the 404 placeholder only when neither does, and then a successful `auth/me` reply is the record chosen and any other failure is raised unchanged; a 404-bearing `HttpRequestException` is never raised |
| `Profile.EndingOf` | Controllers/ProfileController.cs:120-146 | the page shows exactly when a record was chosen and the artworks loaded; `UnauthorizedAccessException` alone ends the session |
| `Profile.EndingTempData` | Controllers/ProfileController.cs:115-144 | the placeholder leaves its warning; the session-expired and generic failures leave their own error messages; a shown page with a real record leaves TempData alone |
| `Profile.ChooseUser` | Controllers/ProfileController.cs:55-118 | `auth/me` is requested exactly when neither the session nor the claims name the user, and the record is `Resolve` of what it answered |
| `Profile.Index` | Controllers/ProfileController.cs:22-147 | without a token: the log-in message and a login redirect, with no request; otherwise the requests of `IndexRequests`, the header `Bearer token` if any request went out and unchanged otherwise, and the page, TempData, session (cleared only on `UnauthorizedAccessException`) and ViewBag of `EndingOf`; model errors, claims and cookies are untouched |
| `Profile.RecordEnding` | Controllers/ProfileController.cs:127-146 | writes the ending: the user into ViewBag on success, the session cleared on the expired-session exit |
| `Profile.SessionTakesPriority` | Controllers/ProfileController.cs:62-73 | when the session names the user, neither the claims nor `auth/me` affect the result, and email and surname default to "" |
| `Profile.ClaimsComeSecond` | Controllers/ProfileController.cs:78-93 | without a session name, claims that name the user decide, whatever `auth/me` would say, with the same defaults |
| `Profile.SessionIdentifierRoundTrip` | Controllers/ProfileController.cs:68 | a session identifier printed from `n` gives a record with `Id == n` |
| `Profile.LocalSignInProfile` | Controllers/ProfileController.cs:78-93 | a user signed in by the local form gets their own name and id, and an empty email and surname, since that cookie carries neither |
| `Profile.NotFoundGivesPlaceholder` | Controllers/ProfileController.cs:98-116 | when nothing local names the user, a 404 from `auth/me` yields the placeholder `(0, "Kullanıcı", "Bilinmiyor", "")` |
| `Profile.UnauthorizedEndsSession` | Controllers/ProfileController.cs:134-139 | when nothing local names the user, a 401 from `auth/me` ends at the expired-session exit |
| `Profile.OtherStatusLeavesProfile` | Controllers/ProfileController.cs:141-146 | any other failed status (reason phrase without a 4) ends at the gallery with the generic error |
| `ArtworkPages.Index` | Controllers/ArtworkController.cs:18-23 | one `arts/public` request, carrying `Bearer token` when the session holds a token that is not white space and otherwise the header the client already held; the view shows the list or the empty list |
| `ArtworkPages.DisplayedLikeCountIgnoresCounters` | Controllers/ArtworkController.cs:37-38 | the like count shown is the number of like records (0 when absent), whatever the upstream counter or like flag say |
| `ArtworkPages.Details` | Controllers/ArtworkController.cs:26-41 | NotFound exactly when the gateway returned null; otherwise the artwork, `LikeCount` of its like records and `IsLiked` false |
| `ArtworkPages.CreateForm` | Controllers/ArtworkController.cs:46-52 | the form with the category list; the categories request carries whatever header the client held |
| `ArtworkPages.Create` | Controllers/ArtworkController.cs:58-89 | no token: a login redirect and no request; a missing or empty file: a model error and the category reload, with `CreateArtwork` not called; otherwise the upload with a null selection sent as empty, then the success notice and gallery redirect, or the exception text (size, null title, refused content type, blank file name or upstream failure) as a model error and the category reload |
| `ArtworkPages.AcceptedUploadCarriesImage` | Controllers/ArtworkController.cs:69-77 | a non-empty file within the limit whose content type .NET accepts and whose file name is not blank always goes out with one image part and one category part per selected id |
| `ArtworkPages.RefusedContentTypeShowsError` | Controllers/ArtworkController.cs:77-88 | a non-empty file within the limit whose content type .NET refuses is never uploaded, and the page shows that exception's message |
| `ArtworkPages.BlankFileNameShowsError` | Services/SpringApiClient.cs:423-425 | a non-empty file within the limit with an accepted content type but a file name that is empty or white space is never uploaded, and `CreateArtwork` throws the `ArgumentException` of `MultipartFormDataContent.Add` |
| `ArtworkPages.OversizeUploadShowsSizeError` | Controllers/ArtworkController.cs:77-88 | a file over 10 MiB is never uploaded and the page shows the size message |
| `ArtworkPages.DeleteEndings` | Controllers/ArtworkController.cs:104-114 | delete goes to the gallery on success and to the artwork's details on failure, with one notice that is an error exactly on failure |
| `ArtworkPages.InteractionsReturnToDetails` | Controllers/ArtworkController.cs:130-190 | like, comment and comment deletion always return to the artwork's details and leave an error notice exactly on failure |
| `ArtworkPages.Delete` | Controllers/ArtworkController.cs:95-115 | no token: a login redirect and no request; otherwise one DELETE and the ending of `DeleteEnding` |
| `ArtworkPages.ToggleLike` | Controllers/ArtworkController.cs:121-140 | no token: a login redirect and no request; otherwise one like request and the ending of `ToggleLikeEnding` |
| `ArtworkPages.AddComment` | Controllers/ArtworkController.cs:146-165 | no token: a login redirect and no request; otherwise one comment request and the ending of `AddCommentEnding` |
| `ArtworkPages.DeleteComment` | Controllers/ArtworkController.cs:171-191 | no token: a login redirect and no request; otherwise one DELETE and the ending of `DeleteCommentEnding` |
| `Auth.FirstMatch` | Controllers/AuthController.cs:62-63 | `None` exactly when no row has both the email and the password; otherwise the first such row in the table's insertion order |
| `Auth.LoginClaims` | Controllers/AuthController.cs:68-73 | three claims exactly when the role is not null (a null role makes `new Claim` throw) |
| `Auth.LoginClaimsIdentify` | Controllers/AuthController.cs:68-73 | the claims give Name = `Username`, NameIdentifier = the id in decimal (it parses back to the id), Role = `Role`, and no email or surname |
| `Auth.Register` | Controllers/AuthController.cs:28-49 | invalid model state changes nothing; a taken email sets the error and leaves the table unchanged; otherwise exactly one row is appended, with role "User", and the earlier rows are unchanged; only ViewBag may change in the context |
| `Auth.Login` | Controllers/AuthController.cs:59-89 | no matching row: the error message and no sign-in; otherwise the first match is signed in with `LoginClaims`; only ViewBag and the issued cookie may change |
| `Auth.Logout` | Controllers/AuthController.cs:92-96 | the cookie is removed and the login page follows; nothing else in the context changes |
| `Auth.RegisterKeepsEmailsDistinct` | Controllers/AuthController.cs:34-44 | a table with distinct emails still has distinct emails after a registration |
| `Auth.RegisteredUserCanLogIn` | Controllers/AuthController.cs:40-44 | after a successful registration the new email and password sign in as the new row, and its claims can be built |

## Left out

- HTTP transport, `System.Text.Json` and `ILogger` are foreign code. Replies and decoded values are inputs, and logging is modelled only where it decides something: which bodies are logged and the truncation of previews.
- Concurrency on the shared `HttpClient` is not modelled. The header is modelled as state that calls pass from one to the next.
- Floating point size reporting (the MB and KB log lines and the "> 5 MB" warning) is not modelled.
- `ApiClient.SizeMessage`: the `F2` number in the size-gate exception is printed with "." as the decimal separator, as the invariant and English cultures do. Program.cs sets no culture, so on a server whose culture is Turkish .NET prints "," instead.
- `ApiClient.RegisterReply`: for 300, 301, 302, 303 and 307, which `HttpStatusCode` declares under two names each, .NET does not specify which name `ToString()` returns; the model uses the first of each pair (`MultipleChoices`, `MovedPermanently`, `Found`, `SeeOther`, `TemporaryRedirect`).
- `ApiClient.Preview`: when the cut at `limit` code units falls inside a surrogate pair, .NET keeps the pair's lone first half. A Dafny string cannot hold a lone surrogate, so the model's prefix stops one code unit earlier, before the pair.
- `ApiClient.MediaTypeError`: the two exception messages, and that of a blank file name, are those of .NET 8; other runtime versions word them differently.
- `ApiClient.CreateArtworkOutcome`: an image part sent with no Content-Type header cannot be represented, since the model's content type is a string. .NET then passes null to `MediaTypeHeaderValue`, which throws `ArgumentNullException`.
- `Auth.FirstMatch`: `FirstOrDefaultAsync` without `OrderBy` promises no row order. The model reads the table in insertion order.
- The log-file pages of the admin controller (`Logs`, `ViewLog`, `DownloadLog`, `ClearLog`, `DeleteLog`) are file-system I/O. Only the tail logic of `ReadLastLines` is modelled. The lines a `StreamReader` yields are its input.
- The admin dashboard's `*.log` file count is an input, for the same reason.
- Program.cs, Data/AppDbContext.cs, the EF migration and `[Authorize]` are not part of this model. Only the in-memory user table of the auth controller stands for the database.
- Controllers/MLController.cs is not part of this model, since it is a network proxy to another service.
- SPRING-BOOT-SecurityConfig.java is not part of this model, since its behaviour is Spring Security's.
- The registration timestamp (`DateTime.UtcNow` at Controllers/AuthController.cs:41) is dropped: Models/AppUser.cs declares no such field, and the model's user record has none. The `CreatedAt` of artworks and comments is an opaque integer.
- `Profile.Resolve`: the claims are one identity, so `User.Identity?.Name` and the first Name claim coincide. A principal with several identities is not modelled.
- `Profile.UserFromFields`: the message of the `FormatException` is a constant. No ending depends on it.
- `ApiClient.SpringApiClient.GetArtworkComments`: a decoded comment whose `Content` is JSON `null` makes the logging loop throw, and the call then returns the empty list. Comments here always have content, so that case is not modelled.
- `ApiClient.SpringApiClient.LoginWithDetails`: a login reply whose `roles` is JSON `null` makes the logging `string.Join` throw. Roles here are always a list, so that case is not modelled.
- `ApiClient.SpringApiClient.GetAllArts`: the decoder's options (case-insensitive names, numbers read from strings) are part of the foreign decoder. They are folded into the decoded input.
- The upstream service's side of every call (what it stores, how it answers) is an input. So is the database's choice of a new user's id.

## Findings

| source | as written | input that shows it | evidently intended | confidence | as-written member | corrected member |
|---|---|---|---|---|---|---|
| Controllers/AdminController.cs:239 | `allLines.Skip(Math.Max(0, allLines.Count - lines))` with an unchecked `int` subtraction | `ViewLog?lines=-2147483648` on a non-empty log: `Count - lines` wraps to a negative number, nothing is skipped, and the whole file is shown | a non-positive `lines` shows no line, like every other negative value | medium, not executed | `Admin.LastLinesMinValueShowsWholeFile` | `Admin.LastLines` |
