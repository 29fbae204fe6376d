/** The records the gallery passes around (Models/, Models/DTO/, Models/ViewModels/).
    Navigation properties that point back up (a comment's artwork, a user's artworks)
    are dropped; `DateTime` values are opaque integers. */
module Models {
  import opened Wrappers
  import opened Text

  /** A user row of the local table, and the owner record nested in upstream replies. */
  datatype AppUser = AppUser(
    id: Int32,
    username: string,
    surname: string,
    email: string,
    password: string,
    verificationCode: Option<string>,
    enabled: bool,
    role: Option<string>)

  datatype Category = Category(id: Int32, name: string)

  datatype Like = Like(id: Int32, artworkId: Int32, appUserId: Int32)

  /** One record for the `Comment` class, which the repository declares twice with the
      same fields (Models/Comment.cs and Models/Comments.cs). */
  datatype Comment = Comment(
    id: Int32,
    content: string,
    createdAt: int,
    artworkId: Int32,
    appUserId: Int32,
    appUser: Option<AppUser>)

  /** An artwork as the upstream service returns it. `likeCount`, `commentCount`,
      `isLikedByCurrentUser` and `category` are read by the gateway and the admin
      dashboard although Models/Artwork.cs does not declare them. Collections the
      upstream may send as JSON `null` are options. */
  datatype Artwork = Artwork(
    id: Int32,
    title: string,
    imageUrl: string,
    promptText: string,
    createdAt: int,
    comments: Option<seq<Comment>>,
    likes: Option<seq<Like>>,
    appUserId: Option<Int32>,
    appUser: Option<AppUser>,
    categories: Option<seq<Category>>,
    likeCount: Int32,
    commentCount: Int32,
    isLikedByCurrentUser: bool,
    category: Option<Category>)

  /** `new Artwork()`: empty strings and empty collections. */
  const EmptyArtwork := Artwork(0, "", "", "", 0, Some([]), Some([]), None, None, Some([]), 0, 0, false, None)

  datatype UserDto = UserDto(
    id: Int32,
    username: string,
    email: string,
    surname: string,
    enabled: bool,
    roles: seq<string>)

  /** `new UserDTO()`. */
  const EmptyUserDto := UserDto(0, "", "", "", false, [])

  datatype LoginResponse = LoginResponse(
    token: string,
    id: Int32,
    username: string,
    email: string,
    surname: string,
    enabled: bool,
    roles: seq<string>)

  /** `new LoginResponseDTO()`. */
  const EmptyLoginResponse := LoginResponse("", 0, "", "", "", false, [])

  /** The register reply; its class is not among the model's source files and is used
      here with the one field the gateway sets. */
  datatype MessageResponse = MessageResponse(message: string)

  datatype InteractionResponse = InteractionResponse(message: string, isLiked: bool, likeCount: Int32)

  const EmptyInteractionResponse := InteractionResponse("", false, 0)

  datatype CommentDto = CommentDto(id: Int32, content: string, username: string, createdAt: int)

  const EmptyCommentDto := CommentDto(0, "", "", 0)

  /** A row of the `vw_detailedartlist` database view. */
  datatype DetailedArt = DetailedArt(id: Int32, title: string, categoryName: string, ownerName: string)

  /** A row of one of the other admin views (category statistics, active users, recent
      uploads, log summary), whose classes are not among the model's source files. */
  datatype ViewRow = ViewRow(cells: seq<string>)

  datatype AdminDashboard = AdminDashboard(
    detailedArts: seq<DetailedArt>,
    categoryStats: seq<ViewRow>,
    activeUsers: seq<ViewRow>,
    recentUploads: seq<ViewRow>,
    logSummary: seq<ViewRow>)

  /** `new AdminDashboardViewModel()`. */
  const EmptyAdminDashboard := AdminDashboard([], [], [], [], [])
}
