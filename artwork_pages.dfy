/** The gallery pages (Controllers/ArtworkController.cs): listing, details, and the
    five write actions, each behind the same token gate, each turning the gateway's
    success or exception into a redirect and a notice in TempData. */
module ArtworkPages {
  import opened Wrappers
  import opened Text
  import opened Models
  import opened Http
  import opened Web
  import opened ApiClient

  const CategoriesKey := "Categories"
  const LikeCountKey := "LikeCount"
  const IsLikedKey := "IsLiked"

  const ChooseImageMessage := "Lütfen bir görsel dosyası seçin."
  const CreateFailedPrefix := "Eser paylaşılırken bir hata oluştu: "
  const SharedMessage := "Eseriniz başarıyla paylaşıldı!"
  const DeletedMessage := "Eser başarıyla silindi."
  const DeleteFailedMessage := "Eser silinirken bir hata oluştu."
  const LikeFailedMessage := "Beğeni işlemi başarısız oldu."
  const CommentFailedMessage := "Yorum eklenirken bir hata oluştu."
  const CommentDeletedMessage := "Yorum başarıyla silindi."
  const CommentDeleteFailedMessage := "Yorum silinirken bir hata oluştu."

  /** `RedirectToAction("Details", new { id })`. */
  function DetailsPage(id: Int32): ActionResult {
    RedirectToAction("Details", "Artwork", Some(id))
  }

  /** A message left in TempData for the next page. */
  datatype Notice = Notice(key: string, text: string)

  function Notify(tempData: map<string, string>, notice: Option<Notice>): map<string, string> {
    match notice
    case None => tempData
    case Some(n) => tempData[n.key := n.text]
  }

  /** Where a write action ends and the notice it leaves, once the gateway call has
      returned (`ok`) or thrown. */
  datatype WriteEnding = WriteEnding(result: ActionResult, notice: Option<Notice>)

  function DeleteEnding(id: Int32, ok: bool): WriteEnding {
    if ok then WriteEnding(GalleryRedirect, Some(Notice(SuccessMessageKey, DeletedMessage)))
    else WriteEnding(DetailsPage(id), Some(Notice(ErrorMessageKey, DeleteFailedMessage)))
  }

  function ToggleLikeEnding(id: Int32, ok: bool): WriteEnding {
    WriteEnding(DetailsPage(id), if ok then None else Some(Notice(ErrorMessageKey, LikeFailedMessage)))
  }

  function AddCommentEnding(artworkId: Int32, ok: bool): WriteEnding {
    WriteEnding(DetailsPage(artworkId), if ok then None else Some(Notice(ErrorMessageKey, CommentFailedMessage)))
  }

  function DeleteCommentEnding(artworkId: Int32, ok: bool): WriteEnding {
    if ok then WriteEnding(DetailsPage(artworkId), Some(Notice(SuccessMessageKey, CommentDeletedMessage)))
    else WriteEnding(DetailsPage(artworkId), Some(Notice(ErrorMessageKey, CommentDeleteFailedMessage)))
  }

  /** Deleting an artwork returns to the gallery on success and to the artwork's own
      page on failure; either way exactly one notice is left, an error exactly on failure. */
  lemma DeleteEndings(id: Int32, ok: bool)
    ensures DeleteEnding(id, ok).result == (if ok then GalleryRedirect else DetailsPage(id))
    ensures DeleteEnding(id, ok).notice.Some?
    ensures DeleteEnding(id, ok).notice.value.key == ErrorMessageKey <==> !ok
  {
  }

  /** Liking, commenting and deleting a comment always come back to the artwork's page,
      and leave an error notice exactly when the gateway call failed. */
  lemma InteractionsReturnToDetails(id: Int32, ok: bool)
    ensures ToggleLikeEnding(id, ok).result == DetailsPage(id)
    ensures AddCommentEnding(id, ok).result == DetailsPage(id)
    ensures DeleteCommentEnding(id, ok).result == DetailsPage(id)
    ensures (ToggleLikeEnding(id, ok).notice.Some? && ToggleLikeEnding(id, ok).notice.value.key == ErrorMessageKey) <==> !ok
    ensures (AddCommentEnding(id, ok).notice.Some? && AddCommentEnding(id, ok).notice.value.key == ErrorMessageKey) <==> !ok
    ensures (DeleteCommentEnding(id, ok).notice.Some? && DeleteCommentEnding(id, ok).notice.value.key == ErrorMessageKey) <==> !ok
  {
  }

  /** Record a write action's ending. */
  method Finish(ctx: RequestContext, ending: WriteEnding) returns (result: ActionResult)
    modifies ctx`tempData
    ensures result == ending.result
    ensures ctx.tempData == Notify(old(ctx.tempData), ending.notice)
  {
    if ending.notice.Some? {
      ctx.tempData := ctx.tempData[ending.notice.value.key := ending.notice.value.text];
    }
    result := ending.result;
  }

  // ---------------------------------------------------------------------------
  // Reading pages

  /** `Index`: the public artworks, with whatever the session's token brings. */
  method Index(ctx: RequestContext, api: SpringApiClient, reply: Exchange, decoded: Json<seq<Artwork>>)
    returns (result: ActionResult)
    modifies api
    ensures result == ViewResult(ArtworkList(ListOrEmpty(reply, decoded)))
    ensures api.authorization == if NullOrWhiteSpace(ctx.Token()) then old(api.authorization) else Some(Bearer(ctx.Token().value))
    ensures api.sent == old(api.sent) + [Request(Get, "arts/public", api.authorization, NoBody)]
  {
    var arts := api.GetAllArts(ctx.Token(), reply, decoded);
    result := ViewResult(ArtworkList(arts));
  }

  /** The like count the details page shows: the number of like records the upstream
      sent, 0 when it sent none. */
  function DisplayedLikeCount(a: Artwork): nat {
    if a.likes.Some? then |a.likes.value| else 0
  }

  /** The count shown on the details page comes from the like records alone: an
      artwork whose upstream counter says 7 but which carries no like records shows 0,
      and the counter and the viewer's own like flag never change what is shown. */
  lemma DisplayedLikeCountIgnoresCounters(a: Artwork, likeCount: Int32, liked: bool)
    ensures DisplayedLikeCount(a.(likeCount := likeCount, isLikedByCurrentUser := liked)) == DisplayedLikeCount(a)
    ensures DisplayedLikeCount(a.(likes := None, likeCount := 7)) == 0
    ensures a.likes.Some? ==> DisplayedLikeCount(a) == |a.likes.value|
  {
  }

  /** `Details`: 404 when the gateway found nothing; otherwise the artwork, with the
      like count of its like records and the like flag set to false. */
  method Details(ctx: RequestContext, api: SpringApiClient, id: Int32, reply: Exchange, decoded: Json<Artwork>)
    returns (result: ActionResult)
    modifies ctx`viewBag, api
    ensures var token := old(ctx.Token());
      && api.authorization == (if NullOrWhiteSpace(token) then old(api.authorization) else Some(Bearer(token.value)))
      && api.sent == old(api.sent) + [Request(Get, "arts/" + DecimalString(id), api.authorization, NoBody)]
    ensures var artwork := DetailsOrNull(reply, decoded);
      && (artwork.None? ==> result == NotFoundResult && ctx.viewBag == old(ctx.viewBag))
      && (artwork.Some? ==>
            && result == ViewResult(ArtworkItem(artwork.value))
            && ctx.viewBag == old(ctx.viewBag)[LikeCountKey := Number(DisplayedLikeCount(artwork.value))][IsLikedKey := Flag(false)])
  {
    var artwork := api.GetArtworkDetails(id, ctx.Token(), reply, decoded);
    if artwork.None? {
      return NotFoundResult;
    }
    var likeCount := if artwork.value.likes.Some? then |artwork.value.likes.value| else 0;
    ctx.viewBag := ctx.viewBag[LikeCountKey := Number(likeCount)][IsLikedKey := Flag(false)];
    result := ViewResult(ArtworkItem(artwork.value));
  }

  /** `Create` (GET): the upload form with the category list. */
  method CreateForm(ctx: RequestContext, api: SpringApiClient, reply: Exchange, decoded: Json<seq<Category>>)
    returns (result: ActionResult)
    modifies ctx`viewBag, api
    ensures result == ViewResult(NoModel)
    ensures ctx.viewBag == old(ctx.viewBag)[CategoriesKey := CategoryList(ListOrEmpty(reply, decoded))]
    ensures api.authorization == old(api.authorization)
    ensures api.sent == old(api.sent) + [Request(Get, "categories", old(api.authorization), NoBody)]
  {
    var categories := api.GetCategories(reply, decoded);
    ctx.viewBag := ctx.viewBag[CategoriesKey := CategoryList(categories)];
    result := ViewResult(NoModel);
  }

  // ---------------------------------------------------------------------------
  // Writing actions

  /** No image, or an empty one: the form cannot be sent. */
  predicate MissingImage(imageFile: Option<FormFile>) {
    imageFile.None? || imageFile.value.length == 0
  }

  /** `Create` (POST). `createReply`/`created` answer the upload, `catReply`/`cats` the
      category list the form is shown again with; each is consumed only if that call
      is made. A null category selection is sent as an empty list. */
  method Create(ctx: RequestContext, api: SpringApiClient, title: Option<string>, promptText: Option<string>,
                imageFile: Option<FormFile>, selectedCategoryIds: Option<seq<Int32>>,
                createReply: Exchange, created: Json<Artwork>, catReply: Exchange, cats: Json<seq<Category>>)
    returns (result: ActionResult)
    modifies ctx`tempData, ctx`viewBag, ctx`modelErrors, api
    ensures NullOrEmpty(old(ctx.Token())) ==>
              && result == LoginRedirect
              && ctx.tempData == old(ctx.tempData) && ctx.viewBag == old(ctx.viewBag)
              && ctx.modelErrors == old(ctx.modelErrors)
              && api.sent == old(api.sent) && api.authorization == old(api.authorization)
    ensures !NullOrEmpty(old(ctx.Token())) && MissingImage(imageFile) ==>
              && result == ViewResult(NoModel)
              && ctx.modelErrors == old(ctx.modelErrors) + [ChooseImageMessage]
              && ctx.viewBag == old(ctx.viewBag)[CategoriesKey := CategoryList(ListOrEmpty(catReply, cats))]
              && ctx.tempData == old(ctx.tempData)
              && api.sent == old(api.sent) + [Request(Get, "categories", old(api.authorization), NoBody)]
              && api.authorization == old(api.authorization)
    ensures !NullOrEmpty(old(ctx.Token())) && !MissingImage(imageFile) ==>
              var token := old(ctx.Token()).value;
              var outcome := CreateArtworkOutcome(title, imageFile, createReply, created);
              var upload := Request(Post, "arts/create", Some(Bearer(token)),
                                    FormBody(Form(title.GetOr(""), promptText, imageFile, selectedCategoryIds.GetOr([]))));
              && api.authorization == Some(Bearer(token))
              && (outcome.Success? ==>
                    && result == GalleryRedirect
                    && ctx.tempData == old(ctx.tempData)[SuccessMessageKey := SharedMessage]
                    && ctx.viewBag == old(ctx.viewBag) && ctx.modelErrors == old(ctx.modelErrors)
                    && api.sent == old(api.sent) + [upload])
              && (outcome.Failure? ==>
                    && result == ViewResult(NoModel)
                    && ctx.modelErrors == old(ctx.modelErrors) + [CreateFailedPrefix + outcome.error.message]
                    && ctx.viewBag == old(ctx.viewBag)[CategoriesKey := CategoryList(ListOrEmpty(catReply, cats))]
                    && ctx.tempData == old(ctx.tempData)
                    && api.sent == old(api.sent)
                         + (if UploadSent(title, imageFile) then [upload] else [])
                         + [Request(Get, "categories", Some(Bearer(token)), NoBody)])
  {
    var token := ctx.Token();
    if NullOrEmpty(token) {
      return LoginRedirect;
    }
    if imageFile.None? || imageFile.value.length == 0 {
      ctx.modelErrors := ctx.modelErrors + [ChooseImageMessage];
      var categories := api.GetCategories(catReply, cats);
      ctx.viewBag := ctx.viewBag[CategoriesKey := CategoryList(categories)];
      return ViewResult(NoModel);
    }
    var ids := if selectedCategoryIds.Some? then selectedCategoryIds.value else [];
    var artwork := api.CreateArtwork(title, promptText, imageFile, ids, token.value, createReply, created);
    if artwork.Success? {
      ctx.tempData := ctx.tempData[SuccessMessageKey := SharedMessage];
      return GalleryRedirect;
    }
    ctx.modelErrors := ctx.modelErrors + [CreateFailedPrefix + artwork.error.message];
    var categories := api.GetCategories(catReply, cats);
    ctx.viewBag := ctx.viewBag[CategoriesKey := CategoryList(categories)];
    result := ViewResult(NoModel);
  }

  /** A non-empty image within the size limit, with a content type .NET accepts and a
      file name that is not blank, and a title always reach the upstream as a form
      carrying exactly one image part and one category part per selected category (none
      for a null selection). */
  lemma AcceptedUploadCarriesImage(title: string, promptText: Option<string>, file: FormFile,
                                   selectedCategoryIds: Option<seq<Int32>>)
    requires 0 < file.length <= MaxUploadSize
    requires ValidMediaType(file.contentType)
    requires !NullOrWhiteSpace(Some(file.fileName))
    ensures UploadSent(Some(title), Some(file))
    ensures var form := Form(title, promptText, Some(file), selectedCategoryIds.GetOr([]));
      && CountNamed(form, ImageFile) == 1
      && CountNamed(form, CategoryIds) == (if selectedCategoryIds.Some? then |selectedCategoryIds.value| else 0)
  {
    FormFieldCounts(title, promptText, Some(file), selectedCategoryIds.GetOr([]));
  }

  /** An image over 10 MiB is never uploaded: the form is shown again with the size
      error in the model errors. */
  lemma OversizeUploadShowsSizeError(title: Option<string>, file: FormFile, reply: Exchange, decoded: Json<Artwork>)
    requires file.length > MaxUploadSize
    ensures !UploadSent(title, Some(file))
    ensures CreateArtworkOutcome(title, Some(file), reply, decoded).error.message == SizeMessage(file.length)
  {
  }

  /** An image whose content type .NET refuses is never uploaded: the form is shown
      again with the exception's message in the model errors. */
  lemma RefusedContentTypeShowsError(title: string, file: FormFile, reply: Exchange, decoded: Json<Artwork>)
    requires 0 < file.length <= MaxUploadSize
    requires !ValidMediaType(file.contentType)
    ensures !UploadSent(Some(title), Some(file))
    ensures CreateArtworkOutcome(Some(title), Some(file), reply, decoded) == Failure(MediaTypeError(file.contentType))
  {
  }

  /** An image whose file name is empty or white space alone, with a content type .NET
      accepts, is never uploaded: the form is shown again with the `ArgumentException`
      message of `MultipartFormDataContent.Add`. A part sent as `filename=" "` is one. */
  lemma BlankFileNameShowsError(title: string, file: FormFile, reply: Exchange, decoded: Json<Artwork>)
    requires 0 < file.length <= MaxUploadSize
    requires ValidMediaType(file.contentType)
    requires NullOrWhiteSpace(Some(file.fileName))
    ensures !UploadSent(Some(title), Some(file))
    ensures CreateArtworkOutcome(Some(title), Some(file), reply, decoded) == Failure(ApiError(Argument, BlankFileNameMessage))
  {
  }

  /** `Delete` (POST). */
  method Delete(ctx: RequestContext, api: SpringApiClient, id: Int32, reply: Exchange) returns (result: ActionResult)
    modifies ctx`tempData, api
    ensures NullOrEmpty(old(ctx.Token())) ==>
              && result == LoginRedirect && ctx.tempData == old(ctx.tempData)
              && api.sent == old(api.sent) && api.authorization == old(api.authorization)
    ensures !NullOrEmpty(old(ctx.Token())) ==>
              var token := old(ctx.Token()).value;
              var ending := DeleteEnding(id, Succeeded(reply));
              && result == ending.result
              && ctx.tempData == Notify(old(ctx.tempData), ending.notice)
              && api.sent == old(api.sent) + [Request(Verb.Delete, "arts/" + DecimalString(id), Some(Bearer(token)), NoBody)]
              && api.authorization == Some(Bearer(token))
  {
    var token := ctx.Token();
    if NullOrEmpty(token) {
      return LoginRedirect;
    }
    var r := api.DeleteArtwork(id, token.value, reply);
    result := Finish(ctx, DeleteEnding(id, r.Success?));
  }

  /** `ToggleLike` (POST). */
  method ToggleLike(ctx: RequestContext, api: SpringApiClient, id: Int32, reply: Exchange, decoded: Json<InteractionResponse>)
    returns (result: ActionResult)
    modifies ctx`tempData, api
    ensures NullOrEmpty(old(ctx.Token())) ==>
              && result == LoginRedirect && ctx.tempData == old(ctx.tempData)
              && api.sent == old(api.sent) && api.authorization == old(api.authorization)
    ensures !NullOrEmpty(old(ctx.Token())) ==>
              var token := old(ctx.Token()).value;
              var ending := ToggleLikeEnding(id, JsonReply(reply, decoded, EmptyInteractionResponse).Success?);
              && result == ending.result
              && ctx.tempData == Notify(old(ctx.tempData), ending.notice)
              && api.sent == old(api.sent) + [Request(Post, "interactions/like/" + DecimalString(id), Some(Bearer(token)), NoBody)]
              && api.authorization == Some(Bearer(token))
  {
    var token := ctx.Token();
    if NullOrEmpty(token) {
      return LoginRedirect;
    }
    var r := api.ToggleLike(id, token.value, reply, decoded);
    result := Finish(ctx, ToggleLikeEnding(id, r.Success?));
  }

  /** `AddComment` (POST). */
  method AddComment(ctx: RequestContext, api: SpringApiClient, artworkId: Int32, content: string,
                    reply: Exchange, decoded: Json<CommentDto>)
    returns (result: ActionResult)
    modifies ctx`tempData, api
    ensures NullOrEmpty(old(ctx.Token())) ==>
              && result == LoginRedirect && ctx.tempData == old(ctx.tempData)
              && api.sent == old(api.sent) && api.authorization == old(api.authorization)
    ensures !NullOrEmpty(old(ctx.Token())) ==>
              var token := old(ctx.Token()).value;
              var ending := AddCommentEnding(artworkId, JsonReply(reply, decoded, EmptyCommentDto).Success?);
              && result == ending.result
              && ctx.tempData == Notify(old(ctx.tempData), ending.notice)
              && api.sent == old(api.sent)
                   + [Request(Post, "interactions/comment/" + DecimalString(artworkId), Some(Bearer(token)), CommentBody(content))]
              && api.authorization == Some(Bearer(token))
  {
    var token := ctx.Token();
    if NullOrEmpty(token) {
      return LoginRedirect;
    }
    var r := api.AddComment(artworkId, content, token.value, reply, decoded);
    result := Finish(ctx, AddCommentEnding(artworkId, r.Success?));
  }

  /** `DeleteComment` (POST). */
  method DeleteComment(ctx: RequestContext, api: SpringApiClient, commentId: Int32, artworkId: Int32, reply: Exchange)
    returns (result: ActionResult)
    modifies ctx`tempData, api
    ensures NullOrEmpty(old(ctx.Token())) ==>
              && result == LoginRedirect && ctx.tempData == old(ctx.tempData)
              && api.sent == old(api.sent) && api.authorization == old(api.authorization)
    ensures !NullOrEmpty(old(ctx.Token())) ==>
              var token := old(ctx.Token()).value;
              var ending := DeleteCommentEnding(artworkId, Succeeded(reply));
              && result == ending.result
              && ctx.tempData == Notify(old(ctx.tempData), ending.notice)
              && api.sent == old(api.sent)
                   + [Request(Verb.Delete, "interactions/comment/" + DecimalString(commentId), Some(Bearer(token)), NoBody)]
              && api.authorization == Some(Bearer(token))
  {
    var token := ctx.Token();
    if NullOrEmpty(token) {
      return LoginRedirect;
    }
    var r := api.DeleteComment(commentId, token.value, reply);
    result := Finish(ctx, DeleteCommentEnding(artworkId, r.Success?));
  }
}
