/**
 * The top-level view controller (App.tsx): the signed-in user, the report
 * store, the screen, the filter slots, the detail dialog with its image-edit,
 * social-post and nearby-places slots, and the handlers that move them.
 * Each handler is one atomic step; the service replies it awaits are inputs.
 */
module App {
  import opened Wrappers
  import opened Types
  import opened Seed
  import opened ReportFilter
  import opened ReportStore
  import Gateway

  datatype View = Home | CreatePost

  datatype ToastKind = SuccessToast | ErrorToast

  datatype Toast = Toast(message: string, kind: ToastKind)

  const DefaultSubmitText := "Publicar Reporte"
  const PostCreatedMessage := "Reporte creado con éxito."
  const LoginRequiredMessage := "Debes iniciar sesión para crear un reporte."
  const ImageUpdatedMessage := "¡Imagen actualizada con éxito!"
  const UnknownErrorMessage := "Ocurrió un error desconocido."
  const SocialPostFailedMessage := "No se pudo generar el anuncio."
  const Anonymous := "Anonymous"

  // ------------------------------------------------------------- new reports

  function DigitChar(d: nat): (c: char)
    requires d < 10
    ensures '0' <= c <= '9' && c as int - '0' as int == d
  {
    (48 + d) as char
  }

  /** The decimal numeral of `n`, as a template literal prints it. */
  function Decimal(n: nat): (r: string)
    ensures |r| >= 1 && (|r| == 1 <==> n < 10)
    ensures forall i :: 0 <= i < |r| ==> '0' <= r[i] <= '9'
    ensures r[|r| - 1] == DigitChar(n % 10)
  {
    if n < 10 then [DigitChar(n)] else Decimal(n / 10) + [DigitChar(n % 10)]
  }

  /** Different numbers have different numerals. */
  lemma {:induction false} DecimalInjective(a: nat, b: nat)
    requires Decimal(a) == Decimal(b)
    ensures a == b
  {
    if 10 <= a {
      var ra, rb := Decimal(a), Decimal(b);
      assert ra[..|ra| - 1] == Decimal(a / 10);
      assert rb[..|rb| - 1] == Decimal(b / 10);
      DecimalInjective(a / 10, b / 10);
    }
  }

  /** `post_${Date.now()}`. */
  function PostId(now: nat): string {
    "post_" + Decimal(now)
  }

  /** Reports created at different milliseconds get different ids. */
  lemma PostIdInjective(a: nat, b: nat)
    requires a != b
    ensures PostId(a) != PostId(b)
  {
    if PostId(a) == PostId(b) {
      assert Decimal(a) == PostId(a)[5..];
      DecimalInjective(a, b);
    }
  }

  /** `user.displayName || 'Anonymous'`. */
  function AuthorName(u: User): (name: string)
    ensures Truthy(u.displayName) ==> name == u.displayName.value
    ensures !Truthy(u.displayName) ==> name == Anonymous
    ensures name != ""
  {
    if Truthy(u.displayName) then u.displayName.value else Anonymous
  }

  /** The report `handleCreatePost` builds: the form data, a time-based id, and the author. */
  function NewPost(data: NewPostData, u: User, now: nat): (p: PetPost)
    ensures p.id == PostId(now) && p.createdAt == now
    ensures p.userId == u.uid && p.userName == AuthorName(u)
    ensures p.kind == data.kind && p.breed == data.breed && p.color == data.color && p.size == data.size
    ensures p.description == data.description && p.photoUrl == data.photoUrl && p.location == data.location
  {
    PetPost(PostId(now), data.kind, u.uid, AuthorName(u), data.photoUrl, data.breed, data.color,
            data.size, data.description, data.location, now)
  }

  /** `error.message || 'Ocurrió un error desconocido.'`. */
  function ErrorText(message: string): (t: string)
    ensures t != ""
    ensures message != "" ==> t == message
  {
    if message != "" then message else UnknownErrorMessage
  }

  // ------------------------------------------------------------ state slots

  /** The slots of the screen: which screen, the point for a new report, the submit button. */
  datatype Screen = Screen(
    view: View,
    initialPostLocation: Option<GeoPoint>,
    isSubmittingPost: bool,
    submitButtonText: string)

  /** The slots of the report-detail dialog: the selection and everything produced inside it. */
  datatype Detail = Detail(
    selectedPost: Option<PetPost>,
    nearbyPlaces: Option<GroundedResponse>,
    loadingPlaceType: Option<string>,
    isEditingImage: bool,
    editPrompt: string,
    editedImageUrl: Option<string>,
    isGeneratingImage: bool,
    imageEditError: Option<string>,
    socialMediaText: Option<string>,
    isGeneratingSocialPost: bool)

  /** Every state slot of the view controller, as one value. */
  datatype AppState = AppState(
    user: Option<User>,
    isAuthModalOpen: bool,
    toast: Option<Toast>,
    posts: seq<PetPost>,
    suggestedMatches: seq<PetPost>,
    screen: Screen,
    filters: FilterState,
    detail: Detail)

  /** The dialog's slots with nothing selected and nothing produced. */
  const ClosedDetail := Detail(None, None, None, false, "", None, false, None, None, false)

  /** The per-dialog slots hold their initial values (the selection aside). */
  predicate DetailSlotsFresh(d: Detail) {
    && d.nearbyPlaces.None? && d.loadingPlaceType.None?
    && !d.isEditingImage && d.editPrompt == "" && d.editedImageUrl.None?
    && !d.isGeneratingImage && d.imageEditError.None?
    && d.socialMediaText.None? && !d.isGeneratingSocialPost
  }

  /** `handleCloseModal`: the selection and every per-dialog slot back to its initial value. */
  function ClosedModal(s: AppState): AppState {
    s.(detail := ClosedDetail)
  }

  /** Closing leaves nothing selected and every per-dialog slot fresh, is idempotent, and touches no other slot. */
  lemma ClosedModalResets(s: AppState)
    ensures ClosedModal(s).detail.selectedPost.None? && DetailSlotsFresh(ClosedModal(s).detail)
    ensures ClosedModal(ClosedModal(s)) == ClosedModal(s)
    ensures ClosedModal(s).(detail := s.detail) == s
  {
  }

  /** Reopening the dialog on any report after a close shows no output left over from before. */
  lemma ReopenAfterCloseIsFresh(s: AppState, p: PetPost)
    ensures DetailSlotsFresh(ClosedModal(s).detail.(selectedPost := Some(p)))
  {
  }

  class ViewController {
    var user: Option<User>
    var isAuthModalOpen: bool
    var toast: Option<Toast>
    var posts: seq<PetPost>
    var suggestedMatches: seq<PetPost>
    var screen: Screen
    var filters: FilterState
    var detail: Detail

    /** All slots as one value. */
    function State(): AppState
      reads this
    {
      AppState(user, isAuthModalOpen, toast, posts, suggestedMatches, screen, filters, detail)
    }

    /** `filteredPosts`: what the map and the card list show. */
    function Shown(): seq<PetPost>
      reads this
    {
      FilteredPosts(posts, filters, user)
    }

    /** The controller once mounted: nobody signed in, the seed reports, the home screen, no filter, nothing open. */
    constructor ()
      ensures State() == AppState(None, false, None, MockPosts, [], Screen(Home, None, false, DefaultSubmitText),
                                  Cleared(false), ClosedDetail)
      ensures Shown() == MockPosts
    {
      user := None;
      isAuthModalOpen := false;
      toast := None;
      posts := MockPosts;
      suggestedMatches := [];
      screen := Screen(Home, None, false, DefaultSubmitText);
      filters := Cleared(false);
      detail := ClosedDetail;
      new;
      ClearedShowsAll(MockPosts, None);
    }

    /** `handleLogin`: the mock user signs in and the sign-in dialog closes. */
    method HandleLogin()
      modifies this
      ensures State() == old(State()).(user := Some(MockUser), isAuthModalOpen := false)
    {
      user := Some(MockUser);
      isAuthModalOpen := false;
    }

    /** `handleLogout`: nobody is signed in and "my reports only" is off. */
    method HandleLogout()
      modifies this
      ensures State() == old(State()).(user := None, filters := old(filters).(mineOnly := false))
    {
      user := None;
      filters := filters.(mineOnly := false);
    }

    /** `handleUpdateProfilePicture`: the signed-in user's photo changes; without a user nothing does. */
    method HandleUpdateProfilePicture(newPhotoUrl: string)
      modifies this
      ensures old(user).None? ==> State() == old(State())
      ensures old(user).Some? ==> State() == old(State()).(user := Some(old(user).value.(photoUrl := Some(newPhotoUrl))))
    {
      if user.Some? {
        user := Some(user.value.(photoUrl := Some(newPhotoUrl)));
      }
    }

    /**
     * `handleCreatePost`: without a user nothing happens. Otherwise the new report
     * goes to the front of the store; for a lost report the found reports of the
     * updated store are offered to the suggestion service and the reports whose
     * ids come back become the suggested matches; the screen returns home.
     */
    method HandleCreatePost(data: NewPostData, now: nat, reply: Gateway.SuggestReply)
      returns (request: Option<Gateway.SuggestRequest>)
      modifies this
      ensures old(user).None? ==> State() == old(State()) && request.None?
      ensures old(user).Some? ==>
        var created := NewPost(data, old(user).value, now);
        var updated := [created] + old(posts);
        var outcome := Gateway.GetSuggestions(created, FoundCandidates(updated), reply);
        && request == (if data.kind == Lost then outcome.request else None)
        && State() == old(State()).(
             posts := updated,
             suggestedMatches := if data.kind == Lost then ShownMatches(updated, outcome.ids) else old(suggestedMatches),
             screen := old(screen).(view := Home, isSubmittingPost := false, submitButtonText := DefaultSubmitText),
             toast := Some(Toast(PostCreatedMessage, SuccessToast)))
    {
      if user.None? {
        return None;
      }
      var newPost := NewPost(data, user.value, now);
      var updatedPosts := [newPost] + posts;
      posts := updatedPosts;
      request := None;
      if newPost.kind == Lost {
        var foundPets := FoundCandidates(updatedPosts);
        var outcome := Gateway.GetSuggestions(newPost, foundPets, reply);
        request := outcome.request;
        suggestedMatches := ShownMatches(updatedPosts, outcome.ids);
      }
      screen := screen.(isSubmittingPost := false, submitButtonText := DefaultSubmitText, view := Home);
      toast := Some(Toast(PostCreatedMessage, SuccessToast));
    }

    /** `handleClearFilters`: type, breed, colour and size back to "no filter"; "my reports only" is kept. */
    method HandleClearFilters()
      modifies this
      ensures State() == old(State()).(filters := Cleared(old(filters).mineOnly))
    {
      filters := filters.(kind := AllTypes, breed := "", color := "", size := "");
    }

    /** `handleFindNearbyPlaces`: with a report selected, look up places of the category around it. */
    method HandleFindNearbyPlaces(placeType: string, reply: Gateway.PlacesReply)
      returns (request: Option<Gateway.PlacesRequest>)
      modifies this
      ensures old(detail).selectedPost.None? ==> State() == old(State()) && request.None?
      ensures old(detail).selectedPost.Some? ==>
        var answer := if reply.PlacesCallFailed? then GroundedResponse(Some(Gateway.PlacesError), [])
                      else GroundedResponse(reply.text, Gateway.DedupByUri(Gateway.FlatSources(Gateway.ChunksOf(reply))));
        && request == Some(Gateway.PlacesRequest(old(detail).selectedPost.value.location, placeType))
        && State() == old(State()).(detail := old(detail).(nearbyPlaces := Some(answer), loadingPlaceType := None))
        && Gateway.UrisDistinct(answer.sources)
    {
      if detail.selectedPost.None? {
        return None;
      }
      request := Some(Gateway.PlacesRequest(detail.selectedPost.value.location, placeType));
      detail := detail.(loadingPlaceType := Some(placeType), nearbyPlaces := None);
      var results := Gateway.GetNearbyPlaces(reply);
      detail := detail.(nearbyPlaces := Some(results), loadingPlaceType := None);
    }

    /** `handleCloseModal`. */
    method HandleCloseModal()
      modifies this
      ensures State() == ClosedModal(old(State()))
    {
      detail := ClosedDetail;
    }

    /**
     * `handleGenerateEditedImage`: without an instruction or a selection nothing
     * happens; otherwise the selected photo is edited and either the new image or
     * the error text is kept, with generation off afterwards.
     */
    method HandleGenerateEditedImage(fetched: Option<Gateway.FetchedImage>, reply: Gateway.ImageReply)
      returns (sent: Option<Gateway.EditRequest>)
      modifies this
      ensures old(detail).editPrompt == "" || old(detail).selectedPost.None? ==> State() == old(State()) && sent.None?
      ensures old(detail).editPrompt != "" && old(detail).selectedPost.Some? ==>
        && sent == (if fetched.None? then None
                    else Some(Gateway.EditRequest(fetched.value.mimeType, Gateway.Base64Payload(fetched.value.dataUrl),
                                                  old(detail).editPrompt)))
        && (detail.editedImageUrl.Some? <==>
              fetched.Some? && reply.ImageReplied? && Gateway.HasInline(Gateway.ResponseParts(reply)))
        && (detail.editedImageUrl.Some? <==> detail.imageEditError.None?)
        && (detail.imageEditError.Some? ==> detail.imageEditError.value == Gateway.EditImageError)
        && (detail.editedImageUrl.Some? ==>
              Gateway.IsUrlOfFirstInline(Gateway.ResponseParts(reply), detail.editedImageUrl.value))
        && State() == old(State()).(detail := old(detail).(
             editedImageUrl := detail.editedImageUrl, imageEditError := detail.imageEditError, isGeneratingImage := false))
    {
      if detail.editPrompt == "" || detail.selectedPost.None? {
        return None;
      }
      detail := detail.(isGeneratingImage := true, imageEditError := None, editedImageUrl := None);
      var result;
      result, sent := Gateway.EditImageFromUrl(detail.editPrompt, fetched, reply);
      match result {
        case Success(newImage) => detail := detail.(editedImageUrl := Some(newImage));
        case Failure(message) => detail := detail.(imageEditError := Some(ErrorText(message)));
      }
      detail := detail.(isGeneratingImage := false);
    }

    /**
     * `handleGenerateSocialPost`: with a selection, keep the generated text, or clear it
     * and raise an error toast. An `undefined` text is stored as is, which shows as no text.
     */
    method HandleGenerateSocialPost(reply: Gateway.TextReply)
      modifies this
      ensures old(detail).selectedPost.None? ==> State() == old(State())
      ensures old(detail).selectedPost.Some? && reply.TextReplied? ==>
        State() == old(State()).(detail := old(detail).(socialMediaText := reply.text, isGeneratingSocialPost := false))
      ensures old(detail).selectedPost.Some? && reply.TextFailed? ==>
        State() == old(State()).(detail := old(detail).(socialMediaText := None, isGeneratingSocialPost := false),
                                 toast := Some(Toast(SocialPostFailedMessage, ErrorToast)))
    {
      if detail.selectedPost.None? {
        return;
      }
      detail := detail.(isGeneratingSocialPost := true, socialMediaText := None);
      var result := Gateway.GenerateSocialMediaPost(reply);
      match result {
        case Success(text) => detail := detail.(socialMediaText := text);
        case Failure(_) => toast := Some(Toast(SocialPostFailedMessage, ErrorToast));
      }
      detail := detail.(isGeneratingSocialPost := false);
    }

    /**
     * `handleSaveChanges`: without an edited image or a selection nothing happens.
     * Otherwise the selected report's photo is replaced in the store, the dialog
     * is closed and a success toast is shown.
     */
    method HandleSaveChanges()
      modifies this
      ensures !Truthy(old(detail).editedImageUrl) || old(detail).selectedPost.None? ==> State() == old(State())
      ensures Truthy(old(detail).editedImageUrl) && old(detail).selectedPost.Some? ==>
        State() == ClosedModal(old(State())).(
          posts := ReplacePhoto(old(posts), old(detail).selectedPost.value.id, old(detail).editedImageUrl.value),
          toast := Some(Toast(ImageUpdatedMessage, SuccessToast)))
    {
      if !Truthy(detail.editedImageUrl) || detail.selectedPost.None? {
        return;
      }
      var url := detail.editedImageUrl.value;
      posts := ReplacePhoto(posts, detail.selectedPost.value.id, url);
      detail := detail.(selectedPost := Some(WithPhoto(detail.selectedPost.value, url)));
      HandleCloseModal();
      toast := Some(Toast(ImageUpdatedMessage, SuccessToast));
    }

    /** `handleMapClick`: nobody signed in opens the sign-in dialog with an error toast;
        otherwise the point is kept for the form and the form opens. */
    method HandleMapClick(location: GeoPoint)
      modifies this
      ensures old(user).None? ==>
        State() == old(State()).(isAuthModalOpen := true, toast := Some(Toast(LoginRequiredMessage, ErrorToast)))
      ensures old(user).Some? ==>
        State() == old(State()).(screen := old(screen).(initialPostLocation := Some(location), view := CreatePost))
    {
      if user.None? {
        isAuthModalOpen := true;
        toast := Some(Toast(LoginRequiredMessage, ErrorToast));
        return;
      }
      screen := screen.(initialPostLocation := Some(location), view := CreatePost);
    }

    /** The header's "create report" button (shown only to a signed-in user). */
    method OpenCreatePost()
      modifies this
      ensures State() == old(State()).(screen := old(screen).(view := CreatePost))
    {
      screen := screen.(view := CreatePost);
    }

    /** The form's cancel button: back home, and the clicked point is forgotten. */
    method CancelCreatePost()
      modifies this
      ensures State() == old(State()).(screen := old(screen).(view := Home, initialPostLocation := None))
    {
      screen := screen.(view := Home, initialPostLocation := None);
    }

    /** A marker or a card was clicked: that report is selected. */
    method SelectPost(p: PetPost)
      modifies this
      ensures State() == old(State()).(detail := old(detail).(selectedPost := Some(p)))
    {
      detail := detail.(selectedPost := Some(p));
    }

    /** The filter controls: type, breed, colour and size each set their own slot. */
    method SetFilters(kind: TypeFilter, breed: string, color: string, size: string)
      modifies this
      ensures State() == old(State()).(filters := FilterState(kind, breed, color, size, old(filters).mineOnly))
    {
      filters := filters.(kind := kind, breed := breed, color := color, size := size);
    }

    /** The "my reports" button. */
    method ToggleMyPostsOnly()
      modifies this
      ensures State() == old(State()).(filters := old(filters).(mineOnly := !old(filters).mineOnly))
    {
      filters := filters.(mineOnly := !filters.mineOnly);
    }

    /** Closing the suggested-matches dialog. */
    method DismissSuggestions()
      modifies this
      ensures State() == old(State()).(suggestedMatches := [])
    {
      suggestedMatches := [];
    }

    /** The image-edit controls: open or close the editor, type the instruction. */
    method SetEditing(editing: bool, prompt: string)
      modifies this
      ensures State() == old(State()).(detail := old(detail).(isEditingImage := editing, editPrompt := prompt))
    {
      detail := detail.(isEditingImage := editing, editPrompt := prompt);
    }

    /** Rejecting a generated image: the image and the instruction are cleared. */
    method DiscardEditedImage()
      modifies this
      ensures State() == old(State()).(detail := old(detail).(editedImageUrl := None, editPrompt := ""))
    {
      detail := detail.(editedImageUrl := None, editPrompt := "");
    }

    /** Opening or closing the sign-in dialog from the header or the dialog itself. */
    method SetAuthModalOpen(open: bool)
      modifies this
      ensures State() == old(State()).(isAuthModalOpen := open)
    {
      isAuthModalOpen := open;
    }
  }
}
