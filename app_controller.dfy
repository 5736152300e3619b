/** The `App` component of App.tsx as an object: its state fields and one
    method per handler, each performing the handler's field assignments in
    source order and specified by the matching function of Session. The
    remote calls are parameters: the outcome the awaited promise settled to. */
module AppController {
  import opened Wrappers
  import opened Types
  import Session
  import GeminiService

  class App {
    var appState: AppState
    var analysis: Option<FaceAnalysis>
    var selectedHairstyle: Option<HairstyleItem>
    var generatedImage: Option<string>
    var userSnapshot: Option<string>
    var errorMsg: Option<string>
    var uploadedHairstyles: seq<HairstyleItem>
    var dbHairstyles: seq<HairstyleItem>
    var isLoadingCatalog: bool

    /** The fields as one value. */
    function State(): Session.State
      reads this
    {
      Session.State(appState, analysis, selectedHairstyle, generatedImage, userSnapshot, errorMsg,
                    uploadedHairstyles, dbHairstyles, isLoadingCatalog)
    }

    /** `fullCatalog`, recomputed on every render: the uploads first, newest
        first, then the database catalog. */
    function FullCatalog(): (items: seq<HairstyleItem>)
      reads this
      ensures |items| == |uploadedHairstyles| + |dbHairstyles|
      ensures items[..|uploadedHairstyles|] == uploadedHairstyles
      ensures items[|uploadedHairstyles|..] == dbHairstyles
    {
      Session.FullCatalog(State())
    }

    constructor ()
      ensures State() == Session.Initial
    {
      appState := Idle;
      analysis := None;
      selectedHairstyle := None;
      generatedImage := None;
      userSnapshot := None;
      errorMsg := None;
      uploadedHairstyles := [];
      dbHairstyles := [];
      isLoadingCatalog := false;
    }

    /** The mount effect's `fetchCatalog`; `configured` says whether the
        database client exists. */
    method FetchCatalog(configured: bool, fetch: Session.FetchOutcome)
      modifies this
      ensures State() == Session.FetchCatalog(old(State()), configured, fetch)
    {
      isLoadingCatalog := true;
      if !configured {
        dbHairstyles := HairstyleCatalog;
        isLoadingCatalog := false;
        return;
      }
      match fetch {
        case FetchThrew =>
          dbHairstyles := HairstyleCatalog;
        case Fetched(data, error) =>
          if error.Some? {
            dbHairstyles := HairstyleCatalog;
          } else if data.Some? && |data.value| > 0 {
            dbHairstyles := data.value;
          } else {
            dbHairstyles := HairstyleCatalog;
          }
      }
      isLoadingCatalog := false;
    }

    /** `handleError`; `observed` is the `appState` of its closure. */
    method HandleError(observed: AppState)
      modifies this
      ensures State() == Session.HandleError(old(State()), observed)
    {
      errorMsg := Some(Session.ErrorMessage);
      if observed == GeneratingTryOn {
        appState := Shopping;
      } else {
        appState := Idle;
      }
    }

    /** `processUserImage`: the handler's closure sees the phase it was
        started in. */
    method ProcessUserImage(imageSrc: string, outcome: Outcome<Option<FaceAnalysis>>)
      modifies this
      ensures State() == Session.ProcessUserImage(old(State()), imageSrc, outcome)
    {
      var observed := appState;
      userSnapshot := Some(imageSrc);
      appState := Analyzing;
      match outcome {
        case Success(result) =>
          analysis := result;
          appState := Shopping;
        case Failure =>
          HandleError(observed);
      }
    }

    /** `handleStyleUpload`; `file` is the data URL the reader produced, None
        when no file was chosen, and `stamp` stands for `Date.now()`. */
    method HandleStyleUpload(file: Option<string>, stamp: string)
      modifies this
      ensures State() == Session.HandleStyleUpload(old(State()), file, stamp)
    {
      if file.Some? {
        var newItem := Session.UploadedItem(stamp, file.value);
        uploadedHairstyles := [newItem] + uploadedHairstyles;
        selectedHairstyle := Some(newItem);
      }
    }

    /** A click on a catalog card. */
    method SelectHairstyle(item: HairstyleItem)
      modifies this
      ensures State() == Session.SelectHairstyle(old(State()), item)
    {
      selectedHairstyle := Some(item);
    }

    /** `handleTryOn`, as written: on failure `handleError` sees the phase the
        handler was started in. `call` is the argument list it passes to
        `generateTryOnImage`, None when the guard returns early. */
    method HandleTryOn(outcome: Outcome<string>) returns (call: Option<Session.TryOnArgs>)
      modifies this
      ensures call == Session.TryOnRequest(old(State()))
      ensures State() == Session.HandleTryOn(old(State()), outcome, Session.CapturedPhase)
    {
      if selectedHairstyle.None? || !Truthy(userSnapshot) {
        return None;
      }
      var observed := appState;
      appState := GeneratingTryOn;
      var item := selectedHairstyle.value;
      var customImage := if IsCustom(item) then Some(item.image) else None;
      call := Some(Session.TryOnArgs(userSnapshot.value, item.description, customImage));
      match outcome {
        case Success(resultImage) =>
          generatedImage := Some(resultImage);
          appState := Result;
        case Failure =>
          HandleError(observed);
      }
    }

    /** The "Gallery" button in RESULT. */
    method ShowGallery()
      modifies this
      ensures State() == Session.ShowGallery(old(State()))
    {
      appState := Shopping;
    }

    /** `resetProcess`, the "Close" button in RESULT. */
    method ResetProcess()
      modifies this
      ensures State() == Session.ResetProcess(old(State()))
    {
      appState := Idle;
      generatedImage := None;
      selectedHairstyle := None;
      analysis := None;
      userSnapshot := None;
      uploadedHairstyles := [];
    }

    /** The timer set by `handleError`. */
    method ClearError()
      modifies this
      ensures State() == Session.ClearError(old(State()))
    {
      errorMsg := None;
    }
  }

  /** An uploaded style with a non-empty image reaches the service as a
      reference image: three parts, the upload's cleaned image second. */
  lemma UploadedStyleIsSentAsReference(s: Session.State, stamp: string, dataUrl: string)
    requires dataUrl != "" && Truthy(s.userSnapshot)
    requires s.selectedHairstyle == Some(Session.UploadedItem(stamp, dataUrl))
    ensures var call := Session.TryOnRequest(s).value;
      var parts := GeminiService.TryOnParts(call.personImage, call.description, call.referenceImage);
      && |parts| == 3
      && parts[1] == GeminiService.InlineImage(GeminiService.JpegMime, GeminiService.StripDataUrlPrefix(dataUrl))
  {
  }

  /** A built-in style reaches the service as text: two parts, the second
      the prompt carrying the style's description. */
  lemma CatalogStyleIsSentAsText(s: Session.State, i: nat)
    requires i < |HairstyleCatalog| && Truthy(s.userSnapshot)
    requires s.selectedHairstyle == Some(HairstyleCatalog[i])
    ensures var call := Session.TryOnRequest(s).value;
      var parts := GeminiService.TryOnParts(call.personImage, call.description, call.referenceImage);
      && |parts| == 2
      && parts[1] == GeminiService.Text(GeminiService.StylePrompt(HairstyleCatalog[i].description))
  {
  }
}
