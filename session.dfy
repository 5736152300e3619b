/** The state of the `App` component in App.tsx as a value, and every handler
    as a function from the state before to the state after. The class in
    AppController performs the same handlers by field assignment and is
    specified by these functions; the lemmas here state what the handlers
    keep and what a whole session can reach. */
module Session {
  import opened Wrappers
  import opened Types

  /** The nine `useState` fields of `App`, under their source names. */
  datatype State = State(
    appState: AppState,
    analysis: Option<FaceAnalysis>,
    selectedHairstyle: Option<HairstyleItem>,
    generatedImage: Option<string>,
    userSnapshot: Option<string>,
    errorMsg: Option<string>,
    uploadedHairstyles: seq<HairstyleItem>,
    dbHairstyles: seq<HairstyleItem>,
    isLoadingCatalog: bool)

  /** The initial values given to `useState`. */
  const Initial := State(Idle, None, None, None, None, None, [], [], false)

  const ErrorMessage := "Something went wrong. Please check your connection or try again."

  /** `fullCatalog`: uploaded items first, then the provider's items. */
  function FullCatalog(s: State): seq<HairstyleItem>
  {
    s.uploadedHairstyles + s.dbHairstyles
  }

  // ---------------------------------------------------------------------------
  // Catalog fetch (the mount effect)

  /** The `error` of a table query; its code and message only pick a log line. */
  datatype DbError = DbError(code: string, message: string)

  /** How the query settled: `{ data, error }`, or an exception. */
  datatype FetchOutcome = Fetched(data: Option<seq<HairstyleItem>>, error: Option<DbError>) | FetchThrew

  /** The only case in which the fetched rows are kept. */
  predicate KeepsFetchedRows(configured: bool, fetch: FetchOutcome)
  {
    configured && fetch.Fetched? && fetch.error.None? && fetch.data.Some? && |fetch.data.value| > 0
  }

  /** The list `fetchCatalog` stores: the rows of an error-free, non-empty
      answer, and otherwise exactly the built-in catalog. */
  function CatalogChoice(configured: bool, fetch: FetchOutcome): (rows: seq<HairstyleItem>)
    ensures KeepsFetchedRows(configured, fetch) ==> rows == fetch.data.value
    ensures !KeepsFetchedRows(configured, fetch) ==> rows == HairstyleCatalog
    ensures |rows| > 0
  {
    if !configured then HairstyleCatalog
    else
      match fetch
      case FetchThrew => HairstyleCatalog
      case Fetched(data, error) =>
        if error.Some? then HairstyleCatalog
        else if data.Some? && |data.value| > 0 then data.value
        else HairstyleCatalog
  }

  /** `fetchCatalog`: stores the chosen list and ends with the loading flag off. */
  function FetchCatalog(s: State, configured: bool, fetch: FetchOutcome): (r: State)
    ensures r.dbHairstyles == CatalogChoice(configured, fetch) && !r.isLoadingCatalog
    ensures r.(dbHairstyles := s.dbHairstyles, isLoadingCatalog := s.isLoadingCatalog) == s
  {
    s.(dbHairstyles := CatalogChoice(configured, fetch), isLoadingCatalog := false)
  }

  // ---------------------------------------------------------------------------
  // Handlers

  /** `handleError`, given the `appState` its closure observed. */
  function HandleError(s: State, observed: AppState): (r: State)
    ensures r.errorMsg == Some(ErrorMessage)
    ensures r.appState == (if observed == GeneratingTryOn then Shopping else Idle)
    ensures r.(appState := s.appState, errorMsg := s.errorMsg) == s
  {
    s.(errorMsg := Some(ErrorMessage),
       appState := if observed == GeneratingTryOn then Shopping else Idle)
  }

  /** `processUserImage`: store the snapshot, enter ANALYZING, then either
      store the analysis and move to SHOPPING, or recover through
      `handleError` with the phase the handler was started in. A reply that
      parses to `null` is stored as it is: SHOPPING with no analysis. */
  function ProcessUserImage(s: State, imageSrc: string, outcome: Outcome<Option<FaceAnalysis>>): (r: State)
    ensures r.userSnapshot == Some(imageSrc)
    ensures outcome.Success? ==>
      r.appState == Shopping && r.analysis == outcome.value && r.errorMsg == s.errorMsg
    ensures outcome.Failure? ==>
      && r.appState == (if s.appState == GeneratingTryOn then Shopping else Idle)
      && r.analysis == s.analysis && r.errorMsg == Some(ErrorMessage)
    ensures r.(userSnapshot := s.userSnapshot, appState := s.appState, analysis := s.analysis,
               errorMsg := s.errorMsg) == s
  {
    var observed := s.appState;
    var entered := s.(userSnapshot := Some(imageSrc), appState := Analyzing);
    match outcome
    case Success(result) => entered.(analysis := result, appState := Shopping)
    case Failure => HandleError(entered, observed)
  }

  /** The item `handleStyleUpload` builds from the file it read; `stamp`
      stands for `Date.now()`. */
  function UploadedItem(stamp: string, dataUrl: string): (item: HairstyleItem)
    ensures IsCustom(item) && item.category == "Uploaded" && item.image == dataUrl
  {
    HairstyleItem("custom-" + stamp, "Custom Look", "Uploaded",
      "A custom uploaded hairstyle reference", dataUrl, Some(true))
  }

  /** `handleStyleUpload`: with a file, prepend the new item and select it. */
  function HandleStyleUpload(s: State, file: Option<string>, stamp: string): (r: State)
    ensures file.None? ==> r == s
    ensures file.Some? ==>
      && |r.uploadedHairstyles| == |s.uploadedHairstyles| + 1
      && r.uploadedHairstyles[0] == UploadedItem(stamp, file.value)
      && r.uploadedHairstyles[1..] == s.uploadedHairstyles
      && r.selectedHairstyle == Some(r.uploadedHairstyles[0])
      && r.(uploadedHairstyles := s.uploadedHairstyles, selectedHairstyle := s.selectedHairstyle) == s
  {
    match file
    case None => s
    case Some(dataUrl) =>
      var newItem := UploadedItem(stamp, dataUrl);
      s.(uploadedHairstyles := [newItem] + s.uploadedHairstyles, selectedHairstyle := Some(newItem))
  }

  /** An upload puts the new item at the head of the full catalog, ahead of
      the earlier uploads and the provider's items, whose order is kept. */
  lemma UploadPrependsToCatalog(s: State, dataUrl: string, stamp: string)
    ensures FullCatalog(HandleStyleUpload(s, Some(dataUrl), stamp)) == [UploadedItem(stamp, dataUrl)] + FullCatalog(s)
  {
    assert [UploadedItem(stamp, dataUrl)] + s.uploadedHairstyles + s.dbHairstyles
        == [UploadedItem(stamp, dataUrl)] + (s.uploadedHairstyles + s.dbHairstyles);
  }

  /** A click on a catalog card: `setSelectedHairstyle(item)`. */
  function SelectHairstyle(s: State, item: HairstyleItem): (r: State)
    ensures r.selectedHairstyle == Some(item) && r.(selectedHairstyle := s.selectedHairstyle) == s
  {
    s.(selectedHairstyle := Some(item))
  }

  /** The arguments `handleTryOn` passes to `generateTryOnImage`. */
  datatype TryOnArgs = TryOnArgs(personImage: string, description: string, referenceImage: Option<string>)

  /** The call `handleTryOn` makes, or None when its guard returns early: the
      item's image is sent only for a custom item, its description always. */
  function TryOnRequest(s: State): (call: Option<TryOnArgs>)
    ensures call.Some? <==> s.selectedHairstyle.Some? && Truthy(s.userSnapshot)
    ensures call.Some? ==>
      && call.value.personImage == s.userSnapshot.value
      && call.value.description == s.selectedHairstyle.value.description
      && (call.value.referenceImage.Some? <==> IsCustom(s.selectedHairstyle.value))
      && (call.value.referenceImage.Some? ==> call.value.referenceImage.value == s.selectedHairstyle.value.image)
  {
    if s.selectedHairstyle.None? || !Truthy(s.userSnapshot) then None
    else
      var item := s.selectedHairstyle.value;
      Some(TryOnArgs(s.userSnapshot.value, item.description, if IsCustom(item) then Some(item.image) else None))
  }

  /** Which phase `handleError` sees when a try-on fails. As written it is
      the `appState` captured by the closure of the render whose button was
      clicked (`CapturedPhase`); the GENERATING_TRYON test in `handleError`
      shows that the phase after `setAppState(GENERATING_TRYON)` was meant
      (`LivePhase`). */
  datatype Recovery = CapturedPhase | LivePhase

  /** `handleTryOn`. */
  function HandleTryOn(s: State, outcome: Outcome<string>, recovery: Recovery): (r: State)
    ensures TryOnRequest(s).None? ==> r == s
    ensures TryOnRequest(s).Some? && outcome.Success? ==>
      r.appState == Result && r.generatedImage == Some(outcome.value) && r.errorMsg == s.errorMsg
    ensures TryOnRequest(s).Some? && outcome.Failure? ==>
      && r.errorMsg == Some(ErrorMessage) && r.generatedImage == s.generatedImage
      && (recovery == LivePhase ==> r.appState == Shopping)
      && (recovery == CapturedPhase ==>
            r.appState == (if s.appState == GeneratingTryOn then Shopping else Idle))
    ensures r.(appState := s.appState, generatedImage := s.generatedImage, errorMsg := s.errorMsg) == s
  {
    if TryOnRequest(s).None? then s
    else
      var observed := if recovery == CapturedPhase then s.appState else GeneratingTryOn;
      var entered := s.(appState := GeneratingTryOn);
      match outcome
      case Success(image) => entered.(generatedImage := Some(image), appState := Result)
      case Failure => HandleError(entered, observed)
  }

  /** The "Gallery" button: `setAppState(SHOPPING)`; the result is kept. */
  function ShowGallery(s: State): (r: State)
    ensures r.appState == Shopping && r.(appState := s.appState) == s
  {
    s.(appState := Shopping)
  }

  /** `resetProcess`. */
  function ResetProcess(s: State): (r: State)
    ensures r == Initial.(errorMsg := s.errorMsg, dbHairstyles := s.dbHairstyles,
                          isLoadingCatalog := s.isLoadingCatalog)
  {
    s.(appState := Idle, generatedImage := None, selectedHairstyle := None, analysis := None,
       userSnapshot := None, uploadedHairstyles := [])
  }

  /** The 5-second timer after an error: `setErrorMsg(null)`. */
  function ClearError(s: State): (r: State)
    ensures r.errorMsg.None? && r.(errorMsg := s.errorMsg) == s
  {
    s.(errorMsg := None)
  }

  lemma ResetIdempotent(s: State)
    ensures ResetProcess(ResetProcess(s)) == ResetProcess(s)
  {
  }

  // ---------------------------------------------------------------------------
  // Sessions: sequences of user actions

  /** One user action or callback, with the outcome of its remote call. */
  datatype Event =
    | Capture(imageSrc: string, analysisOutcome: Outcome<Option<FaceAnalysis>>)
    | PickStyle(item: HairstyleItem)
    | UploadStyle(file: Option<string>, stamp: string)
    | TryOn(tryOnOutcome: Outcome<string>)
    | Gallery
    | Reset
    | DismissError
    | CatalogLoaded(configured: bool, fetch: FetchOutcome)

  /** The controls the UI offers in each phase: "Upload Photo" and "Scan Face"
      in IDLE, both of which end in a `Capture` (once a snapshot is held the
      camera is unmounted and only "Upload Photo" captures); the cards (once
      the catalog has loaded), the upload card and "Style Hair" (disabled
      without a selection) in SHOPPING; "Gallery" and "Close" in RESULT. No
      control is offered while a call is in flight; the error timer and the
      mount effect's fetch can fire in any phase. */
  predicate Enabled(s: State, e: Event): (offered: bool)
    ensures offered && s.appState == Idle ==> e.Capture? || e.DismissError? || e.CatalogLoaded?
    ensures offered && s.appState == Shopping ==>
      e.PickStyle? || e.UploadStyle? || e.TryOn? || e.DismissError? || e.CatalogLoaded?
    ensures offered && (s.appState == Analyzing || s.appState == GeneratingTryOn) ==>
      e.DismissError? || e.CatalogLoaded?
    ensures offered && s.appState == Result ==> e.Gallery? || e.Reset? || e.DismissError? || e.CatalogLoaded?
    ensures e.DismissError? || e.CatalogLoaded? ==> offered
    ensures e.Capture? ==> (offered <==> s.appState == Idle)
    ensures e.UploadStyle? ==> (offered <==> s.appState == Shopping)
    ensures e.PickStyle? ==>
      (offered <==> s.appState == Shopping && !s.isLoadingCatalog && e.item in FullCatalog(s))
    ensures e.TryOn? ==> (offered <==> s.appState == Shopping && s.selectedHairstyle.Some?)
    ensures e.Gallery? || e.Reset? ==> (offered <==> s.appState == Result)
  {
    match e
    case Capture(_, _) => s.appState == Idle
    case PickStyle(item) => s.appState == Shopping && !s.isLoadingCatalog && item in FullCatalog(s)
    case UploadStyle(_, _) => s.appState == Shopping
    case TryOn(_) => s.appState == Shopping && s.selectedHairstyle.Some?
    case Gallery => s.appState == Result
    case Reset => s.appState == Result
    case DismissError => true
    case CatalogLoaded(_, _) => true
  }

  function Step(s: State, e: Event, recovery: Recovery): State
  {
    match e
    case Capture(imageSrc, outcome) => ProcessUserImage(s, imageSrc, outcome)
    case PickStyle(item) => SelectHairstyle(s, item)
    case UploadStyle(file, stamp) => HandleStyleUpload(s, file, stamp)
    case TryOn(outcome) => HandleTryOn(s, outcome, recovery)
    case Gallery => ShowGallery(s)
    case Reset => ResetProcess(s)
    case DismissError => ClearError(s)
    case CatalogLoaded(configured, fetch) => FetchCatalog(s, configured, fetch)
  }

  function Run(s: State, events: seq<Event>, recovery: Recovery): State
    decreases |events|
  {
    if events == [] then s else Run(Step(s, events[0], recovery), events[1..], recovery)
  }

  /** Every event of the sequence is offered by the UI when it happens. */
  predicate Allowed(s: State, events: seq<Event>, recovery: Recovery)
    decreases |events|
  {
    events == [] || (Enabled(s, events[0]) && Allowed(Step(s, events[0], recovery), events[1..], recovery))
  }

  /** What holds between events, whichever way a failed try-on recovers:
      the catalog is not loading and the phase is neither ANALYZING nor
      GENERATING_TRYON (each event runs to completion, so no call is in
      flight between two of them); an analysis or a result is only present
      while some snapshot is (not necessarily the one it was made from: see
      `CapturedPhaseKeepsStaleAnalysis`); a result comes with a selection;
      RESULT has the generated image; every phase but IDLE has a snapshot. */
  ghost predicate Consistent(s: State)
  {
    && !s.isLoadingCatalog
    && s.appState != Analyzing && s.appState != GeneratingTryOn
    && (s.analysis.Some? ==> s.userSnapshot.Some?)
    && (s.generatedImage.Some? ==> s.userSnapshot.Some? && s.selectedHairstyle.Some?)
    && (s.appState == Result ==> s.generatedImage.Some?)
    && (s.appState != Idle ==> s.userSnapshot.Some?)
  }

  /** IDLE holds no selection, result, analysis or upload: a new capture
      starts from nothing but the snapshot that is about to be replaced. */
  ghost predicate IdleIsClean(s: State)
  {
    s.appState == Idle ==>
      s.selectedHairstyle.None? && s.generatedImage.None? && s.analysis.None? && s.uploadedHairstyles == []
  }

  lemma InitialIsConsistent()
    ensures Consistent(Initial) && IdleIsClean(Initial)
  {
  }

  lemma StepKeepsConsistent(s: State, e: Event, recovery: Recovery)
    requires Consistent(s) && Enabled(s, e)
    ensures Consistent(Step(s, e, recovery))
  {
  }

  lemma {:induction false} RunKeepsConsistent(s: State, events: seq<Event>, recovery: Recovery)
    requires Consistent(s) && Allowed(s, events, recovery)
    ensures Consistent(Run(s, events, recovery))
    decreases |events|
  {
    if events != [] {
      StepKeepsConsistent(s, events[0], recovery);
      RunKeepsConsistent(Step(s, events[0], recovery), events[1..], recovery);
    }
  }

  /** With the intended recovery, every step keeps IDLE clean. */
  lemma LiveStepKeepsIdleClean(s: State, e: Event)
    requires Consistent(s) && IdleIsClean(s) && Enabled(s, e)
    ensures IdleIsClean(Step(s, e, LivePhase))
  {
  }

  /** With the intended recovery, every session reachable from the initial
      state is consistent and never shows a stale selection in IDLE. */
  lemma {:induction false} LivePhaseRunsStayClean(s: State, events: seq<Event>)
    requires Consistent(s) && IdleIsClean(s) && Allowed(s, events, LivePhase)
    ensures Consistent(Run(s, events, LivePhase)) && IdleIsClean(Run(s, events, LivePhase))
    decreases |events|
  {
    if events != [] {
      StepKeepsConsistent(s, events[0], LivePhase);
      LiveStepKeepsIdleClean(s, events[0]);
      LivePhaseRunsStayClean(Step(s, events[0], LivePhase), events[1..]);
    }
  }

  /** As written, a failed try-on started from SHOPPING lands in IDLE with
      the selection (and snapshot and analysis) still set; with the intended
      recovery it returns to SHOPPING. */
  lemma TryOnFailureRecovery(s: State)
    requires s.appState == Shopping && TryOnRequest(s).Some?
    ensures var r := HandleTryOn(s, Failure, CapturedPhase);
      r.appState == Idle && r.selectedHairstyle == s.selectedHairstyle && !IdleIsClean(r)
    ensures HandleTryOn(s, Failure, LivePhase).appState == Shopping
  {
  }

  /** A concrete session that the UI allows and that ends, as written, in an
      IDLE state still holding the uploaded and selected style. */
  lemma CapturedPhaseLeavesStaleIdle(analysis: FaceAnalysis)
    ensures var events := [Capture("data:image/jpeg;base64,AAAA", Success(Some(analysis))),
                           UploadStyle(Some("data:image/png;base64,BBBB"), "1"),
                           TryOn(Failure)];
      && Allowed(Initial, events, CapturedPhase)
      && Consistent(Run(Initial, events, CapturedPhase))
      && !IdleIsClean(Run(Initial, events, CapturedPhase))
  {
    var events := [Capture("data:image/jpeg;base64,AAAA", Success(Some(analysis))),
                   UploadStyle(Some("data:image/png;base64,BBBB"), "1"),
                   TryOn(Failure)];
    var s1 := Step(Initial, events[0], CapturedPhase);
    var s2 := Step(s1, events[1], CapturedPhase);
    var s3 := Step(s2, events[2], CapturedPhase);
    assert events[1..] == [events[1], events[2]] && events[1..][1..] == [events[2]];
    assert [events[2]][1..] == [];
    assert Allowed(s2, [events[2]], CapturedPhase);
    assert Allowed(s1, [events[1], events[2]], CapturedPhase);
    assert Run(s2, [events[2]], CapturedPhase) == s3;
    assert Run(s1, [events[1], events[2]], CapturedPhase) == s3;
    assert s3.appState == Idle && s3.selectedHairstyle.Some?;
  }

  /** A concrete session that the UI allows in which, as written, a second
      capture whose analysis fails leaves IDLE showing the new snapshot next
      to the analysis of the first one. */
  lemma CapturedPhaseKeepsStaleAnalysis(analysis: FaceAnalysis)
    ensures var events := [Capture("data:image/jpeg;base64,AAAA", Success(Some(analysis))),
                           UploadStyle(Some("data:image/png;base64,BBBB"), "1"),
                           TryOn(Failure),
                           Capture("data:image/jpeg;base64,CCCC", Failure)];
      var r := Run(Initial, events, CapturedPhase);
      && Allowed(Initial, events, CapturedPhase)
      && r.appState == Idle
      && r.userSnapshot == Some("data:image/jpeg;base64,CCCC")
      && r.analysis == Some(analysis)
  {
    var events := [Capture("data:image/jpeg;base64,AAAA", Success(Some(analysis))),
                   UploadStyle(Some("data:image/png;base64,BBBB"), "1"),
                   TryOn(Failure),
                   Capture("data:image/jpeg;base64,CCCC", Failure)];
    var s1 := Step(Initial, events[0], CapturedPhase);
    var s2 := Step(s1, events[1], CapturedPhase);
    var s3 := Step(s2, events[2], CapturedPhase);
    var s4 := Step(s3, events[3], CapturedPhase);
    assert events[1..] == [events[1], events[2], events[3]];
    assert [events[1], events[2], events[3]][1..] == [events[2], events[3]];
    assert [events[2], events[3]][1..] == [events[3]];
    assert [events[3]][1..] == [];
    assert Allowed(s3, [events[3]], CapturedPhase);
    assert Allowed(s2, [events[2], events[3]], CapturedPhase);
    assert Allowed(s1, [events[1], events[2], events[3]], CapturedPhase);
    assert Run(s3, [events[3]], CapturedPhase) == s4;
    assert Run(s2, [events[2], events[3]], CapturedPhase) == s4;
    assert Run(s1, [events[1], events[2], events[3]], CapturedPhase) == s4;
  }

  /** A typical session: capture, analysis "Oval",
      a try-on with nothing selected changes nothing, select, generate,
      reset. */
  lemma ScenarioCaptureSelectGenerateReset(x: string, a: FaceAnalysis, item: HairstyleItem, z: string)
    requires x != "" && a.faceShape == "Oval"
    ensures var s1 := ProcessUserImage(Initial, x, Success(Some(a)));
      && s1.appState == Shopping && s1.analysis.value.faceShape == "Oval"
      && HandleTryOn(s1, Success(z), CapturedPhase) == s1
      && var s2 := HandleTryOn(SelectHairstyle(s1, item), Success(z), CapturedPhase);
         && s2.appState == Result && s2.generatedImage == Some(z)
         && ResetProcess(s2) == Initial
  {
  }
}
