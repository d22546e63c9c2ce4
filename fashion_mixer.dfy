/** The mixer screen (App.tsx): six pieces of state, the run started by the
    mix button, and the three background completions that merge into the
    shown concept.

    Every `await` splits a handler into separate events; an event is one
    synchronous stretch of the handler or one `.then` callback. Completions
    carry no run identifier, so they may arrive in any order and in any
    later state. */
module FashionMixer {
  import opened Wrappers
  import opened Types
  import opened JsSemantics
  import GeminiService

  const UploadMessage: string :=
    "Please upload all three reference images (Texture, Silhouette, Color) to begin."
  const FailureMessage: string :=
    "Failed to generate concept. Please ensure your API key is valid and try again."

  /** The theme shown before any concept exists. */
  const NeonTheme: UITheme := UITheme(
    "Neon Vogue", "#FF0080", "#00FFFF",
    "linear-gradient(135deg, #050505 0%, #1a0b2e 50%, #000000 100%)", "#ffffff")

  const White: string := "#ffffff"
  const Black: string := "#000000"

  datatype MixState = MixState(
    images: ImageState,
    previews: PreviewState,
    loading: bool,
    result: Option<FashionConcept>,
    error: Option<string>,
    currentTheme: UITheme)

  function Initial(): MixState
  {
    MixState(EmptySlots, EmptyPreviews, false, None, None, NeonTheme)
  }

  // ---------------------------------------------------------------------------
  // handleFileSelect: store the file, then (after reading it) its preview.

  function OnSelectFile(s: MixState, slot: Slot, file: File): (r: MixState)
    ensures r.images.Get(slot) == Some(file)
    ensures forall other :: other != slot ==> r.images.Get(other) == s.images.Get(other)
    ensures r == s.(images := r.images)
  {
    s.(images := s.images.With(slot, file))
  }

  /** `url` is None when reading the file failed; the error is only logged. */
  function OnPreviewRead(s: MixState, slot: Slot, url: Option<string>): (r: MixState)
    ensures url.None? ==> r == s
    ensures url.Some? ==> r.previews.Get(slot) == url
    ensures forall other :: other != slot ==> r.previews.Get(other) == s.previews.Get(other)
    ensures r == s.(previews := r.previews)
  {
    match url
    case Some(u) => s.(previews := s.previews.With(slot, u))
    case None => s
  }

  // ---------------------------------------------------------------------------
  // handleMix, up to the primary call and after it.

  predicate AllImagesPresent(images: ImageState)
  {
    images.texture.Some? && images.silhouette.Some? && images.color.Some?
  }

  /** The clicked button: clear the error, then either reject or start a run. */
  function OnMix(s: MixState): (r: MixState)
    ensures !AllImagesPresent(s.images) ==> r == s.(error := Some(UploadMessage))
    ensures AllImagesPresent(s.images) ==> r == s.(error := None, loading := true, result := None)
  {
    var cleared := s.(error := None);
    if !AllImagesPresent(s.images) then cleared.(error := Some(UploadMessage))
    else cleared.(loading := true, result := None)
  }

  /** The primary call settled: publish the concept and its theme, or report
      the failure. */
  function OnPrimaryDone(s: MixState, outcome: Result<FashionConcept, GeminiService.ConceptError>)
    : (r: MixState)
    ensures !r.loading
    ensures r.images == s.images && r.previews == s.previews
    ensures outcome.Ok? ==> r.result == Some(outcome.value) && r.currentTheme == outcome.value.ui_theme
    ensures outcome.Ok? ==> r.error == s.error
    ensures outcome.Err? ==> r.result == s.result && r.error == Some(FailureMessage)
    ensures outcome.Err? ==> r.currentTheme == s.currentTheme
  {
    match outcome
    case Ok(concept) => s.(currentTheme := concept.ui_theme, result := Some(concept), loading := false)
    case Err(_) => s.(error := Some(FailureMessage), loading := false)
  }

  // ---------------------------------------------------------------------------
  // The three functional updaters `prev => prev ? { ...prev, field: v } : null`.

  /** A concept with its three enrichment fields cleared: what no merge touches. */
  function Core(c: FashionConcept): FashionConcept
  {
    c.(generated_image := None, shopping_items := None, mood_board_images := None)
  }

  function WithImage(prev: Option<FashionConcept>, img: string): (r: Option<FashionConcept>)
    ensures r.Some? <==> prev.Some?
    ensures r.Some? ==> && Core(r.value) == Core(prev.value)
                        && r.value.generated_image == Some(img)
                        && r.value.shopping_items == prev.value.shopping_items
                        && r.value.mood_board_images == prev.value.mood_board_images
  {
    match prev
    case Some(c) => Some(c.(generated_image := Some(img)))
    case None => None
  }

  function WithLeads(prev: Option<FashionConcept>, links: seq<SearchResult>): (r: Option<FashionConcept>)
    ensures r.Some? <==> prev.Some?
    ensures r.Some? ==> && Core(r.value) == Core(prev.value)
                        && r.value.generated_image == prev.value.generated_image
                        && r.value.shopping_items == Some(links)
                        && r.value.mood_board_images == prev.value.mood_board_images
  {
    match prev
    case Some(c) => Some(c.(shopping_items := Some(links)))
    case None => None
  }

  function WithMoodBoard(prev: Option<FashionConcept>, images: seq<string>): (r: Option<FashionConcept>)
    ensures r.Some? <==> prev.Some?
    ensures r.Some? ==> && Core(r.value) == Core(prev.value)
                        && r.value.generated_image == prev.value.generated_image
                        && r.value.shopping_items == prev.value.shopping_items
                        && r.value.mood_board_images == Some(images)
  {
    match prev
    case Some(c) => Some(c.(mood_board_images := Some(images)))
    case None => None
  }

  /** The `.then` callbacks with their guards: a falsy image, an empty list of
      leads and an empty mood board leave the state alone. */
  function OnIllustration(s: MixState, img: Option<string>): (r: MixState)
    ensures r == s.(result := r.result)
    ensures !Truthy(img) || s.result.None? ==> r == s
    ensures Truthy(img) && s.result.Some? ==>
      r.result.Some? && r.result.value.generated_image == img && Core(r.result.value) == Core(s.result.value)
    ensures Truthy(img) ==> r.result == WithImage(s.result, img.value)
  {
    if Truthy(img) then s.(result := WithImage(s.result, img.value)) else s
  }

  function OnLeads(s: MixState, links: seq<SearchResult>): (r: MixState)
    ensures r == s.(result := r.result)
    ensures links == [] || s.result.None? ==> r == s
    ensures links != [] && s.result.Some? ==>
      r.result.Some? && r.result.value.shopping_items == Some(links) && Core(r.result.value) == Core(s.result.value)
    ensures links != [] ==> r.result == WithLeads(s.result, links)
  {
    if |links| > 0 then s.(result := WithLeads(s.result, links)) else s
  }

  function OnMoodBoard(s: MixState, images: seq<string>): (r: MixState)
    ensures r == s.(result := r.result)
    ensures images == [] || s.result.None? ==> r == s
    ensures images != [] && s.result.Some? ==>
      r.result.Some? && r.result.value.mood_board_images == Some(images) && Core(r.result.value) == Core(s.result.value)
    ensures images != [] ==> r.result == WithMoodBoard(s.result, images)
  {
    if |images| > 0 then s.(result := WithMoodBoard(s.result, images)) else s
  }

  // ---------------------------------------------------------------------------
  // Events and traces.

  datatype Event =
    | SelectFile(slot: Slot, file: File)
    | PreviewRead(slot: Slot, url: Option<string>)
    | Mix
    | PrimaryDone(outcome: Result<FashionConcept, GeminiService.ConceptError>)
    | IllustrationDone(img: Option<string>)
    | LeadsDone(links: seq<SearchResult>)
    | MoodBoardDone(images: seq<string>)
  {
    predicate IsEnrichment()
    {
      IllustrationDone? || LeadsDone? || MoodBoardDone?
    }
  }

  /** Two completions that write different fields. */
  predicate DifferentKinds(e1: Event, e2: Event)
  {
    && e1.IsEnrichment() && e2.IsEnrichment()
    && !(e1.IllustrationDone? && e2.IllustrationDone?)
    && !(e1.LeadsDone? && e2.LeadsDone?)
    && !(e1.MoodBoardDone? && e2.MoodBoardDone?)
  }

  /** One event; each handler writes only the state it calls a setter for. */
  function Step(s: MixState, e: Event): (r: MixState)
    ensures !e.SelectFile? ==> r.images == s.images
    ensures !e.PreviewRead? ==> r.previews == s.previews
    ensures r.currentTheme != s.currentTheme ==> e.PrimaryDone? && e.outcome.Ok?
    ensures e.IsEnrichment() ==> r == s.(result := r.result)
  {
    match e
    case SelectFile(slot, file) => OnSelectFile(s, slot, file)
    case PreviewRead(slot, url) => OnPreviewRead(s, slot, url)
    case Mix => OnMix(s)
    case PrimaryDone(outcome) => OnPrimaryDone(s, outcome)
    case IllustrationDone(img) => OnIllustration(s, img)
    case LeadsDone(links) => OnLeads(s, links)
    case MoodBoardDone(images) => OnMoodBoard(s, images)
  }

  /** A sequence of events; without a file selection the files stay, and
      completions alone touch nothing but the shown concept. */
  function Run(s: MixState, events: seq<Event>): (r: MixState)
    ensures (forall k :: 0 <= k < |events| ==> !events[k].SelectFile?) ==> r.images == s.images
    ensures (forall k :: 0 <= k < |events| ==> events[k].IsEnrichment()) ==> r == s.(result := r.result)
    decreases |events|
  {
    if events == [] then s else Run(Step(s, events[0]), events[1..])
  }

  lemma RunCons(s: MixState, e: Event, events: seq<Event>)
    ensures Run(s, [e] + events) == Run(Step(s, e), events)
  {
    assert ([e] + events)[1..] == events;
  }

  lemma RunPair(s: MixState, e1: Event, e2: Event)
    ensures Run(s, [e1, e2]) == Step(Step(s, e1), e2)
  {
    RunCons(s, e1, [e2]);
    RunCons(Step(s, e1), e2, []);
    assert [e1] + [e2] == [e1, e2];
  }

  lemma {:induction false} RunAppend(s: MixState, xs: seq<Event>, ys: seq<Event>)
    ensures Run(s, xs + ys) == Run(Run(s, xs), ys)
    decreases |xs|
  {
    if xs == [] {
      assert xs + ys == ys;
    } else {
      assert (xs + ys)[1..] == xs[1..] + ys;
      RunAppend(Step(s, xs[0]), xs[1..], ys);
    }
  }

  // ---------------------------------------------------------------------------
  // The derived view.

  /** `result ? result.ui_theme : currentTheme` */
  function ActiveTheme(s: MixState): (r: UITheme)
    ensures s.result.Some? ==> r == s.result.value.ui_theme
    ensures Inv(s) ==> r == s.currentTheme
  {
    match s.result
    case Some(c) => c.ui_theme
    case None => s.currentTheme
  }

  /** Black, or the theme's own text colour; `ButtonTextColorRule` says which. */
  function ButtonTextColor(theme: UITheme): (r: string)
    ensures r == Black || r == theme.text_color
  {
    if ToLower(theme.primary_hex) == White then Black else theme.text_color
  }

  /** Black text exactly on a primary colour written "#ffffff" in any letter
      case; the theme's own text colour otherwise. */
  lemma ButtonTextColorRule(theme: UITheme)
    ensures var p := theme.primary_hex;
      ButtonTextColor(theme) ==
        if |p| == 7 && p[0] == '#' && (forall i :: 1 <= i < 7 ==> p[i] == 'f' || p[i] == 'F')
        then Black else theme.text_color
  {
    LowerIsWhiteHexIff(theme.primary_hex);
  }

  // ---------------------------------------------------------------------------
  // The invariant of every reachable state.

  /** While the primary call is pending nothing is shown, and a shown concept
      always carries the current theme. */
  ghost predicate Inv(s: MixState)
  {
    && (s.loading ==> s.result.None?)
    && (s.result.Some? ==> s.result.value.ui_theme == s.currentTheme)
  }

  lemma StepPreservesInv(s: MixState, e: Event)
    requires Inv(s)
    ensures Inv(Step(s, e))
  {
  }

  lemma {:induction false} RunPreservesInv(s: MixState, events: seq<Event>)
    requires Inv(s)
    ensures Inv(Run(s, events))
    decreases |events|
  {
    if events != [] {
      StepPreservesInv(s, events[0]);
      RunPreservesInv(Step(s, events[0]), events[1..]);
    }
  }

  /** In every reachable state the active theme is simply `currentTheme`: the
      fallback in `activeTheme` never makes a difference. */
  lemma ActiveThemeIsCurrentTheme(events: seq<Event>)
    ensures ActiveTheme(Run(Initial(), events)) == Run(Initial(), events).currentTheme
  {
    RunPreservesInv(Initial(), events);
  }

  /** A completion that arrives while a primary call is pending is lost: the
      record it would merge into is null. */
  lemma EnrichmentDuringPendingRunIsLost(s: MixState, e: Event)
    requires Inv(s) && s.loading && e.IsEnrichment()
    ensures Step(s, e) == s
  {
  }

  // ---------------------------------------------------------------------------
  // Merging the completions.

  /** A merge changes only its own field of the shown concept, and nothing
      else of the state; a null concept stays null. */
  lemma EnrichmentFrame(s: MixState, e: Event)
    requires e.IsEnrichment()
    ensures var r := Step(s, e);
      && r == s.(result := r.result)
      && (r.result.Some? <==> s.result.Some?)
      && (r.result.Some? ==>
            && Core(r.result.value) == Core(s.result.value)
            && (!e.IllustrationDone? ==> r.result.value.generated_image == s.result.value.generated_image)
            && (!e.LeadsDone? ==> r.result.value.shopping_items == s.result.value.shopping_items)
            && (!e.MoodBoardDone? ==> r.result.value.mood_board_images == s.result.value.mood_board_images))
  {
  }

  /** A falsy image, no leads and an empty mood board are not recorded. */
  lemma FalsyCompletionsIgnored(s: MixState, img: Option<string>)
    requires !Truthy(img)
    ensures Step(s, IllustrationDone(img)) == s
    ensures Step(s, LeadsDone([])) == s
    ensures Step(s, MoodBoardDone([])) == s
  {
  }

  /** Completions of different kinds commute. */
  lemma EnrichmentsCommute(s: MixState, e1: Event, e2: Event)
    requires DifferentKinds(e1, e2)
    ensures Step(Step(s, e1), e2) == Step(Step(s, e2), e1)
  {
  }

  /** The three completions of one run give the same final state in all six
      orders. */
  lemma AnyCompletionOrder(s: MixState, img: Option<string>, links: seq<SearchResult>, images: seq<string>)
    ensures var i, l, m := IllustrationDone(img), LeadsDone(links), MoodBoardDone(images);
      var final := Run(s, [i, l, m]);
      && Run(s, [i, m, l]) == final
      && Run(s, [l, i, m]) == final
      && Run(s, [l, m, i]) == final
      && Run(s, [m, i, l]) == final
      && Run(s, [m, l, i]) == final
  {
    var i, l, m := IllustrationDone(img), LeadsDone(links), MoodBoardDone(images);
    forall x, y, z | [x, y, z] in [[i, m, l], [l, i, m], [l, m, i], [m, i, l], [m, l, i], [i, l, m]]
      ensures Run(s, [x, y, z]) == Step(Step(Step(s, x), y), z)
    {
      RunCons(s, x, [y, z]);
      RunCons(Step(s, x), y, [z]);
      RunCons(Step(Step(s, x), y), z, []);
    }
    EnrichmentsCommute(s, i, l);
    EnrichmentsCommute(s, i, m);
    EnrichmentsCommute(s, l, m);
    EnrichmentsCommute(Step(s, i), l, m);
    EnrichmentsCommute(Step(s, l), i, m);
    EnrichmentsCommute(Step(s, m), i, l);
  }

  /** Delivering the same completion twice changes the state once. */
  lemma EnrichmentIdempotent(s: MixState, e: Event)
    requires e.IsEnrichment()
    ensures Step(Step(s, e), e) == Step(s, e)
  {
  }

  /** A later write to a field replaces an earlier one: there is no
      first-write-wins. */
  lemma LaterLeadsOverwrite(s: MixState, first: seq<SearchResult>, second: seq<SearchResult>)
    requires |second| > 0
    ensures Run(s, [LeadsDone(first), LeadsDone(second)]) == Step(s, LeadsDone(second))
  {
    RunPair(s, LeadsDone(first), LeadsDone(second));
  }

  // ---------------------------------------------------------------------------
  // Runs.

  /** A successful run publishes the concept and its theme, then merges an
      illustration into it. */
  lemma SuccessfulRun(s: MixState, concept: FashionConcept, img: string)
    requires AllImagesPresent(s.images) && img != ""
    ensures var shown := Run(s, [Mix, PrimaryDone(Ok(concept))]);
      && shown.result == Some(concept)
      && shown.currentTheme == concept.ui_theme
      && !shown.loading
      && shown.error == None
      && Step(shown, IllustrationDone(Some(img))).result == Some(concept.(generated_image := Some(img)))
  {
    RunPair(s, Mix, PrimaryDone(Ok(concept)));
  }

  /** A failed primary call leaves nothing shown and reports the failure. */
  lemma FailedRun(s: MixState, why: GeminiService.ConceptError)
    requires AllImagesPresent(s.images)
    ensures var r := Run(s, [Mix, PrimaryDone(Err(why))]);
      r.result == None && !r.loading && r.error == Some(FailureMessage) && r.currentTheme == s.currentTheme
  {
    RunPair(s, Mix, PrimaryDone(Err(why)));
  }

  /** A response without text fails the run through the concept call's error path. */
  lemma EmptyResponseFailsRun(s: MixState, resp: GeminiService.Response,
                              parse: string -> Option<FashionConcept>)
    requires AllImagesPresent(s.images) && !Truthy(resp.text)
    ensures var outcome := GeminiService.GenerateFashionConcept(GeminiService.Returned(resp), parse);
      var r := Run(s, [Mix, PrimaryDone(outcome)]);
      r.result == None && r.error == Some(FailureMessage)
  {
    var outcome := GeminiService.GenerateFashionConcept(GeminiService.Returned(resp), parse);
    RunPair(s, Mix, PrimaryDone(outcome));
  }

  /** With no run identifier, an illustration of the first run that arrives
      after a second run has published its concept lands in the second
      concept. The button is enabled again once the first concept is shown. */
  lemma StaleCompletionMergesIntoLaterRun(s: MixState, first: FashionConcept, second: FashionConcept, img: string)
    requires AllImagesPresent(s.images) && img != ""
    ensures !Run(s, [Mix, PrimaryDone(Ok(first))]).loading
    ensures Run(s, [Mix, PrimaryDone(Ok(first)), Mix, PrimaryDone(Ok(second)), IllustrationDone(Some(img))]).result
         == Some(second.(generated_image := Some(img)))
  {
    var first2 := [Mix, PrimaryDone(Ok(first))];
    var rest := [Mix, PrimaryDone(Ok(second)), IllustrationDone(Some(img))];
    RunPair(s, Mix, PrimaryDone(Ok(first)));
    RunAppend(s, first2, rest);
    assert first2 + rest == [Mix, PrimaryDone(Ok(first)), Mix, PrimaryDone(Ok(second)), IllustrationDone(Some(img))];
    var shown := Run(s, first2);
    RunCons(shown, Mix, [PrimaryDone(Ok(second)), IllustrationDone(Some(img))]);
    RunPair(Step(shown, Mix), PrimaryDone(Ok(second)), IllustrationDone(Some(img)));
  }

  // ---------------------------------------------------------------------------
  // The component itself.

  class MixerApp {
    var images: ImageState
    var previews: PreviewState
    var loading: bool
    var result: Option<FashionConcept>
    var error: Option<string>
    var currentTheme: UITheme

    function State(): MixState
      reads this
    {
      MixState(images, previews, loading, result, error, currentTheme)
    }

    constructor ()
      ensures State() == Initial()
    {
      images := EmptySlots;
      previews := EmptyPreviews;
      loading := false;
      result := None;
      error := None;
      currentTheme := NeonTheme;
    }

    /** `handleFileSelect`, up to the file read. */
    method HandleFileSelect(slot: Slot, file: File)
      modifies this
      ensures images.Get(slot) == Some(file)
      ensures forall other :: other != slot ==> images.Get(other) == old(images).Get(other)
      ensures State() == Step(old(State()), SelectFile(slot, file))
    {
      images := images.With(slot, file);
    }

    /** `handleFileSelect`, after the file read resolved (`Some`) or failed (`None`). */
    method PreviewSettled(slot: Slot, url: Option<string>)
      modifies this
      ensures url.Some? ==> previews == old(previews).With(slot, url.value)
      ensures url.None? ==> previews == old(previews)
      ensures State() == Step(old(State()), PreviewRead(slot, url))
    {
      if url.Some? {
        previews := previews.With(slot, url.value);
      }
    }

    /** `handleMix` up to the primary call; `request` holds the three files
      the call is made with, or None when the run was rejected. */
    method HandleMix() returns (request: Option<(File, File, File)>)
      modifies this
      ensures request.Some? <==> AllImagesPresent(old(images))
      ensures request.Some? ==>
                request.value == (old(images).texture.value, old(images).silhouette.value, old(images).color.value)
      ensures request.None? ==> error == Some(UploadMessage) && loading == old(loading)
                                && result == old(result) && currentTheme == old(currentTheme)
      ensures request.Some? ==> error == None && loading && result == None
      ensures State() == Step(old(State()), Mix)
    {
      error := None;
      if images.texture.None? || images.silhouette.None? || images.color.None? {
        error := Some(UploadMessage);
        return None;
      }
      loading := true;
      result := None;
      request := Some((images.texture.value, images.silhouette.value, images.color.value));
    }

    /** `handleMix` after the primary call: the try block or the catch block. */
    method PrimarySettled(outcome: Result<FashionConcept, GeminiService.ConceptError>)
      modifies this
      ensures !loading
      ensures outcome.Ok? ==> result == Some(outcome.value) && currentTheme == outcome.value.ui_theme
                              && error == old(error)
      ensures outcome.Err? ==> error == Some(FailureMessage) && result == old(result)
                               && currentTheme == old(currentTheme)
      ensures State() == Step(old(State()), PrimaryDone(outcome))
    {
      match outcome {
        case Ok(concept) =>
          currentTheme := concept.ui_theme;
          result := Some(concept);
          loading := false;
        case Err(_) =>
          error := Some(FailureMessage);
          loading := false;
      }
    }

    method IllustrationSettled(img: Option<string>)
      modifies this
      ensures result == if Truthy(img) then WithImage(old(result), img.value) else old(result)
      ensures State() == Step(old(State()), IllustrationDone(img))
    {
      if img.Some? && img.value != "" {
        result := WithImage(result, img.value);
      }
    }

    method LeadsSettled(links: seq<SearchResult>)
      modifies this
      ensures result == if |links| > 0 then WithLeads(old(result), links) else old(result)
      ensures State() == Step(old(State()), LeadsDone(links))
    {
      if |links| > 0 {
        result := WithLeads(result, links);
      }
    }

    method MoodBoardSettled(images: seq<string>)
      modifies this
      ensures result == if |images| > 0 then WithMoodBoard(old(result), images) else old(result)
      ensures State() == Step(old(State()), MoodBoardDone(images))
    {
      if |images| > 0 {
        result := WithMoodBoard(result, images);
      }
    }

    /** The colour of the mix button's label. */
    method ButtonText() returns (color: string)
      ensures color == ButtonTextColor(ActiveTheme(State()))
    {
      color := ButtonTextColor(ActiveTheme(State()));
    }
  }
}
