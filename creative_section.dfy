/** The directed-generation form (components/AICreativeSection.tsx): a text
    directive, three reference slots of which the first is mandatory, and a
    single pending generation with its result. */
module CreativeSection {
  import opened Wrappers
  import opened Types
  import opened JsSemantics

  const SlotCount: nat := 3

  datatype CreativeState = CreativeState(
    prompt: string,
    refImages: seq<Option<File>>,
    refPreviews: seq<Option<string>>,
    loading: bool,
    generatedImg: Option<string>)

  function Initial(): CreativeState
  {
    CreativeState("", [None, None, None], [None, None, None], false, None)
  }

  /** What `onGenerate` did: throw, or resolve to an image or null. */
  datatype GenerateOutcome = Threw | Resolved(img: Option<string>)

  /** `!isMandatoryImageMissing && !isPromptMissing` */
  predicate CanGenerate(refImages: seq<Option<File>>, prompt: string)
    ensures CanGenerate(refImages, prompt) ==> prompt != "" && 1 <= |ValidImages(refImages)|
  {
    |refImages| > 0 && refImages[0].Some? && Trim(prompt) != ""
  }

  /** Generation is possible exactly when the first slot holds a file and the
      directive has a character that is not whitespace. */
  lemma CanGenerateIff(refImages: seq<Option<File>>, prompt: string)
    ensures CanGenerate(refImages, prompt) <==>
      |refImages| > 0 && refImages[0].Some? && exists i :: 0 <= i < |prompt| && !IsJsWhitespace(prompt[i])
  {
    TrimmedEmptyIff(prompt);
  }

  /** `refImages.filter(img => img !== null)` */
  function ValidImages(refImages: seq<Option<File>>): (r: seq<File>)
    ensures |r| <= |refImages|
  {
    Somes(refImages)
  }

  /** When generation goes ahead, the files sent start with the mandatory one
      and number one to three, in slot order. */
  lemma ValidImagesWhenGenerating(refImages: seq<Option<File>>, prompt: string)
    requires CanGenerate(refImages, prompt) && |refImages| == SlotCount
    ensures var v := ValidImages(refImages);
      && 1 <= |v| <= SlotCount
      && v[0] == refImages[0].value
      && v == [refImages[0].value] + AsList(refImages[1]) + AsList(refImages[2])
  {
    SomesOfThree(refImages);
  }

  // ---------------------------------------------------------------------------
  // Transitions.

  function OnPromptChange(s: CreativeState, prompt: string): (r: CreativeState)
    ensures r.prompt == prompt
    ensures r.refImages == s.refImages && r.refPreviews == s.refPreviews
    ensures r.loading == s.loading && r.generatedImg == s.generatedImg
  {
    s.(prompt := prompt)
  }

  /** `newImages = [...refImages]; newImages[index] = file` */
  function OnSelectReference(s: CreativeState, index: nat, file: File): (r: CreativeState)
    requires index < |s.refImages|
    ensures |r.refImages| == |s.refImages| && r.refImages[index] == Some(file)
    ensures forall j :: 0 <= j < |s.refImages| && j != index ==> r.refImages[j] == s.refImages[j]
    ensures r == s.(refImages := r.refImages)
  {
    s.(refImages := s.refImages[index := Some(file)])
  }

  /** The same for the preview, once the file is read; `url` is None when the
      read was rejected, which ends the handler before any update. */
  function OnPreviewRead(s: CreativeState, index: nat, url: Option<string>): (r: CreativeState)
    requires index < |s.refPreviews|
    ensures |r.refPreviews| == |s.refPreviews|
    ensures url.Some? ==> r.refPreviews[index] == url
    ensures url.None? ==> r == s
    ensures forall j :: 0 <= j < |s.refPreviews| && j != index ==> r.refPreviews[j] == s.refPreviews[j]
    ensures r == s.(refPreviews := r.refPreviews)
  {
    match url
    case Some(u) => s.(refPreviews := s.refPreviews[index := Some(u)])
    case None => s
  }

  /** `handleGenerate` up to the call. */
  function OnBeginGenerate(s: CreativeState): (r: CreativeState)
    ensures !CanGenerate(s.refImages, s.prompt) ==> r == s
    ensures CanGenerate(s.refImages, s.prompt) ==> r.loading && r.generatedImg.None?
    ensures r.prompt == s.prompt && r.refImages == s.refImages && r.refPreviews == s.refPreviews
  {
    if !CanGenerate(s.refImages, s.prompt) then s
    else s.(loading := true, generatedImg := None)
  }

  /** `handleGenerate` after the call: the result on success, and in either
      case the `finally` block. */
  function OnGenerateSettled(s: CreativeState, outcome: GenerateOutcome): (r: CreativeState)
    ensures !r.loading
    ensures outcome.Resolved? ==> r.generatedImg == outcome.img
    ensures outcome.Threw? ==> r.generatedImg == s.generatedImg
    ensures r.prompt == s.prompt && r.refImages == s.refImages && r.refPreviews == s.refPreviews
  {
    match outcome
    case Resolved(img) => s.(generatedImg := img, loading := false)
    case Threw => s.(loading := false)
  }

  /** The generation sequence: nothing happens without a mandatory image and a
      directive; otherwise the old image is cleared while loading, and after
      the call loading is off, with the result shown or, after a throw,
      nothing shown. */
  lemma GenerateSequence(s: CreativeState, outcome: GenerateOutcome)
    ensures !CanGenerate(s.refImages, s.prompt) ==> OnBeginGenerate(s) == s
    ensures CanGenerate(s.refImages, s.prompt) ==>
      var pending := OnBeginGenerate(s);
      var settled := OnGenerateSettled(pending, outcome);
      && pending.loading && pending.generatedImg == None
      && !settled.loading
      && settled.generatedImg == (if outcome.Resolved? then outcome.img else None)
      && settled.refImages == s.refImages && settled.prompt == s.prompt
  {
  }

  // ---------------------------------------------------------------------------
  // Events and the invariant of every reachable state.

  datatype Event =
    | PromptChange(text: string)
    | SelectReference(index: nat, file: File)
    | PreviewRead(index: nat, url: Option<string>)
    | Generate
    | GenerateDone(outcome: GenerateOutcome)

  /** The component's slots have three entries; the handlers are only wired
      to indices 0, 1 and 2, so a larger index does nothing here. */
  function Step(s: CreativeState, e: Event): (r: CreativeState)
    ensures |r.refImages| == |s.refImages| && |r.refPreviews| == |s.refPreviews|
    ensures !e.PromptChange? ==> r.prompt == s.prompt
    ensures !e.SelectReference? ==> r.refImages == s.refImages
    ensures !e.PreviewRead? ==> r.refPreviews == s.refPreviews
    ensures r.loading != s.loading ==> e.Generate? || e.GenerateDone?
  {
    match e
    case PromptChange(text) => OnPromptChange(s, text)
    case SelectReference(index, file) =>
      if index < |s.refImages| then OnSelectReference(s, index, file) else s
    case PreviewRead(index, url) =>
      if index < |s.refPreviews| then OnPreviewRead(s, index, url) else s
    case Generate => OnBeginGenerate(s)
    case GenerateDone(outcome) => OnGenerateSettled(s, outcome)
  }

  /** A sequence of events; the slots keep their number, and without a file
      selection the files stay. */
  function Run(s: CreativeState, events: seq<Event>): (r: CreativeState)
    ensures |r.refImages| == |s.refImages| && |r.refPreviews| == |s.refPreviews|
    ensures (forall k :: 0 <= k < |events| ==> !events[k].SelectReference?) ==> r.refImages == s.refImages
    decreases |events|
  {
    if events == [] then s else Run(Step(s, events[0]), events[1..])
  }

  /** Three slots each, and no stale image is shown while a call is pending. */
  ghost predicate Inv(s: CreativeState)
  {
    |s.refImages| == SlotCount && |s.refPreviews| == SlotCount && (s.loading ==> s.generatedImg.None?)
  }

  lemma {:induction false} RunPreservesInv(s: CreativeState, events: seq<Event>)
    requires Inv(s)
    ensures Inv(Run(s, events))
    decreases |events|
  {
    if events != [] {
      RunPreservesInv(Step(s, events[0]), events[1..]);
    }
  }

  lemma ReachableInv(events: seq<Event>)
    ensures Inv(Run(Initial(), events))
  {
    RunPreservesInv(Initial(), events);
  }

  // ---------------------------------------------------------------------------
  // The component itself.

  class CreativeForm {
    var prompt: string
    var refImages: seq<Option<File>>
    var refPreviews: seq<Option<string>>
    var loading: bool
    var generatedImg: Option<string>

    function State(): CreativeState
      reads this
    {
      CreativeState(prompt, refImages, refPreviews, loading, generatedImg)
    }

    ghost predicate Valid()
      reads this
    {
      Inv(State())
    }

    constructor ()
      ensures Valid() && State() == Initial()
    {
      prompt := "";
      refImages := [None, None, None];
      refPreviews := [None, None, None];
      loading := false;
      generatedImg := None;
    }

    /** The directive's `onChange`. */
    method SetPrompt(text: string)
      requires Valid()
      modifies this
      ensures Valid()
      ensures State() == old(State()).(prompt := text)
    {
      prompt := text;
    }

    /** `handleFileSelect`, up to the file read. */
    method HandleFileSelect(index: nat, file: File)
      requires Valid() && index < SlotCount
      modifies this
      ensures Valid()
      ensures refImages == old(refImages)[index := Some(file)]
      ensures State() == Step(old(State()), SelectReference(index, file))
    {
      var newImages := refImages;
      newImages := newImages[index := Some(file)];
      refImages := newImages;
    }

    /** `handleFileSelect`, after the read resolved (`Some`) or was rejected (`None`). */
    method PreviewSettled(index: nat, url: Option<string>)
      requires Valid() && index < SlotCount
      modifies this
      ensures Valid()
      ensures url.Some? ==> refPreviews == old(refPreviews)[index := url]
      ensures url.None? ==> refPreviews == old(refPreviews)
      ensures State() == Step(old(State()), PreviewRead(index, url))
    {
      if url.Some? {
        var newPreviews := refPreviews;
        newPreviews := newPreviews[index := url];
        refPreviews := newPreviews;
      }
    }

    /** `handleGenerate` up to the call; `request` is the directive and the
        files passed to `onGenerate`, or None when the handler returned early. */
    method HandleGenerate() returns (request: Option<(string, seq<File>)>)
      requires Valid()
      modifies this
      ensures Valid()
      ensures request.Some? <==> CanGenerate(old(refImages), old(prompt))
      ensures request.Some? ==> request.value == (prompt, ValidImages(refImages))
                                && loading && generatedImg == None
      ensures request.None? ==> State() == old(State())
      ensures State() == Step(old(State()), Generate)
    {
      if !(refImages[0].Some? && Trim(prompt) != "") {
        return None;
      }
      loading := true;
      generatedImg := None;
      var validImages := Somes(refImages);
      request := Some((prompt, validImages));
    }

    /** `handleGenerate` after the call. */
    method GenerateSettled(outcome: GenerateOutcome)
      requires Valid()
      modifies this
      ensures Valid()
      ensures !loading
      ensures outcome.Resolved? ==> generatedImg == outcome.img
      ensures outcome.Threw? ==> generatedImg == old(generatedImg)
      ensures State() == Step(old(State()), GenerateDone(outcome))
    {
      if outcome.Resolved? {
        generatedImg := outcome.img;
      }
      loading := false;
    }
  }
}
