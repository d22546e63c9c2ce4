# Fashion Mixer client core, modelled in Dafny

Fashion Mixer is a browser client that turns three reference images
(texture, silhouette, colour) into a generated fashion concept. It then
enriches the concept with an illustration, shopping leads and a mood board,
and re-themes the page with the concept's colours. This project models the
three pieces of the client that carry sequential logic, and proves
properties of them:

- **The mixer screen** (`App.tsx`, module `FashionMixer`). Six state slots:
  `images`, `previews`, `loading`, `result`, `error`, `currentTheme`. A run
  checks that all three images are present, clears the result and sets
  `loading`. When the primary concept call settles, the concept and its
  theme are published, or an error is reported. Three enrichment completions
  then arrive in any order. Each one merges into whatever concept is current,
  through a functional update guarded by its own truthiness test. Every
  `await` splits a handler into separate events; `Run` applies a sequence of
  events, so any interleaving can be stated. The derived `activeTheme` and
  the button's text colour are modelled too. The class `MixerApp` has the
  six slots as fields; each handler is a method proved equal to the pure
  transition `Step`.
- **The gateway's post-processing** (`services/geminiService.ts`, module
  `GeminiService`). The service's responses are inputs: a call either threw
  or returned a response record with the fields the client reads. Modelled:
  the concept call's empty-text and rethrow paths; the illustration loop that
  takes the first part with inline data; the mood-board filter; the shopping
  path. The shopping path maps grounding chunks to leads with defaults,
  de-duplicates by URL through a JavaScript `Map`, and keeps at most four.
  The `Map` is modelled as insertion-ordered keys plus a key-to-value map, so
  its semantics are exact: a URL stays where it first appeared but carries
  the item of its last occurrence.
- **The directed-generation form** (`components/AICreativeSection.tsx`,
  module `CreativeSection`). Covers the `canGenerate` test, with JavaScript's
  `trim` whitespace set written out; the three reference slots with index
  replacement; the null filter of the references; the `loading` /
  `generatedImg` sequence of `handleGenerate`. The class `CreativeForm` holds
  the state.

Shared pieces: `Wrappers` (`Option`, `Result`, the order-preserving filter
`Somes`), `Types` (the records of `types.ts`, with the enrichment fields as
`Option`), `JsSemantics` (string truthiness, the logical-or fallback on strings, `trim`, and
`toLowerCase` on ASCII).

Behaviour of the code worth knowing:

- The code has no run identifier. A completion from an earlier run merges
  into whatever concept is current, including a later run's concept
  (`StaleCompletionMergesIntoLaterRun`). A completion that arrives while a
  primary call is pending is lost because the result is null at that moment
  (`EnrichmentDuringPendingRunIsLost`).
- Merges are last-write-wins: a later completion of the same kind replaces an
  earlier one (`LaterLeadsOverwrite`).
- An empty list of leads is not recorded: it leaves the field as it was,
  which may be an earlier run's leads (`FalsyCompletionsIgnored`).
- De-duplication keeps the first position of a URL but the last item with
  that URL, because `Map.set` overwrites the value of a key it already holds
  (`DedupeExample`).
- The concept is the parsed JSON cast to a concept. The code runs no shape
  check and no hex check, and a parsed concept may already carry enrichment
  fields (`GenerateFashionConcept`). The model assumes the parse yields a
  well-shaped concept (see "Left out").

## Model

| member | source | states |
|---|---|---|
| `Wrappers.Somes` | services/geminiService.ts:125 | filtering out nulls keeps exactly the present values and never lengthens the list |
| `Wrappers.SomesAppend` | services/geminiService.ts:125 | the null filter distributes over concatenation, so it preserves input order |
| `Types.Slots.With` | App.tsx:36 | `{...prev, [type]: v}` sets the chosen slot and leaves the other two slots as they were |
| `JsSemantics.OrDefault` | services/geminiService.ts:151-152 | the logical-or fallback on a string yields the value exactly when it is present and non-empty, otherwise the fallback; a non-empty fallback gives a non-empty result |
| `JsSemantics.Truthy` | App.tsx:66 | a string-or-null is truthy exactly when it is present and has positive length |
| `JsSemantics.TrimStart` | components/AICreativeSection.tsx:29 | leading whitespace removed: a suffix of the input, empty exactly when the input is all whitespace, otherwise starting with a non-whitespace character |
| `JsSemantics.TrimEnd` | components/AICreativeSection.tsx:29 | trailing whitespace removed: a prefix, empty exactly when all whitespace, otherwise ending with a non-whitespace character |
| `JsSemantics.TrimmedEmptyIff` | components/AICreativeSection.tsx:29 | `!prompt.trim()` holds exactly when every character is JavaScript whitespace |
| `JsSemantics.TrimStartDropsWhitespace` | components/AICreativeSection.tsx:29 | every character cut from the front is JavaScript whitespace |
| `JsSemantics.TrimEndDropsWhitespace` | components/AICreativeSection.tsx:29 | every character cut from the back is JavaScript whitespace |
| `JsSemantics.Trim` | components/AICreativeSection.tsx:29 | `trim` never lengthens a string, and a non-empty result starts and ends with a non-whitespace character |
| `JsSemantics.TrimIsInnerSlice` | components/AICreativeSection.tsx:29 | `trim` returns a contiguous slice of the input, and what it cuts on either side is all whitespace |
| `JsSemantics.ToLower` | App.tsx:94 | lower-casing keeps the length and maps each character by the ASCII rule |
| `JsSemantics.LowerIsWhiteHexIff` | App.tsx:94 | a string lower-cases to `#ffffff` exactly when it is `#` followed by six `f`/`F` |
| `GeminiService.GenerateFashionConcept` | services/geminiService.ts:81-89 | succeeds exactly when the call returned, the text is non-empty and parses, and then returns the parsed value unchecked; a thrown call and an empty or missing text are errors |
| `GeminiService.FirstCandidate` | services/geminiService.ts:103 | `candidates?.[0]` is present exactly when there is a non-empty candidate list, and is then its first entry |
| `GeminiService.ResponseParts` | services/geminiService.ts:103 | the parts of the first candidate, with the empty list as fallback: the first candidate's `content.parts` whenever that list is present, and empty otherwise |
| `GeminiService.GroundingChunks` | services/geminiService.ts:145 | the grounding chunks of the first candidate, with the empty list as fallback: the first candidate's `groundingMetadata.groundingChunks` whenever that list is present, and empty otherwise |
| `GeminiService.FirstInlineData` | services/geminiService.ts:103-108 | null exactly when no part has inline data; otherwise the data of a part with inline data that no earlier part has |
| `GeminiService.GenerateConceptIllustration` | services/geminiService.ts:92-113 | the loop with early return yields the first part's inline data; a thrown call yields null |
| `GeminiService.IllustrationOf` | services/geminiService.ts:103-112 | a thrown call gives null; a returned call gives null exactly when no part of the first candidate carries inline data |
| `GeminiService.MoodBoard` | services/geminiService.ts:116-125 | the mood board has at most three images |
| `GeminiService.MoodBoardInPromptOrder` | services/geminiService.ts:116-125 | the mood board is the present results in prompt order texture, architecture, gradient, whatever their completion order |
| `GeminiService.GenerateMoodBoard` | services/geminiService.ts:115-130 | three illustration calls then the filter give the same mood board as the reference definition `MoodBoard`, of length at most three |
| `GeminiService.LeadOf` | services/geminiService.ts:150-153 | a missing or empty title becomes "Fashion Item" and a missing or empty uri becomes "#" |
| `GeminiService.WebResults` | services/geminiService.ts:145-155 | at most one result per chunk, and every result has a non-empty title and url |
| `GeminiService.ChunkLead` | services/geminiService.ts:149-153 | a chunk gives a lead exactly when it has a web entry, and that lead has a non-empty title and url |
| `GeminiService.ChunkLeads` | services/geminiService.ts:148-155 | one lead-or-null per chunk, in chunk order |
| `GeminiService.ChunkLeadsSnoc` | services/geminiService.ts:148-155 | the leads of a list are those of its prefix followed by that of its last chunk |
| `GeminiService.WebResultsAreFilteredChunks` | services/geminiService.ts:148-155 | the results are the leads of the web chunks, in chunk order: the map-then-filter reference definition |
| `GeminiService.WebResultsFromChunks` | services/geminiService.ts:148-155 | every result is the lead of some chunk with a web entry |
| `GeminiService.CollectWebResults` | services/geminiService.ts:146-155 | the `forEach`/`push` loop produces exactly the specified results |
| `GeminiService.FirstIndex` | services/geminiService.ts:158 | the position of the first occurrence of a url |
| `GeminiService.LastIndex` | services/geminiService.ts:158 | the position of the last occurrence of a url |
| `GeminiService.UrlMap.Set` | services/geminiService.ts:158 | `Map.set` stores the value; a new key goes last, an existing key keeps its place; keys stay distinct and match the entries |
| `GeminiService.UrlMap.Values` | services/geminiService.ts:158 | `values()` lists the stored value of each key in insertion order |
| `GeminiService.MapByUrl` | services/geminiService.ts:158 | the map built from the items is well formed and has no more keys than items |
| `GeminiService.MapByUrlContents` | services/geminiService.ts:158 | the map holds exactly the urls of the items, each under the item of its last occurrence, with keys ordered by first occurrence |
| `GeminiService.DedupeByUrl` | services/geminiService.ts:158 | de-duplication never lengthens the list |
| `GeminiService.DedupeByUrlCorrect` | services/geminiService.ts:158 | urls become pairwise distinct and keep the same url set; each url sits at its first occurrence's position and carries its last occurrence's item |
| `GeminiService.DedupeExample` | services/geminiService.ts:158 | `[a, b, a']` de-duplicates to `[a', b]` |
| `GeminiService.DedupeKeepsInputItems` | services/geminiService.ts:158 | every de-duplicated item is one of the inputs |
| `GeminiService.TakeLeads` | services/geminiService.ts:159 | `slice(0, 4)` keeps a prefix of length min(n, 4), and distinct urls stay distinct |
| `GeminiService.LeadsComeFromWebChunks` | services/geminiService.ts:145-159 | every returned lead is the lead of some web chunk |
| `GeminiService.FindShoppingSuggestions` | services/geminiService.ts:132-165 | a thrown call gives `[]`; otherwise the first four of the de-duplicated web results: at most four, urls distinct, each from a web chunk |
| `FashionMixer.OnMix` | App.tsx:46-53 | with an image missing only `error` changes, to the upload message; otherwise `error` is cleared, `loading` set and `result` cleared |
| `FashionMixer.OnSelectFile` | App.tsx:36 | the chosen image slot holds the file, the other slots and every other piece of state are kept |
| `FashionMixer.OnPreviewRead` | App.tsx:37-42 | a read url goes into the chosen preview slot, the rest is kept; a failed read changes nothing |
| `FashionMixer.OnPrimaryDone` | App.tsx:57-89 | success shows the concept and its theme and keeps the error; failure sets the failure message and keeps the result and the theme; `loading` ends either way; images and previews are kept |
| `FashionMixer.WithImage` | App.tsx:67 | the updater sets `generated_image`, keeps every other field, and maps null to null |
| `FashionMixer.WithLeads` | App.tsx:74 | the updater sets `shopping_items`, keeps every other field, and maps null to null |
| `FashionMixer.WithMoodBoard` | App.tsx:81 | the updater sets `mood_board_images`, keeps every other field, and maps null to null |
| `FashionMixer.OnIllustration` | App.tsx:65-69 | only `result` can change; a falsy image or no concept changes nothing; otherwise `result` becomes the `WithImage` merge, which keeps all else |
| `FashionMixer.OnLeads` | App.tsx:72-76 | only `result` can change; an empty list or no concept changes nothing; otherwise `result` becomes the `WithLeads` merge, which keeps all else |
| `FashionMixer.OnMoodBoard` | App.tsx:79-83 | only `result` can change; an empty mood board or no concept changes nothing; otherwise `result` becomes the `WithMoodBoard` merge, which keeps all else |
| `FashionMixer.Step` | App.tsx:35-90 | only a file selection changes the images and only a read changes the previews; only a successful primary call changes the theme; a completion changes only `result` |
| `FashionMixer.Run` | App.tsx:35-90 | over a whole event sequence, the images stay without a file selection, and a sequence of completions changes only `result` |
| `FashionMixer.ActiveTheme` | App.tsx:92 | the shown concept's theme when there is one; in a state keeping the invariant, the current theme |
| `FashionMixer.ButtonTextColor` | App.tsx:94-96 | the button text is black or the theme's own text colour |
| `FashionMixer.ButtonTextColorRule` | App.tsx:94-96 | the button text is `#000000` when the primary colour is `#ffffff` in any letter case, else the theme's text colour |
| `FashionMixer.StepPreservesInv` | App.tsx:45-90 | every event keeps the invariant: no concept while loading, and a shown concept carries the current theme |
| `FashionMixer.RunPreservesInv` | App.tsx:45-90 | every sequence of events keeps the invariant |
| `FashionMixer.ActiveThemeIsCurrentTheme` | App.tsx:92 | in every reachable state `activeTheme` equals `currentTheme` |
| `FashionMixer.EnrichmentDuringPendingRunIsLost` | App.tsx:53 | a completion arriving while a primary call is pending changes nothing, because `result` is null |
| `FashionMixer.EnrichmentFrame` | App.tsx:65-83 | a completion changes only `result`, and in it only its own field; null stays null |
| `FashionMixer.FalsyCompletionsIgnored` | App.tsx:66 | a falsy image, an empty leads list and an empty mood board leave the state unchanged |
| `FashionMixer.EnrichmentsCommute` | App.tsx:65-83 | two completions of different kinds give the same state in either order |
| `FashionMixer.AnyCompletionOrder` | App.tsx:65-83 | all six orders of the three completions give the same final state |
| `FashionMixer.EnrichmentIdempotent` | App.tsx:65-83 | delivering the same completion twice equals delivering it once |
| `FashionMixer.LaterLeadsOverwrite` | App.tsx:73-74 | a later non-empty leads list replaces an earlier one completely |
| `FashionMixer.SuccessfulRun` | App.tsx:52-67 | a run with three images shows the concept and its theme, clears loading and error, then merges an illustration into it |
| `FashionMixer.FailedRun` | App.tsx:85-89 | a failed primary call leaves no concept, ends loading, sets the failure message and keeps the theme |
| `FashionMixer.EmptyResponseFailsRun` | services/geminiService.ts:81-83 | a response with no text ends the run with the failure message and no concept |
| `FashionMixer.StaleCompletionMergesIntoLaterRun` | App.tsx:65-69 | the button is enabled after the first concept is shown, and the first run's late illustration lands in the second run's concept |
| `FashionMixer.MixerApp.constructor` | App.tsx:28-33 | initial state: empty slots, not loading, no result or error, the neon theme |
| `FashionMixer.MixerApp.HandleFileSelect` | App.tsx:35-36 | the chosen image slot is set, the others are kept |
| `FashionMixer.MixerApp.PreviewSettled` | App.tsx:37-42 | a successful read sets the preview slot; a failed read changes nothing |
| `FashionMixer.MixerApp.HandleMix` | App.tsx:45-57 | returns the three files exactly when all are present; a rejection changes only the error; a start clears the error and the result and sets loading |
| `FashionMixer.MixerApp.PrimarySettled` | App.tsx:57-89 | success sets theme and result; failure sets the error and keeps result and theme; loading ends |
| `FashionMixer.MixerApp.IllustrationSettled` | App.tsx:65-69 | merges the image only if it is truthy |
| `FashionMixer.MixerApp.LeadsSettled` | App.tsx:72-76 | merges the leads only if there are any |
| `FashionMixer.MixerApp.MoodBoardSettled` | App.tsx:79-83 | merges the mood board only if it is non-empty |
| `FashionMixer.MixerApp.ButtonText` | App.tsx:92-96 | the label colour is the rule applied to the active theme |
| `CreativeSection.CanGenerateIff` | components/AICreativeSection.tsx:28-30 | generation is possible exactly when slot 0 holds a file and the prompt has a non-whitespace character |
| `CreativeSection.CanGenerate` | components/AICreativeSection.tsx:28-30 | when generation is possible the prompt is non-empty and at least one file is sent |
| `CreativeSection.ValidImages` | components/AICreativeSection.tsx:37 | the filtered references are never more than the slots |
| `CreativeSection.ValidImagesWhenGenerating` | components/AICreativeSection.tsx:33-37 | when generation proceeds the files number 1 to 3 and start with slot 0's file, in slot order |
| `Wrappers.SomesOfThree` | components/AICreativeSection.tsx:37 | the filter of three slots is the present entries of slot 0, 1 and 2 in that order |
| `CreativeSection.OnSelectReference` | components/AICreativeSection.tsx:18-20 | slot `index` becomes the file; the length and the other slots stay the same |
| `CreativeSection.OnPreviewRead` | components/AICreativeSection.tsx:22-25 | slot `index` of the previews becomes the url; the length and the other slots stay the same; a rejected read changes nothing |
| `CreativeSection.GenerateSequence` | components/AICreativeSection.tsx:32-45 | without `canGenerate` nothing changes; otherwise loading is on with no image, and afterwards loading is off with the result, or nothing after a throw |
| `CreativeSection.OnPromptChange` | components/AICreativeSection.tsx:57 | the prompt becomes the new text and nothing else changes |
| `CreativeSection.OnBeginGenerate` | components/AICreativeSection.tsx:32-35 | without `canGenerate` nothing changes; otherwise loading is on and the old image is cleared; prompt and slots are kept |
| `CreativeSection.OnGenerateSettled` | components/AICreativeSection.tsx:36-44 | loading ends; a resolved call shows its result, a throw keeps the image; prompt and slots are kept |
| `CreativeSection.Step` | components/AICreativeSection.tsx:17-57 | slot counts never change; the prompt, images and previews change only on their own events; loading changes only when generation starts or settles |
| `CreativeSection.Run` | components/AICreativeSection.tsx:17-57 | over a whole event sequence the slot counts are kept, and the images stay without a file selection |
| `CreativeSection.RunPreservesInv` | components/AICreativeSection.tsx:12-15 | every sequence of events keeps three slots each and no image while loading |
| `CreativeSection.ReachableInv` | components/AICreativeSection.tsx:12-15 | the invariant holds in every reachable state |
| `CreativeSection.CreativeForm.constructor` | components/AICreativeSection.tsx:11-15 | initial state: empty prompt, three empty slots of each kind, not loading, no image |
| `CreativeSection.CreativeForm.SetPrompt` | components/AICreativeSection.tsx:57 | only the prompt changes |
| `CreativeSection.CreativeForm.HandleFileSelect` | components/AICreativeSection.tsx:17-20 | the copied array with slot `index` replaced becomes `refImages` |
| `CreativeSection.CreativeForm.PreviewSettled` | components/AICreativeSection.tsx:22-25 | a read url replaces slot `index` of `refPreviews`; a rejected read changes nothing |
| `CreativeSection.CreativeForm.HandleGenerate` | components/AICreativeSection.tsx:32-38 | returns the prompt and the filtered files exactly when `canGenerate`, with loading on and no image; otherwise nothing changes |
| `CreativeSection.CreativeForm.GenerateSettled` | components/AICreativeSection.tsx:39-44 | loading ends; a result replaces the image, a throw keeps it |

## Left out

- The generative service calls, model names, prompt texts and the response schema: foreign calls whose outcomes are inputs of the model.
- The search `query` built at services/geminiService.ts:135 is never sent, so `conceptName` and `tags` do not affect the modelled leads.
- `JSON.parse` and the cast: a parameter `parse` of `GenerateFashionConcept`.
- `GenerateFashionConcept`: `parse` yields only well-shaped, well-typed concepts, while services/geminiService.ts:85 casts unchecked. The model therefore does not cover a parsed object without `ui_theme`. On that path App.tsx:60-62 sets `currentTheme` to undefined, shows the concept and ends loading; line 79 then throws, and the catch at App.tsx:85-89 sets the failure message while the concept stays shown. `FailedRun` and the invariant `Inv` hold only for well-shaped concepts.
- The encoding of the files before the concept call (`fileToBase64`, utils/fileHelpers.ts): its rejection counts as a thrown call. utils/fileHelpers.ts is not part of this model; its only logic is `split(',')[1]`.
- The `catch` of `generateMoodBoard` (services/geminiService.ts:126-129): the illustration call never throws, so that path cannot be reached in the model.
- `InlineData.data` is modelled as always present; the SDK's possibly-undefined `data` is not.
- `DEFAULT_THEME` (App.tsx:10-16) is declared but never used.
- Timing of promises and `Promise.all`: completions are discrete events in any order. The stale-closure lost update in `AICreativeSection.handleFileSelect`, where `refPreviews` is read after an `await`, is not modelled: each event reads the current state.
- `MixerApp` and `CreativeForm` handlers do not model the disabled state of the buttons (App.tsx:164, components/AICreativeSection.tsx:108). The transitions accept any event order, which includes the orders the buttons allow.
- `ToLower`: lower-cases ASCII letters only. No non-ASCII character lower-cases to `#` or `f`, so the `#ffffff` test is unaffected.
- components/ResultCard.tsx and components/UploadZone.tsx: rendering only. The mood board labels by index, 0 → Texture, 1 → Architecture, else Palette (components/ResultCard.tsx:174), are not modelled.
- Rendering, CSS, logging and URL hostname parsing.
