/** The gateway to the generative service (services/geminiService.ts).

    The service calls themselves are foreign: each call is represented by its
    outcome, either a thrown error or the response object, and every function
    here is the client-side processing of that outcome. */
module GeminiService {
  import opened Wrappers
  import opened Types
  import opened JsSemantics

  // ---------------------------------------------------------------------------
  // The parts of a `generateContent` response that the client reads.

  datatype InlineData = InlineData(mimeType: Option<string>, data: string)
  datatype Part = Part(text: Option<string>, inlineData: Option<InlineData>)
  datatype Content = Content(parts: Option<seq<Part>>)
  datatype WebSource = WebSource(uri: Option<string>, title: Option<string>)
  datatype GroundingChunk = GroundingChunk(web: Option<WebSource>)
  datatype GroundingMetadata = GroundingMetadata(groundingChunks: Option<seq<GroundingChunk>>)
  datatype Candidate = Candidate(content: Option<Content>, groundingMetadata: Option<GroundingMetadata>)
  /** `text` is the SDK's accessor for the concatenated text of the answer. */
  datatype Response = Response(candidates: Option<seq<Candidate>>, text: Option<string>)

  /** What `await ai.models.generateContent(...)` does: throw, or return a response. */
  datatype CallOutcome = Threw | Returned(response: Response)

  /** `response.candidates?.[0]` */
  function FirstCandidate(resp: Response): (r: Option<Candidate>)
    ensures r.Some? <==> resp.candidates.Some? && |resp.candidates.value| > 0
    ensures r.Some? ==> r.value == resp.candidates.value[0]
  {
    match resp.candidates
    case Some(cs) => if |cs| > 0 then Some(cs[0]) else None
    case None => None
  }

  /** `response.candidates?.[0]?.content?.parts || []` */
  function ResponseParts(resp: Response): (r: seq<Part>)
    ensures FirstCandidate(resp).None? ==> r == []
    ensures r != [] ==> FirstCandidate(resp).Some? && FirstCandidate(resp).value.content == Some(Content(Some(r)))
    ensures FirstCandidate(resp).Some? && FirstCandidate(resp).value.content.Some?
      && FirstCandidate(resp).value.content.value.parts.Some?
      ==> r == FirstCandidate(resp).value.content.value.parts.value
  {
    match FirstCandidate(resp)
    case Some(Candidate(Some(Content(Some(parts))), _)) => parts
    case _ => []
  }

  /** `response.candidates?.[0]?.groundingMetadata?.groundingChunks || []` */
  function GroundingChunks(resp: Response): (r: seq<GroundingChunk>)
    ensures FirstCandidate(resp).None? ==> r == []
    ensures r != [] ==>
      FirstCandidate(resp).Some? && FirstCandidate(resp).value.groundingMetadata == Some(GroundingMetadata(Some(r)))
    ensures FirstCandidate(resp).Some? && FirstCandidate(resp).value.groundingMetadata.Some?
      && FirstCandidate(resp).value.groundingMetadata.value.groundingChunks.Some?
      ==> r == FirstCandidate(resp).value.groundingMetadata.value.groundingChunks.value
  {
    match FirstCandidate(resp)
    case Some(Candidate(_, Some(GroundingMetadata(Some(chunks))))) => chunks
    case _ => []
  }

  // ---------------------------------------------------------------------------
  // generateFashionConcept

  datatype ConceptError =
    | RequestFailed    // the call (or the file encoding before it) threw
    | NoResponseText   // "No response text received from Gemini."
    | MalformedJson    // JSON.parse threw

  /** The concept is whatever `JSON.parse` makes of a non-empty response text,
      cast without any check of its shape; every error is rethrown. `parse`
      stands for `JSON.parse` followed by the cast (None: it threw). */
  function GenerateFashionConcept(call: CallOutcome, parse: string -> Option<FashionConcept>)
    : (r: Result<FashionConcept, ConceptError>)
    ensures r.Ok? <==>
      call.Returned? && Truthy(call.response.text) && parse(call.response.text.value).Some?
    ensures r.Ok? ==> r.value == parse(call.response.text.value).value
    ensures call.Threw? ==> r == Err(RequestFailed)
    ensures call.Returned? && !Truthy(call.response.text) ==> r == Err(NoResponseText)
  {
    match call
    case Threw => Err(RequestFailed)
    case Returned(resp) =>
      if !Truthy(resp.text) then Err(NoResponseText)
      else
        match parse(resp.text.value)
        case Some(concept) => Ok(concept)
        case None => Err(MalformedJson)
  }

  // ---------------------------------------------------------------------------
  // generateConceptIllustration

  /** The data of the first part that carries inline data, if any. */
  function FirstInlineData(parts: seq<Part>): (r: Option<string>)
    ensures r.None? <==> forall i :: 0 <= i < |parts| ==> parts[i].inlineData.None?
    ensures r.Some? ==>
      exists i :: 0 <= i < |parts| && parts[i].inlineData.Some? && r.value == parts[i].inlineData.value.data
        && forall j :: 0 <= j < i ==> parts[j].inlineData.None?
  {
    if parts == [] then None
    else if parts[0].inlineData.Some? then Some(parts[0].inlineData.value.data)
    else
      var r := FirstInlineData(parts[1..]);
      assert r.Some? ==> (exists i :: 1 <= i < |parts| && parts[i].inlineData.Some?
                            && r.value == parts[i].inlineData.value.data
                            && forall j :: 0 <= j < i ==> parts[j].inlineData.None?)
      by {
        if r.Some? {
          var i :| 0 <= i < |parts[1..]| && parts[1..][i].inlineData.Some?
            && r.value == parts[1..][i].inlineData.value.data
            && forall j :: 0 <= j < i ==> parts[1..][j].inlineData.None?;
          assert parts[i + 1] == parts[1..][i];
          assert forall j :: 1 <= j < i + 1 ==> parts[j] == parts[1..][j - 1];
        }
      }
      r
  }

  /** The illustration a call yields: nothing when it threw. */
  function IllustrationOf(call: CallOutcome): (r: Option<string>)
    ensures call.Threw? ==> r.None?
    ensures call.Returned? ==>
      (r.None? <==> forall i :: 0 <= i < |ResponseParts(call.response)| ==> ResponseParts(call.response)[i].inlineData.None?)
  {
    match call
    case Threw => None
    case Returned(resp) => FirstInlineData(ResponseParts(resp))
  }

  /** The loop over the parts with its early return. */
  method GenerateConceptIllustration(call: CallOutcome) returns (r: Option<string>)
    ensures call.Threw? ==> r.None?
    ensures r == IllustrationOf(call)
  {
    if call.Threw? {
      return None;
    }
    var parts := ResponseParts(call.response);
    var i := 0;
    while i < |parts|
      invariant 0 <= i <= |parts|
      invariant FirstInlineData(parts[i..]) == FirstInlineData(parts)
    {
      if parts[i].inlineData.Some? {
        return Some(parts[i].inlineData.value.data);
      }
      assert parts[i..][1..] == parts[i + 1..];
      i := i + 1;
    }
    return None;
  }

  // ---------------------------------------------------------------------------
  // generateMoodBoard

  /** The three illustration results, texture then architecture then gradient
      prompt, with the missing ones dropped. */
  function MoodBoard(texture: Option<string>, architecture: Option<string>, gradient: Option<string>)
    : (r: seq<string>)
    ensures |r| <= 3
  {
    Somes([texture, architecture, gradient])
  }

  /** The mood board keeps prompt order whatever order the calls complete in. */
  lemma MoodBoardInPromptOrder(texture: Option<string>, architecture: Option<string>, gradient: Option<string>)
    ensures MoodBoard(texture, architecture, gradient) == AsList(texture) + AsList(architecture) + AsList(gradient)
  {
    SomesAppend([texture], [architecture, gradient]);
    SomesAppend([architecture], [gradient]);
    assert [texture, architecture, gradient] == [texture] + [architecture, gradient];
    assert [architecture, gradient] == [architecture] + [gradient];
  }

  /** The three calls of `Promise.all`, then the filter. */
  method GenerateMoodBoard(texture: CallOutcome, architecture: CallOutcome, gradient: CallOutcome)
    returns (images: seq<string>)
    ensures images == MoodBoard(IllustrationOf(texture), IllustrationOf(architecture), IllustrationOf(gradient))
    ensures |images| <= 3
  {
    var t := GenerateConceptIllustration(texture);
    var a := GenerateConceptIllustration(architecture);
    var g := GenerateConceptIllustration(gradient);
    images := Somes([t, a, g]);
  }

  // ---------------------------------------------------------------------------
  // findShoppingSuggestions: chunks to leads

  const MaxLeads: nat := 4
  const DefaultTitle: string := "Fashion Item"
  const DefaultUrl: string := "#"

  /** `{ title: web.title || "Fashion Item", url: web.uri || "#" }` */
  function LeadOf(web: WebSource): (r: SearchResult)
    ensures r.title == if Truthy(web.title) then web.title.value else DefaultTitle
    ensures r.url == if Truthy(web.uri) then web.uri.value else DefaultUrl
  {
    SearchResult(OrDefault(web.title, DefaultTitle), OrDefault(web.uri, DefaultUrl))
  }

  /** The lead a chunk contributes, if it has a web entry. */
  function ChunkLead(chunk: GroundingChunk): (r: Option<SearchResult>)
    ensures r.Some? <==> chunk.web.Some?
    ensures r.Some? ==> r.value == LeadOf(chunk.web.value) && r.value.title != "" && r.value.url != ""
  {
    match chunk.web
    case Some(web) => Some(LeadOf(web))
    case None => None
  }

  /** The `results` array after the `forEach` has pushed chunk by chunk. */
  function WebResults(chunks: seq<GroundingChunk>): (r: seq<SearchResult>)
    ensures |r| <= |chunks|
    ensures forall k :: 0 <= k < |r| ==> r[k].title != "" && r[k].url != ""
  {
    if chunks == [] then []
    else
      var n := |chunks| - 1;
      WebResults(chunks[..n]) + AsList(ChunkLead(chunks[n]))
  }

  /** The lead of every chunk, in chunk order (`None` for a chunk without a web entry). */
  function ChunkLeads(chunks: seq<GroundingChunk>): (r: seq<Option<SearchResult>>)
    ensures |r| == |chunks|
    ensures forall i :: 0 <= i < |chunks| ==> r[i] == ChunkLead(chunks[i])
  {
    seq(|chunks|, i requires 0 <= i < |chunks| => ChunkLead(chunks[i]))
  }

  /** The leads of a list are those of its prefix followed by that of its last chunk. */
  lemma ChunkLeadsSnoc(chunks: seq<GroundingChunk>)
    requires chunks != []
    ensures ChunkLeads(chunks) == ChunkLeads(chunks[..|chunks| - 1]) + [ChunkLead(chunks[|chunks| - 1])]
  {
    var n := |chunks| - 1;
    var lhs := ChunkLeads(chunks);
    var rhs := ChunkLeads(chunks[..n]) + [ChunkLead(chunks[n])];
    assert |lhs| == |rhs|;
    forall i | 0 <= i < |lhs| ensures lhs[i] == rhs[i] {
      if i < n {
        assert chunks[..n][i] == chunks[i];
      }
    }
  }

  /** Independently of the loop: the results are the chunk leads filtered for
      presence, so only web chunks contribute, each once, in chunk order. */
  lemma {:induction false} WebResultsAreFilteredChunks(chunks: seq<GroundingChunk>)
    ensures WebResults(chunks) == Somes(ChunkLeads(chunks))
  {
    if chunks != [] {
      var n := |chunks| - 1;
      WebResultsAreFilteredChunks(chunks[..n]);
      ChunkLeadsSnoc(chunks);
      SomesAppend(ChunkLeads(chunks[..n]), [ChunkLead(chunks[n])]);
      assert Somes([ChunkLead(chunks[n])]) == AsList(ChunkLead(chunks[n]));
    }
  }

  /** The `chunks.forEach(chunk => { if (chunk.web) results.push(...) })` loop. */
  method CollectWebResults(chunks: seq<GroundingChunk>) returns (results: seq<SearchResult>)
    ensures results == WebResults(chunks)
  {
    results := [];
    var i := 0;
    while i < |chunks|
      invariant 0 <= i <= |chunks|
      invariant results == WebResults(chunks[..i])
    {
      assert chunks[..i + 1][..i] == chunks[..i];
      var chunk := chunks[i];
      if chunk.web.Some? {
        results := results + [SearchResult(OrDefault(chunk.web.value.title, DefaultTitle),
                                           OrDefault(chunk.web.value.uri, DefaultUrl))];
      }
      i := i + 1;
    }
    assert chunks[..|chunks|] == chunks;
  }

  /** Every web result comes from a chunk with a web entry. */
  lemma WebResultsFromChunks(chunks: seq<GroundingChunk>)
    ensures forall l :: l in WebResults(chunks) ==>
      exists k :: 0 <= k < |chunks| && chunks[k].web.Some? && l == LeadOf(chunks[k].web.value)
  {
    WebResultsAreFilteredChunks(chunks);
    var leads := ChunkLeads(chunks);
    forall l | l in WebResults(chunks)
      ensures exists k :: 0 <= k < |chunks| && chunks[k].web.Some? && l == LeadOf(chunks[k].web.value)
    {
      assert Some(l) in leads;
      var k :| 0 <= k < |leads| && leads[k] == Some(l);
      assert ChunkLead(chunks[k]) == Some(l);
    }
  }

  // ---------------------------------------------------------------------------
  // findShoppingSuggestions: de-duplication through a JavaScript `Map`

  predicate HasUrl(items: seq<SearchResult>, u: string)
  {
    exists i :: 0 <= i < |items| && items[i].url == u
  }

  predicate DistinctUrls(items: seq<SearchResult>)
  {
    forall i, j :: 0 <= i < j < |items| ==> items[i].url != items[j].url
  }

  /** The position where `u` first occurs. */
  ghost function FirstIndex(items: seq<SearchResult>, u: string): (k: nat)
    requires HasUrl(items, u)
    ensures k < |items| && items[k].url == u
    ensures forall j :: 0 <= j < k ==> items[j].url != u
  {
    var n := |items| - 1;
    if HasUrl(items[..n], u) then FirstIndex(items[..n], u) else n
  }

  /** The position where `u` last occurs. */
  ghost function LastIndex(items: seq<SearchResult>, u: string): (k: nat)
    requires HasUrl(items, u)
    ensures k < |items| && items[k].url == u
    ensures forall j :: k < j < |items| ==> items[j].url != u
  {
    var n := |items| - 1;
    if items[n].url == u then n
    else
      assert HasUrl(items[..n], u) by {
        var i :| 0 <= i < |items| && items[i].url == u;
        assert items[..n][i] == items[i];
      }
      LastIndex(items[..n], u)
  }

  /** A JavaScript `Map<string, SearchResult>`: its keys in insertion order and
      the value currently stored under each key. */
  datatype UrlMap = UrlMap(keys: seq<string>, entries: map<string, SearchResult>)
  {
    ghost predicate Valid()
    {
      && (forall i, j :: 0 <= i < j < |keys| ==> keys[i] != keys[j])
      && (forall k :: k in entries <==> k in keys)
    }

    /** `map.set(key, value)`: a new key goes last, an existing key keeps its
        place and gets the new value. */
    function Set(key: string, value: SearchResult): (r: UrlMap)
      requires Valid()
      ensures r.Valid()
      ensures r.entries == entries[key := value]
      ensures key in entries ==> r.keys == keys
      ensures key !in entries ==> r.keys == keys + [key]
    {
      if key in entries then UrlMap(keys, entries[key := value])
      else UrlMap(keys + [key], entries[key := value])
    }

    /** `Array.from(map.values())` */
    function Values(): (r: seq<SearchResult>)
      requires Valid()
      ensures |r| == |keys|
      ensures forall i :: 0 <= i < |keys| ==> r[i] == entries[keys[i]]
    {
      seq(|keys|, i requires 0 <= i < |keys| => entries[keys[i]])
    }
  }

  /** `new Map(items.map(item => [item.url, item]))` */
  function MapByUrl(items: seq<SearchResult>): (m: UrlMap)
    ensures m.Valid()
    ensures |m.keys| <= |items|
  {
    if items == [] then UrlMap([], map[])
    else
      var n := |items| - 1;
      MapByUrl(items[..n]).Set(items[n].url, items[n])
  }

  lemma HasUrlSnoc(items: seq<SearchResult>, u: string)
    requires items != []
    ensures HasUrl(items, u) <==> HasUrl(items[..|items| - 1], u) || items[|items| - 1].url == u
  {
    var n := |items| - 1;
    if HasUrl(items[..n], u) {
      var i :| 0 <= i < n && items[..n][i].url == u;
      assert items[i].url == u;
    }
    if HasUrl(items, u) && items[n].url != u {
      var i :| 0 <= i < |items| && items[i].url == u;
      assert items[..n][i].url == u;
    }
  }

  /** What the map built from `items` holds: exactly the urls of `items`, each
      under the item of its last occurrence, keys ordered by first occurrence. */
  lemma {:induction false} MapByUrlContents(items: seq<SearchResult>)
    ensures forall u :: u in MapByUrl(items).entries <==> HasUrl(items, u)
    ensures forall u :: u in MapByUrl(items).entries ==>
      MapByUrl(items).entries[u] == items[LastIndex(items, u)]
    ensures forall p, q :: 0 <= p < q < |MapByUrl(items).keys| ==>
      FirstIndex(items, MapByUrl(items).keys[p]) < FirstIndex(items, MapByUrl(items).keys[q])
  {
    if items != [] {
      var n := |items| - 1;
      var prefix := items[..n];
      var x := items[n];
      var m := MapByUrl(prefix);
      var m' := MapByUrl(items);
      MapByUrlContents(prefix);
      assert m' == m.Set(x.url, x);
      forall u ensures u in m'.entries <==> HasUrl(items, u) {
        HasUrlSnoc(items, u);
      }
      forall u | u in m'.entries ensures m'.entries[u] == items[LastIndex(items, u)] {
        if u != x.url {
          assert items[LastIndex(items, u)] == prefix[LastIndex(prefix, u)];
        }
      }
      forall u | HasUrl(prefix, u) ensures FirstIndex(items, u) == FirstIndex(prefix, u) {
      }
      forall p, q | 0 <= p < q < |m'.keys|
        ensures FirstIndex(items, m'.keys[p]) < FirstIndex(items, m'.keys[q])
      {
        assert m'.keys[p] in m.entries;
        if q < |m.keys| {
          assert m'.keys[q] in m.entries;
        } else {
          assert m'.keys[q] == x.url && x.url !in m.entries;
          assert !HasUrl(prefix, x.url);
        }
      }
    }
  }

  /** `Array.from(new Map(items.map(item => [item.url, item])).values())`. */
  function DedupeByUrl(items: seq<SearchResult>): (r: seq<SearchResult>)
    ensures |r| <= |items|
  {
    MapByUrl(items).Values()
  }

  /** The de-duplicated list: urls pairwise distinct and the same set of urls as
      the input; each url where it first occurred, carrying the item of its
      last occurrence. */
  lemma DedupeByUrlCorrect(items: seq<SearchResult>)
    ensures forall k :: 0 <= k < |DedupeByUrl(items)| ==> HasUrl(items, DedupeByUrl(items)[k].url)
    ensures forall i :: 0 <= i < |items| ==> HasUrl(DedupeByUrl(items), items[i].url)
    ensures DistinctUrls(DedupeByUrl(items))
    ensures forall k :: 0 <= k < |DedupeByUrl(items)| ==>
      DedupeByUrl(items)[k] == items[LastIndex(items, DedupeByUrl(items)[k].url)]
    ensures forall p, q :: 0 <= p < q < |DedupeByUrl(items)| ==>
      FirstIndex(items, DedupeByUrl(items)[p].url) < FirstIndex(items, DedupeByUrl(items)[q].url)
  {
    var m := MapByUrl(items);
    var out := DedupeByUrl(items);
    MapByUrlContents(items);
    assert forall k :: 0 <= k < |out| ==> out[k].url == m.keys[k] && m.keys[k] in m.entries;
    forall i | 0 <= i < |items| ensures HasUrl(out, items[i].url) {
      var u := items[i].url;
      assert u in m.entries;
      var k :| 0 <= k < |m.keys| && m.keys[k] == u;
      assert out[k].url == u;
    }
  }

  /** The example `[a, b, a]`: two leads, the first `a` position with the
      second `a` item. */
  lemma DedupeExample()
    ensures DedupeByUrl([SearchResult("first", "a"), SearchResult("b", "b"), SearchResult("second", "a")])
      == [SearchResult("second", "a"), SearchResult("b", "b")]
  {
    var items := [SearchResult("first", "a"), SearchResult("b", "b"), SearchResult("second", "a")];
    assert items[..2][..1] == [SearchResult("first", "a")];
    assert items[..2] == [SearchResult("first", "a"), SearchResult("b", "b")];
    assert MapByUrl(items).keys == ["a", "b"];
  }

  /** De-duplication only drops items. */
  lemma DedupeKeepsInputItems(items: seq<SearchResult>)
    ensures forall l :: l in DedupeByUrl(items) ==> l in items
  {
    DedupeByUrlCorrect(items);
  }

  /** Every lead returned comes from a chunk with a web entry. */
  lemma LeadsComeFromWebChunks(chunks: seq<GroundingChunk>)
    ensures forall l :: l in TakeLeads(DedupeByUrl(WebResults(chunks))) ==>
      exists k :: 0 <= k < |chunks| && chunks[k].web.Some? && l == LeadOf(chunks[k].web.value)
  {
    var results := WebResults(chunks);
    DedupeKeepsInputItems(results);
    WebResultsFromChunks(chunks);
    forall l | l in TakeLeads(DedupeByUrl(results))
      ensures exists k :: 0 <= k < |chunks| && chunks[k].web.Some? && l == LeadOf(chunks[k].web.value)
    {
      assert l in DedupeByUrl(results);
      assert l in results;
    }
  }

  /** `uniqueResults.slice(0, 4)` */
  function TakeLeads(items: seq<SearchResult>): (r: seq<SearchResult>)
    ensures |r| == if |items| < MaxLeads then |items| else MaxLeads
    ensures r <= items
    ensures DistinctUrls(items) ==> DistinctUrls(r)
  {
    if |items| < MaxLeads then items else items[..MaxLeads]
  }

  /** The whole leads path: nothing on a thrown call; otherwise at most four
      leads with distinct urls, the prefix of the de-duplicated web results. */
  method FindShoppingSuggestions(call: CallOutcome) returns (leads: seq<SearchResult>)
    ensures call.Threw? ==> leads == []
    ensures call.Returned? ==>
      leads == TakeLeads(DedupeByUrl(WebResults(GroundingChunks(call.response))))
    ensures |leads| <= MaxLeads
    ensures DistinctUrls(leads)
    ensures call.Returned? ==> forall l :: l in leads ==>
      var chunks := GroundingChunks(call.response);
      exists k :: 0 <= k < |chunks| && chunks[k].web.Some? && l == LeadOf(chunks[k].web.value)
  {
    if call.Threw? {
      return [];
    }
    var chunks := GroundingChunks(call.response);
    var results := CollectWebResults(chunks);
    var unique := DedupeByUrl(results);
    DedupeByUrlCorrect(results);
    LeadsComeFromWebChunks(chunks);
    leads := TakeLeads(unique);
  }
}
