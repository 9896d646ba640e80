/**
 * The gateway to the generative-AI service (services/geminiService.ts). The
 * service calls themselves are outside the model: each operation takes what
 * the call returned (or that it threw) as a value and is modelled as the list
 * and string processing the application does around it.
 */
module Gateway {
  import opened Wrappers
  import opened Seqs
  import opened Types

  const DescriptionError := "No se pudo generar la descripción. Inténtalo de nuevo."
  const EditImageError := "No se pudo generar la imagen editada. Por favor, revisa la consola para más detalles y vuelve a intentarlo."
  const SocialPostError := "No se pudo generar la publicación."
  const PlacesError := "Hubo un error al buscar lugares cercanos. Por favor, inténtalo de nuevo."
  const ReviewFallbackTitle := "Ver reseña"

  // ---------------------------------------------------------------- data URLs

  /** The `data:<mime>;base64,<data>` URL of section 3 of RFC 2397. */
  function DataUrl(mimeType: string, data: string): string {
    "data:" + mimeType + ";base64," + data
  }

  /** The text before the first comma (all of it when there is none). */
  function TakeUntilComma(s: string): (r: string)
    ensures |r| <= |s| && r == s[..|r|] && ',' !in r
    ensures |r| < |s| ==> s[|r|] == ','
  {
    if s == [] || s[0] == ',' then [] else [s[0]] + TakeUntilComma(s[1..])
  }

  /** The text after the first comma (the comma ending `TakeUntilComma(s)`), or nothing when there is no comma. */
  function AfterFirstComma(s: string): (r: Option<string>)
    ensures r.None? <==> ',' !in s
    ensures r.Some? ==> |TakeUntilComma(s)| < |s| && r.value == s[|TakeUntilComma(s)| + 1..]
  {
    if s == [] then None
    else if s[0] == ',' then Some(s[1..])
    else
      assert s == [s[0]] + s[1..];
      AfterFirstComma(s[1..])
  }

  /** `dataUrl.split(',')[1]`: the segment between the first and second comma, `undefined` without a comma. */
  function Base64Payload(dataUrl: string): (r: Option<string>)
    ensures r.None? <==> ',' !in dataUrl
    ensures r.Some? ==> ',' !in r.value
  {
    match AfterFirstComma(dataUrl)
    case None => None
    case Some(rest) => Some(TakeUntilComma(rest))
  }

  /** A comma-free prefix, a comma, then anything: everything after that comma is what follows the first comma. */
  lemma AfterFirstCommaOfJoin(prefix: string, rest: string)
    requires ',' !in prefix
    ensures AfterFirstComma(prefix + "," + rest) == Some(rest)
  {
    var joined := prefix + "," + rest;
    var head := TakeUntilComma(joined);
    assert joined[..|prefix|] == prefix && joined[|prefix|] == ',';
    assert |head| == |prefix|;
    assert joined[|prefix| + 1..] == rest;
  }

  lemma {:induction false} TakeUntilCommaWhole(s: string)
    requires ',' !in s
    ensures TakeUntilComma(s) == s
  {
    if s != [] {
      TakeUntilCommaWhole(s[1..]);
      assert s == [s[0]] + s[1..];
    }
  }

  /** Splitting a data URL built from a comma-free MIME type and payload gives the payload back. */
  lemma DataUrlPayloadRoundTrip(mimeType: string, data: string)
    requires ',' !in mimeType && ',' !in data
    ensures Base64Payload(DataUrl(mimeType, data)) == Some(data)
  {
    var prefix := "data:" + mimeType + ";base64";
    assert DataUrl(mimeType, data) == prefix + "," + data;
    assert ',' !in prefix;
    AfterFirstCommaOfJoin(prefix, data);
    TakeUntilCommaWhole(data);
  }

  // ---------------------------------------------------------- image editing

  /** `part.inlineData`; either field may be `undefined` and then prints as "undefined" in the data URL. */
  datatype InlineData = InlineData(mimeType: Option<string>, data: Option<string>)

  /** One part of the model's response content. */
  datatype Part = Part(text: Option<string>, inlineData: Option<InlineData>)

  /** The image-edit call: the parts of its first candidate (absent if that path is missing), or it threw. */
  datatype ImageReply = ImageReplied(parts: Option<seq<Part>>) | ImageCallFailed

  /** The source image as read: the blob's MIME type and the data URL the file reader produced. */
  datatype FetchedImage = FetchedImage(mimeType: string, dataUrl: string)

  /** What is sent to the image model: the source bytes (base64) with their MIME type, and the instruction. */
  datatype EditRequest = EditRequest(mimeType: string, data: Option<string>, prompt: string)

  /** `response.candidates?.[0]?.content?.parts || []`. */
  function ResponseParts(reply: ImageReply): seq<Part> {
    if reply.ImageReplied? && reply.parts.Some? then reply.parts.value else []
  }

  predicate HasInline(parts: seq<Part>) {
    exists k | 0 <= k < |parts| :: parts[k].inlineData.Some?
  }

  /** `k` is the first part that carries inline data. */
  predicate IsFirstInline(parts: seq<Part>, k: int) {
    0 <= k < |parts| && parts[k].inlineData.Some? && forall j :: 0 <= j < k ==> parts[j].inlineData.None?
  }

  /** `url` is the data URL of the first part that carries inline data. */
  predicate IsUrlOfFirstInline(parts: seq<Part>, url: string) {
    exists k | 0 <= k < |parts| && IsFirstInline(parts, k) :: url == DataUrl(JsText(parts[k].inlineData.value.mimeType), JsText(parts[k].inlineData.value.data))
  }

  /**
   * `editImageFromUrl`: read the source image (`fetched` is None when the fetch or
   * the reader failed), send it with the instruction, and return the data URL of
   * the first response part that carries inline data. Every failure, including a
   * response without such a part, surfaces as the one fixed message.
   */
  method EditImageFromUrl(prompt: string, fetched: Option<FetchedImage>, reply: ImageReply)
    returns (r: Result<string, string>, sent: Option<EditRequest>)
    ensures sent == if fetched.None? then None
                    else Some(EditRequest(fetched.value.mimeType, Base64Payload(fetched.value.dataUrl), prompt))
    ensures r.Failure? ==> r.error == EditImageError
    ensures r.Success? <==> fetched.Some? && reply.ImageReplied? && HasInline(ResponseParts(reply))
    ensures r.Success? ==> IsUrlOfFirstInline(ResponseParts(reply), r.value)
  {
    if fetched.None? {
      return Failure(EditImageError), None;
    }
    sent := Some(EditRequest(fetched.value.mimeType, Base64Payload(fetched.value.dataUrl), prompt));
    if reply.ImageCallFailed? {
      return Failure(EditImageError), sent;
    }
    var parts := ResponseParts(reply);
    var i := 0;
    while i < |parts|
      invariant 0 <= i <= |parts|
      invariant forall j :: 0 <= j < i ==> parts[j].inlineData.None?
    {
      if parts[i].inlineData.Some? {
        var d := parts[i].inlineData.value;
        assert IsFirstInline(parts, i);
        return Success(DataUrl(JsText(d.mimeType), JsText(d.data))), sent;
      }
      i := i + 1;
    }
    return Failure(EditImageError), sent;
  }

  // ------------------------------------------------------ match suggestions

  /** The projection of the lost report sent to the model: no id, photo or author. */
  datatype LostSummary = LostSummary(breed: string, color: string, size: string, description: string, location: GeoPoint)

  /** The projection of a found report sent to the model: its id and the matching attributes. */
  datatype FoundSummary = FoundSummary(id: string, breed: string, color: string, size: string, description: string, location: GeoPoint)

  datatype SuggestRequest = SuggestRequest(lost: LostSummary, found: seq<FoundSummary>)

  /** The suggestion call: the parsed `matches` field (absent if missing), or the call or the parse threw. */
  datatype SuggestReply = SuggestReplied(matches: Option<seq<string>>) | SuggestFailed

  /** What `getSuggestions` did: the request it issued (none when it short-circuited) and the ids it returned. */
  datatype SuggestOutcome = SuggestOutcome(request: Option<SuggestRequest>, ids: seq<string>)

  function SummarizeLost(p: PetPost): (s: LostSummary)
    ensures s.breed == p.breed && s.color == p.color && s.size == p.size
    ensures s.description == p.description && s.location == p.location
  {
    LostSummary(p.breed, p.color, p.size, p.description, p.location)
  }

  function SummarizeFound(p: PetPost): FoundSummary {
    FoundSummary(p.id, p.breed, p.color, p.size, p.description, p.location)
  }

  /** `foundPets.map(...)`: one summary per found report, in order, with exactly its id and matching attributes. */
  function SummarizeAllFound(found: seq<PetPost>): (r: seq<FoundSummary>)
    ensures |r| == |found|
    ensures forall i :: 0 <= i < |found| ==>
      r[i].id == found[i].id && r[i].breed == found[i].breed && r[i].color == found[i].color &&
      r[i].size == found[i].size && r[i].description == found[i].description && r[i].location == found[i].location
  {
    seq(|found|, i requires 0 <= i < |found| => SummarizeFound(found[i]))
  }

  /**
   * `getSuggestions`: with no candidates it returns no ids and issues no call;
   * otherwise it sends the projections and returns the reply's `matches`, or no
   * ids when that field is missing or anything threw. It never fails.
   */
  function GetSuggestions(lost: PetPost, found: seq<PetPost>, reply: SuggestReply): (r: SuggestOutcome)
    ensures found == [] ==> r.request.None? && r.ids == []
    ensures found != [] ==> r.request == Some(SuggestRequest(SummarizeLost(lost), SummarizeAllFound(found)))
    ensures found != [] && reply.SuggestReplied? && reply.matches.Some? ==> r.ids == reply.matches.value
    ensures !(reply.SuggestReplied? && reply.matches.Some?) ==> r.ids == []
    ensures r.ids != [] ==> found != [] && reply.SuggestReplied? && reply.matches == Some(r.ids)
  {
    if found == [] then SuggestOutcome(None, [])
    else
      var ids := if reply.SuggestReplied? && reply.matches.Some? then reply.matches.value else [];
      SuggestOutcome(Some(SuggestRequest(SummarizeLost(lost), SummarizeAllFound(found))), ids)
  }

  // --------------------------------------------------- hard-fail operations

  datatype PetAttributes = PetAttributes(breed: string, color: string, size: string, description: string)

  /** The description call: the parsed four-field object, or the read, the call or the parse threw. */
  datatype DescriptionReply = DescriptionParsed(attributes: PetAttributes) | DescriptionFailed

  /** `generatePetDescriptionFromImage`: the parsed attributes, or the fixed message on any failure. */
  function GeneratePetDescription(reply: DescriptionReply): (r: Result<PetAttributes, string>)
    ensures r.Success? <==> reply.DescriptionParsed?
    ensures r.Success? ==> r.value == reply.attributes
    ensures r.Failure? ==> r.error == DescriptionError
  {
    match reply
    case DescriptionParsed(a) => Success(a)
    case DescriptionFailed => Failure(DescriptionError)
  }

  /** A plain-text call: its `response.text` (absent when `undefined`), or it threw. */
  datatype TextReply = TextReplied(text: Option<string>) | TextFailed

  /** `generateSocialMediaPost`: the model's text as returned, `undefined` included, or the fixed message on any failure. */
  function GenerateSocialMediaPost(reply: TextReply): (r: Result<Option<string>, string>)
    ensures r.Success? <==> reply.TextReplied?
    ensures r.Success? ==> r.value == reply.text
    ensures r.Failure? ==> r.error == SocialPostError
  {
    match reply
    case TextReplied(t) => Success(t)
    case TextFailed => Failure(SocialPostError)
  }

  // --------------------------------------------------------- nearby places

  datatype ReviewSnippet = ReviewSnippet(uri: Option<string>, title: Option<string>)

  /** `chunk.maps`, with `placeAnswerSources.reviewSnippets` flattened into one optional list. */
  datatype MapsChunk = MapsChunk(uri: Option<string>, title: Option<string>, reviewSnippets: Option<seq<ReviewSnippet>>)

  datatype GroundingChunk = GroundingChunk(maps: Option<MapsChunk>)

  /** What the places lookup is asked: the category, anchored at a point. */
  datatype PlacesRequest = PlacesRequest(location: GeoPoint, placeType: string)

  /**
   * The grounded call: its `response.text` (absent when `undefined`) and its
   * grounding chunks (absent when that path is missing), or it threw.
   */
  datatype PlacesReply = PlacesReplied(text: Option<string>, chunks: Option<seq<GroundingChunk>>) | PlacesCallFailed

  /** `snippet.title || chunk.maps.title || "Ver reseña"`. */
  function SnippetTitle(snippet: ReviewSnippet, mapsTitle: Option<string>): (t: string)
    ensures t != ""
    ensures Truthy(snippet.title) ==> t == snippet.title.value
    ensures !Truthy(snippet.title) && Truthy(mapsTitle) ==> t == mapsTitle.value
    ensures !Truthy(snippet.title) && !Truthy(mapsTitle) ==> t == ReviewFallbackTitle
  {
    if Truthy(snippet.title) then snippet.title.value
    else if Truthy(mapsTitle) then mapsTitle.value
    else ReviewFallbackTitle
  }

  /** The source a review snippet contributes: one when it has a URI, none otherwise. */
  function SnippetSource(snippet: ReviewSnippet, mapsTitle: Option<string>): seq<GroundingSource> {
    if Truthy(snippet.uri) then [GroundingSource(snippet.uri.value, Some(SnippetTitle(snippet, mapsTitle)))] else []
  }

  /** The sources of a list of snippets, in order. */
  function SnippetSources(snippets: seq<ReviewSnippet>, mapsTitle: Option<string>): (r: seq<GroundingSource>)
    ensures |r| <= |snippets|
    ensures forall i :: 0 <= i < |r| ==> r[i].uri != "" && r[i].title.Some? && r[i].title.value != ""
  {
    if snippets == [] then []
    else SnippetSources(snippets[..|snippets| - 1], mapsTitle) + SnippetSource(snippets[|snippets| - 1], mapsTitle)
  }

  /** The sources one chunk contributes: the chunk's own page first, then its review snippets. */
  function ChunkSources(c: GroundingChunk): (r: seq<GroundingSource>)
    ensures forall i :: 0 <= i < |r| ==> r[i].uri != ""
  {
    match c.maps
    case None => []
    case Some(m) =>
      (if Truthy(m.uri) then [GroundingSource(m.uri.value, m.title)] else [])
      + (if m.reviewSnippets.Some? then SnippetSources(m.reviewSnippets.value, m.title) else [])
  }

  /** `rawChunks.flatMap(...)`: the sources of every chunk, chunk after chunk. */
  function FlatSources(chunks: seq<GroundingChunk>): (r: seq<GroundingSource>)
    ensures forall i :: 0 <= i < |r| ==> r[i].uri != ""
  {
    if chunks == [] then []
    else FlatSources(chunks[..|chunks| - 1]) + ChunkSources(chunks[|chunks| - 1])
  }

  /** `self.findIndex(t => t.uri === uri)`: the first index with that URI, -1 if there is none. */
  function FindUri(s: seq<GroundingSource>, uri: string): (k: int)
    ensures -1 <= k < |s|
    ensures k >= 0 ==> s[k].uri == uri && forall j :: 0 <= j < k ==> s[j].uri != uri
    ensures k == -1 ==> forall j :: 0 <= j < |s| ==> s[j].uri != uri
  {
    if s == [] then -1
    else if s[0].uri == uri then 0
    else
      var k := FindUri(s[1..], uri);
      if k == -1 then -1 else k + 1
  }

  /** The elements of `s` from index `i` on that are the first with their URI. */
  function DedupFrom(s: seq<GroundingSource>, i: nat): (r: seq<GroundingSource>)
    requires i <= |s|
    decreases |s| - i
    ensures forall k :: 0 <= k < |r| ==> i <= FindUri(s, r[k].uri) && s[FindUri(s, r[k].uri)] == r[k]
    ensures forall a, b :: 0 <= a < b < |r| ==> FindUri(s, r[a].uri) < FindUri(s, r[b].uri)
  {
    if i == |s| then []
    else (if FindUri(s, s[i].uri) == i then [s[i]] else []) + DedupFrom(s, i + 1)
  }

  /** `.filter((value, index, self) => index === self.findIndex(t => t.uri === value.uri))`. */
  function DedupByUri(s: seq<GroundingSource>): seq<GroundingSource> {
    DedupFrom(s, 0)
  }

  predicate UrisDistinct(s: seq<GroundingSource>) {
    forall a, b :: 0 <= a < b < |s| ==> s[a].uri != s[b].uri
  }

  /** After de-duplication no URI occurs twice. */
  lemma DedupUrisDistinct(s: seq<GroundingSource>)
    ensures UrisDistinct(DedupByUri(s))
  {
    var r := DedupByUri(s);
    forall a, b | 0 <= a < b < |r|
      ensures r[a].uri != r[b].uri
    {
      assert FindUri(s, r[a].uri) < FindUri(s, r[b].uri);
    }
  }

  /** Every de-duplicated source is the first source of the input with its URI, so it carries the first-seen title. */
  lemma DedupKeepsFirstSeen(s: seq<GroundingSource>, k: int)
    requires 0 <= k < |DedupByUri(s)|
    ensures 0 <= FindUri(s, DedupByUri(s)[k].uri) && s[FindUri(s, DedupByUri(s)[k].uri)] == DedupByUri(s)[k]
  {
  }

  lemma {:induction false} DedupFromKeeps(s: seq<GroundingSource>, i: nat, j: nat)
    requires i <= j < |s| && FindUri(s, s[j].uri) == j
    ensures s[j] in DedupFrom(s, i)
    decreases j - i
  {
    if i < j {
      DedupFromKeeps(s, i + 1, j);
    }
  }

  /** Every URI of the input survives de-duplication, as the first source that carried it. */
  lemma DedupKeepsEveryUri(s: seq<GroundingSource>, x: GroundingSource)
    requires x in s
    ensures FindUri(s, x.uri) >= 0 && s[FindUri(s, x.uri)] in DedupByUri(s)
  {
    var j := FindUri(s, x.uri);
    DedupFromKeeps(s, 0, j);
  }

  lemma {:induction false} DedupFromIsSubsequence(s: seq<GroundingSource>, i: nat)
    requires i <= |s|
    ensures IsSubsequence(DedupFrom(s, i), s[i..])
    decreases |s| - i
  {
    if i < |s| {
      DedupFromIsSubsequence(s, i + 1);
      var rest := DedupFrom(s, i + 1);
      assert s[i..][1..] == s[i + 1..];
      if FindUri(s, s[i].uri) == i {
        assert DedupFrom(s, i) == [s[i]] + rest;
        assert ([s[i]] + rest)[1..] == rest;
      } else if rest != [] {
        assert DedupFrom(s, i) == rest;
      }
    }
  }

  /** De-duplication keeps the relative order of first occurrences. */
  lemma DedupInOrder(s: seq<GroundingSource>)
    ensures IsSubsequence(DedupByUri(s), s)
  {
    DedupFromIsSubsequence(s, 0);
    assert s[0..] == s;
  }

  /** `response.candidates?.[0]?.groundingMetadata?.groundingChunks || []`. */
  function ChunksOf(reply: PlacesReply): seq<GroundingChunk> {
    if reply.PlacesReplied? && reply.chunks.Some? then reply.chunks.value else []
  }

  lemma SnippetSourcesStep(snippets: seq<ReviewSnippet>, mapsTitle: Option<string>, i: nat)
    requires i < |snippets|
    ensures SnippetSources(snippets[..i + 1], mapsTitle) == SnippetSources(snippets[..i], mapsTitle) + SnippetSource(snippets[i], mapsTitle)
  {
    assert snippets[..i + 1][..i] == snippets[..i];
  }

  /** The `forEach` over one chunk that pushes its page and its review snippets into `results`. */
  method CollectChunkSources(c: GroundingChunk) returns (results: seq<GroundingSource>)
    ensures results == ChunkSources(c)
  {
    results := [];
    if c.maps.None? {
      return;
    }
    var m := c.maps.value;
    if Truthy(m.uri) {
      results := results + [GroundingSource(m.uri.value, m.title)];
    }
    if m.reviewSnippets.Some? {
      var snippets := m.reviewSnippets.value;
      ghost var head := results;
      var i := 0;
      while i < |snippets|
        invariant 0 <= i <= |snippets|
        invariant results == head + SnippetSources(snippets[..i], m.title)
      {
        var snippet := snippets[i];
        if Truthy(snippet.uri) {
          results := results + [GroundingSource(snippet.uri.value, Some(SnippetTitle(snippet, m.title)))];
        }
        SnippetSourcesStep(snippets, m.title, i);
        i := i + 1;
      }
      assert snippets[..i] == snippets;
    }
  }

  /**
   * `getNearbyPlaces`: the reply's text with its citations, flattened chunk by
   * chunk and de-duplicated by URI; on any failure the fixed apology and no
   * citations. It never fails.
   */
  method GetNearbyPlaces(reply: PlacesReply) returns (r: GroundedResponse)
    ensures reply.PlacesCallFailed? ==> r == GroundedResponse(Some(PlacesError), [])
    ensures reply.PlacesReplied? ==> r.text == reply.text && r.sources == DedupByUri(FlatSources(ChunksOf(reply)))
    ensures UrisDistinct(r.sources)
    ensures forall i :: 0 <= i < |r.sources| ==> r.sources[i].uri != ""
  {
    if reply.PlacesCallFailed? {
      return GroundedResponse(Some(PlacesError), []);
    }
    var chunks := ChunksOf(reply);
    var flat: seq<GroundingSource> := [];
    var i := 0;
    while i < |chunks|
      invariant 0 <= i <= |chunks|
      invariant flat == FlatSources(chunks[..i])
    {
      var fromChunk := CollectChunkSources(chunks[i]);
      assert chunks[..i + 1][..i] == chunks[..i];
      flat := flat + fromChunk;
      i := i + 1;
    }
    assert chunks[..i] == chunks;
    var sources := DedupByUri(flat);
    DedupUrisDistinct(flat);
    forall k | 0 <= k < |sources|
      ensures sources[k].uri != ""
    {
      DedupKeepsFirstSeen(flat, k);
    }
    r := GroundedResponse(reply.text, sources);
  }
}
