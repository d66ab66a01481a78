/**
  The POST `/api/identify` handler: it validates the description, checks
  that an AI key is configured, asks the AI for matches and reshapes its
  reply, and falls back to a keyword-chosen canned match when the AI step
  fails. Every exception becomes a `success: false` response.

  The chat completion is an input (`AiOutcome`), `encodeURIComponent` is the
  parameter `encode`, the elapsed time is the parameter `elapsed`, and the
  random id, score and popularity are `RandomDraw`.
*/
module IdentifyEndpoint {
  import opened Wrappers
  import opened JsString
  import opened IdentificationTypes

  // ---------------------------------------------------------------------
  // The AI reply, as parsed from its JSON

  /** One element of the reply's `matches`; fields the reply may omit are
      options. The title is the record the response carries unchanged. */
  datatype AiMatch = AiMatch(
    title: Option<Title>,
    confidence: real,
    reasoning: string,
    matchedElements: Option<seq<string>>,
    episode: Option<int>,
    description: Option<string>,
    year: Option<int>,
    genres: Option<seq<string>>,
    studio: Option<string>,
    episodes: Option<int>,
    format: Option<string>)

  datatype AiReply = AiReply(matches: Option<seq<AiMatch>>, extractedElements: Option<SceneElements>)

  /** The chat-completion step: it failed (no client, an API error, an empty
      completion, or content that is not JSON), or it produced a parsed reply. */
  datatype AiOutcome = AiFailed | AiParsed(reply: AiReply)

  datatype AiResult = AiResult(matches: seq<SceneMatch>, extractedElements: SceneElements)

  // ---------------------------------------------------------------------
  // Reshaping the reply into scene matches

  const NoDescription := "No description available"
  const DefaultFormat := "TV"

  /** `n || null` for a number that may be missing: zero is falsy. */
  function NumberOrNull(n: Option<int>): (r: Option<int>)
    ensures r.Some? <==> n.Some? && n.value != 0
    ensures r.Some? ==> r == n
  {
    if n.Some? && n.value != 0 then n else None
  }

  /** The anime record built for one AI match whose title is present: the
      AI's titles, a drawn id, score and popularity, defaults that are never
      empty, and links that carry the encoded title. */
  function ReshapeAnime(m: AiMatch, encode: string -> string): (r: Anime)
    requires m.title.Some?
    ensures r.title == m.title.value
    ensures r.id == RandomDraw && r.averageScore == Some(RandomDraw) && r.popularity == Some(RandomDraw)
    ensures r.description == StringOr(m.description, NoDescription) && r.description != ""
    ensures r.format == StringOr(m.format, DefaultFormat) && r.format != ""
    ensures r.episodes == NumberOrNull(m.episodes) && r.seasonYear == NumberOrNull(m.year)
    ensures r.genres == m.genres.GetOr([]) && r.tags == []
    ensures r.studios == (if m.studio.Some? && m.studio.value != "" then [m.studio.value] else [])
    ensures r.status == "FINISHED" && r.source == "MANGA"
    ensures Contains(r.siteUrl, encode(m.title.value.romaji))
    ensures Contains(r.coverLarge, encode(StringOr(m.title.value.english, m.title.value.romaji)))
    ensures Contains(r.coverMedium, encode(StringOr(m.title.value.english, m.title.value.romaji)))
  {
    var t := m.title.value;
    var shown := StringOr(t.english, t.romaji);
    ContainsSuffix("https://anilist.co/search/anime?search=", encode(t.romaji));
    ContainsSuffix("https://via.placeholder.com/300x400/4F46E5/FFFFFF?text=", encode(shown));
    ContainsSuffix("https://via.placeholder.com/200x300/4F46E5/FFFFFF?text=", encode(shown));
    Anime(
      RandomDraw,
      t,
      StringOr(m.description, NoDescription),
      "https://via.placeholder.com/300x400/4F46E5/FFFFFF?text=" + encode(shown),
      "https://via.placeholder.com/200x300/4F46E5/FFFFFF?text=" + encode(shown),
      NumberOrNull(m.episodes),
      "FINISHED",
      NumberOrNull(m.year),
      m.genres.GetOr([]),
      [],
      if m.studio.Some? && m.studio.value != "" then [m.studio.value] else [],
      Some(RandomDraw),
      Some(RandomDraw),
      StringOr(m.format, DefaultFormat),
      "MANGA",
      "https://anilist.co/search/anime?search=" + encode(t.romaji))
  }

  /** Every match carries a title; otherwise reading `match.title.english`
      throws and the AI step fails. */
  predicate AllTitled(ms: seq<AiMatch>) {
    forall i :: 0 <= i < |ms| ==> ms[i].title.Some?
  }

  /** `aiResponse.matches.map(...)`: one scene match per AI match, in the
      AI's order, with the AI's confidence, reasoning and episode copied and
      the documented defaults for what the AI left out. */
  function ReshapeMatches(ms: seq<AiMatch>, encode: string -> string): (r: seq<SceneMatch>)
    requires AllTitled(ms)
    ensures |r| == |ms|
    ensures forall i :: 0 <= i < |ms| ==>
      && r[i].anime == ReshapeAnime(ms[i], encode)
      && r[i].confidence == ms[i].confidence
      && r[i].reasoning == ms[i].reasoning
      && r[i].episode == ms[i].episode
      && r[i].matchedElements == ms[i].matchedElements.GetOr([])
      && r[i].anime.title.romaji == ms[i].title.value.romaji
      && r[i].anime.description == StringOr(ms[i].description, NoDescription)
      && r[i].anime.genres == ms[i].genres.GetOr([])
      && (|r[i].anime.studios| == 1 <==> ms[i].studio.Some? && ms[i].studio.value != "")
      && r[i].anime.format == StringOr(ms[i].format, DefaultFormat)
      && r[i].anime.id == RandomDraw
  {
    seq(|ms|, i requires 0 <= i < |ms| =>
      var m := ms[i];
      SceneMatch(ReshapeAnime(m, encode), m.confidence, m.reasoning, m.matchedElements.GetOr([]), m.episode))
  }

  /** The parsed reply turned into matches and scene elements, or `None`
      where the reshaping throws (no `matches` array, or a match without a
      title). A missing `extractedElements` becomes five empty lists. */
  function Reshape(reply: AiReply, encode: string -> string): (r: Option<AiResult>)
    ensures r.Some? <==> reply.matches.Some? && AllTitled(reply.matches.value)
    ensures r.Some? ==> r.value.matches == ReshapeMatches(reply.matches.value, encode)
    ensures r.Some? ==> |r.value.matches| == |reply.matches.value|
    ensures r.Some? && reply.extractedElements.None? ==> r.value.extractedElements == NoElements
    ensures r.Some? && reply.extractedElements.Some? ==> r.value.extractedElements == reply.extractedElements.value
  {
    match reply.matches
    case None => None
    case Some(ms) =>
      if AllTitled(ms) then
        Some(AiResult(ReshapeMatches(ms, encode), reply.extractedElements.GetOr(NoElements)))
      else None
  }

  // ---------------------------------------------------------------------
  // The fallback used when the AI step fails

  /** The description (already trimmed) names Prince Boji: its lower-cased
      form includes "boji" or "prince". */
  predicate MentionsBoji(description: string)
    ensures MentionsBoji(description) ==>
      exists before, after :: ToLower(description) == before + "boji" + after || ToLower(description) == before + "prince" + after
  {
    var lowered := ToLower(description);
    if Contains(lowered, "boji") then
      ContainsIsInfix(lowered, "boji");
      true
    else if Contains(lowered, "prince") then
      ContainsIsInfix(lowered, "prince");
      true
    else false
  }

  const OusamaRankingMatch := SceneMatch(
    Anime(
      Literal(154587),
      Title("Ousama Ranking", Some("Ranking of Kings"), Some("王様ランキング")),
      "The story follows Bojji, a deaf and powerless prince who cannot even wield a children's sword. As the firstborn son, he strives to become a worthy king.",
      "https://via.placeholder.com/300x400/6B46C1/FFFFFF?text=Ousama%20Ranking",
      "https://via.placeholder.com/200x300/6B46C1/FFFFFF?text=Ousama%20Ranking",
      None,
      "FINISHED",
      Some(2021),
      ["Adventure", "Comedy", "Drama", "Fantasy"],
      [],
      ["Wit Studio"],
      Some(Literal(88)),
      Some(Literal(180000)),
      "TV",
      "MANGA",
      "https://anilist.co/anime/113717"),
    0.85,
    "Based on the mention of 'Prince Boji', this strongly matches Ousama Ranking (Ranking of Kings), where Prince Bojji is the main character who often experiences emotional moments related to his struggles with becoming king.",
    ["Prince Boji", "crying", "king", "emotional scene"],
    None)

  const OusamaRankingElements := SceneElements(
    ["Prince Boji"], ["kingdom"], ["crying"], ["sadness", "disappointment"], ["emotional scene"])

  const UnknownAnimeMatch := SceneMatch(
    Anime(
      Literal(0),
      Title("Unknown Anime", Some("Could not identify"), Some("不明")),
      "Unable to identify this anime. The AI service may be temporarily unavailable.",
      "https://via.placeholder.com/300x400/EF4444/FFFFFF?text=Unknown",
      "https://via.placeholder.com/200x300/EF4444/FFFFFF?text=Unknown",
      None,
      "FINISHED",
      None,
      [],
      [],
      [],
      None,
      Some(Literal(0)),
      "TV",
      "ORIGINAL",
      ""),
    0.1,
    "Could not identify the anime. Try being more specific about characters, visual elements, or memorable scenes.",
    [],
    None)

  /** The canned result: one match, Ousama Ranking when Prince Boji is
      mentioned and the unknown-anime placeholder otherwise. */
  function Fallback(description: string): (r: AiResult)
    ensures |r.matches| == 1
    ensures MentionsBoji(description) ==>
      && r.matches == [OusamaRankingMatch]
      && r.extractedElements == OusamaRankingElements
      && r.matches[0].anime.id == Literal(154587)
      && r.matches[0].anime.title.romaji == "Ousama Ranking"
      && r.matches[0].confidence == 0.85
    ensures !MentionsBoji(description) ==>
      && r.matches == [UnknownAnimeMatch]
      && r.extractedElements == NoElements
      && r.matches[0].anime.id == Literal(0)
      && r.matches[0].anime.title.romaji == "Unknown Anime"
      && r.matches[0].confidence == 0.1
  {
    if MentionsBoji(description) then AiResult([OusamaRankingMatch], OusamaRankingElements)
    else AiResult([UnknownAnimeMatch], NoElements)
  }

  /** The keyword test ignores case: a description with an infix that
      lower-cases to "boji" or "prince" (such as "Prince" or "BOJI") gets the
      Ousama Ranking fallback. */
  lemma {:induction false} FallbackIgnoresCase(before: string, keyword: string, after: string)
    requires ToLower(keyword) == "boji" || ToLower(keyword) == "prince"
    ensures Fallback(before + keyword + after).matches == [OusamaRankingMatch]
  {
    var d := before + keyword + after;
    ToLowerConcat(before + keyword, after);
    ToLowerConcat(before, keyword);
    ContainsInfix(ToLower(before), ToLower(keyword), ToLower(after));
    assert MentionsBoji(d);
  }

  /** `identifyAnimeWithAI`: the reshaped reply when the AI step and the
      reshaping succeed, the fallback for the description otherwise. It never
      fails and always reports at least one match when it falls back. */
  function IdentifyWithAI(description: string, ai: AiOutcome, encode: string -> string): (r: AiResult)
    ensures ai.AiParsed? && Reshape(ai.reply, encode).Some? ==>
      && r == Reshape(ai.reply, encode).value
      && r.matches == ReshapeMatches(ai.reply.matches.value, encode)
      && r.extractedElements == ai.reply.extractedElements.GetOr(NoElements)
    ensures !(ai.AiParsed? && Reshape(ai.reply, encode).Some?) ==> r == Fallback(description)
  {
    match ai
    case AiFailed => Fallback(description)
    case AiParsed(reply) =>
      match Reshape(reply, encode)
      case Some(result) => result
      case None => Fallback(description)
  }

  // ---------------------------------------------------------------------
  // The handler

  datatype RequestBody = RequestBody(description: Option<string>)

  /** What reading the request body produced. */
  datatype BodyOutcome = BodyRead(body: RequestBody) | BodyThrew(thrown: Thrown)

  const DescriptionRequired := "Description is required"
  const DescriptionTooShort := "Description must be at least 5 characters long"
  const AiNotConfigured := "AI service not configured"
  const FailedToIdentify := "Failed to identify anime"

  /** The outcome of the checks made before the AI step. */
  datatype Checked = Accepted(description: string) | Refused(thrown: Thrown)

  /** The body is read, the description is present and its trimmed form is
      at least 5 UTF-16 code units long. */
  predicate ValidBody(body: BodyOutcome) {
    && body.BodyRead?
    && body.body.description.Some?
    && Utf16Length(Trim(body.body.description.value)) >= 5
  }

  /** The OpenAI key is configured: present and non-empty. */
  predicate KeyConfigured(apiKey: Option<string>) {
    apiKey.Some? && apiKey.value != ""
  }

  /** The handler's guards, in order: a blank description, a short one, a
      missing key. A refusal carries what is thrown (`createError` makes an
      `Error` whose message is its status message). */
  function CheckRequest(body: BodyOutcome, apiKey: Option<string>): (r: Checked)
    ensures r.Accepted? <==> ValidBody(body) && KeyConfigured(apiKey)
    ensures r.Accepted? ==> r.description == Trim(body.body.description.value)
  {
    match body
    case BodyThrew(thrown) => Refused(thrown)
    case BodyRead(RequestBody(d)) =>
      if d.None? || Trim(d.value) == [] then Refused(ErrorThrown(DescriptionRequired))
      else if Utf16Length(Trim(d.value)) < 5 then Refused(ErrorThrown(DescriptionTooShort))
      else if !KeyConfigured(apiKey) then Refused(ErrorThrown(AiNotConfigured))
      else Accepted(Trim(d.value))
  }

  /** The message reported for a thrown value: an `Error`'s own message,
      and "Failed to identify anime" for anything else. */
  function ThrownMessage(thrown: Thrown): (r: string)
    ensures thrown.ErrorThrown? ==> r == thrown.message
    ensures thrown.NonErrorThrown? ==> r == FailedToIdentify
  {
    match thrown
    case ErrorThrown(message) => message
    case NonErrorThrown => FailedToIdentify
  }

  /** The POST `/api/identify` handler. */
  function Handle(body: BodyOutcome, apiKey: Option<string>, ai: AiOutcome,
                  encode: string -> string, elapsed: int): (r: IdentificationResponse)
    ensures r.success <==> ValidBody(body) && KeyConfigured(apiKey)
    ensures r.searchTime == elapsed
    ensures r.success ==>
      && r.query.processedDescription == Trim(body.body.description.value)
      && r.error == None
    ensures r.success ==>
      var result := IdentifyWithAI(Trim(body.body.description.value), ai, encode);
      r.matches == result.matches && r.query.extractedElements == result.extractedElements
    ensures r.success && !(ai.AiParsed? && Reshape(ai.reply, encode).Some?) ==> |r.matches| == 1
    ensures !r.success ==>
      && r.matches == []
      && r.query == Query("", NoElements)
      && r.error.Some?
    ensures body.BodyThrew? ==> r.error == Some(ThrownMessage(body.thrown))
    ensures body.BodyRead? && !ValidBody(body) ==>
      r.error == Some(if body.body.description.None? || AllWhitespace(body.body.description.value)
                      then DescriptionRequired else DescriptionTooShort)
    ensures ValidBody(body) && !KeyConfigured(apiKey) ==> r.error == Some(AiNotConfigured)
  {
    match CheckRequest(body, apiKey)
    case Refused(thrown) => FailureResponse("", elapsed, ThrownMessage(thrown))
    case Accepted(description) =>
      var result := IdentifyWithAI(description, ai, encode);
      IdentificationResponse(true, result.matches, Query(description, result.extractedElements), elapsed, None)
  }

  /** A missing, blank or short description is refused before the key check
      and the AI step: the response is the same whatever the key and the AI
      would have done, and names the failed rule. */
  lemma ShortDescriptionNeverReachesAi(description: Option<string>, key1: Option<string>, key2: Option<string>,
                                       ai1: AiOutcome, ai2: AiOutcome, encode: string -> string, elapsed: int)
    requires description.None? || Utf16Length(Trim(description.value)) < 5
    ensures var r := Handle(BodyRead(RequestBody(description)), key1, ai1, encode, elapsed);
      && r == Handle(BodyRead(RequestBody(description)), key2, ai2, encode, elapsed)
      && !r.success
      && r.error == Some(if description.None? || AllWhitespace(description.value)
                         then DescriptionRequired else DescriptionTooShort)
  {
    if description.Some? {
      TrimEmptyIff(description.value);
    }
  }

  /** A valid description without a configured key fails with "AI service
      not configured", whatever the AI would have done. */
  lemma MissingKeyNeverReachesAi(description: string, apiKey: Option<string>,
                                 ai1: AiOutcome, ai2: AiOutcome, encode: string -> string, elapsed: int)
    requires Utf16Length(Trim(description)) >= 5
    requires !KeyConfigured(apiKey)
    ensures var r := Handle(BodyRead(RequestBody(Some(description))), apiKey, ai1, encode, elapsed);
      && r == Handle(BodyRead(RequestBody(Some(description))), apiKey, ai2, encode, elapsed)
      && r == FailureResponse("", elapsed, AiNotConfigured)
  {
  }

  /** When the AI step fails, a valid request with a key still succeeds, with
      exactly the one fallback match for the trimmed description. */
  lemma AiFailureStillSucceeds(description: string, apiKey: Option<string>, encode: string -> string, elapsed: int)
    requires Utf16Length(Trim(description)) >= 5
    requires KeyConfigured(apiKey)
    ensures var r := Handle(BodyRead(RequestBody(Some(description))), apiKey, AiFailed, encode, elapsed);
      && r.success
      && |r.matches| == 1
      && r.matches == Fallback(Trim(description)).matches
      && r.query.extractedElements == Fallback(Trim(description)).extractedElements
      && r.query.processedDescription == Trim(description)
  {
  }

  /** A successful AI step's matches reach the caller in the AI's order, one
      per AI match, with the AI's confidence, reasoning and episode. */
  lemma AiMatchesPassedThrough(description: string, apiKey: Option<string>, reply: AiReply,
                               encode: string -> string, elapsed: int)
    requires Utf16Length(Trim(description)) >= 5
    requires KeyConfigured(apiKey)
    requires reply.matches.Some? && AllTitled(reply.matches.value)
    ensures var r := Handle(BodyRead(RequestBody(Some(description))), apiKey, AiParsed(reply), encode, elapsed);
      && r.success
      && |r.matches| == |reply.matches.value|
      && (forall i :: 0 <= i < |r.matches| ==>
            && r.matches[i].confidence == reply.matches.value[i].confidence
            && r.matches[i].reasoning == reply.matches.value[i].reasoning
            && r.matches[i].episode == reply.matches.value[i].episode)
      && r.query.extractedElements == reply.extractedElements.GetOr(NoElements)
  {
  }
}
