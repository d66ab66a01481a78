/**
  The GET `/api/fandom` handler: it turns an anime title into a Fandom wiki
  name, probes four candidate wikis in order for a thumbnail, then tries a
  search on the generic anime wiki, and finally returns a search URL.

  The network is an oracle `fetch` from a URL to what fetching it gives,
  and `encodeURIComponent` is the parameter `encode`.
*/
module FandomImage {
  import opened Wrappers
  import opened JsString

  /** A page of a `prop=pageimages` query; `thumbnail` is its `thumbnail.source`. */
  datatype Page = Page(thumbnail: Option<string>)

  /** A response body as the handler reads it: not JSON at all, a query
      result (`query.pages`, in `Object.values` order), or an OpenSearch
      array (whose second element is the list of suggested titles). */
  datatype Body = Malformed | PageQuery(pages: Option<seq<Page>>) | OpenSearch(suggestions: Option<seq<string>>)

  /** What `fetch` gives: a rejected promise, or a response with its `ok` flag and body. */
  datatype Reply = NetworkError | Response(ok: bool, body: Body)

  datatype FandomResult = FandomResult(
    success: bool,
    imageUrl: Option<string>,
    source: string,
    wiki: string,
    pageTitle: Option<string>,
    fandomUrl: Option<string>)

  datatype FandomResponse = BadRequest(statusCode: int, statusMessage: string) | Answer(result: FandomResult)

  const TitleRequired := "Title parameter is required"

  // ---------------------------------------------------------------------
  // Title sanitisation and the candidate wikis

  /** `title.replace(/[^\w\s]/g, '').replace(/\s+/g, '_')`. */
  function SearchTitle(title: string): (r: string)
    ensures forall i :: 0 <= i < |r| ==> IsWordChar(r[i])
  {
    var stripped := StripNonWord(title);
    ReplaceRunsKeepsWordChars(stripped, "_");
    ReplaceWhitespaceRuns(stripped, "_")
  }

  /** `searchTitle.toLowerCase().replace(/\s+/g, '')`: lower-case word
      characters only. The second replacement changes nothing, since the
      search title has no whitespace left. */
  function WikiName(title: string): (r: string)
    ensures forall i :: 0 <= i < |r| ==> IsWordChar(r[i]) && !('A' <= r[i] <= 'Z')
    ensures NoWhitespace(r)
    ensures r == ToLower(SearchTitle(title))
    ensures |r| == |SearchTitle(title)|
  {
    var lowered := ToLower(SearchTitle(title));
    ToLowerOfWordChars(SearchTitle(title));
    ReplaceRunsWithoutWhitespace(lowered, "");
    ReplaceWhitespaceRuns(lowered, "")
  }

  /** Sanitising an already sanitised title changes nothing. */
  lemma SearchTitleIdempotent(title: string)
    ensures SearchTitle(SearchTitle(title)) == SearchTitle(title)
  {
    var s := SearchTitle(title);
    assert StripNonWord(s) == s;
    ReplaceRunsWithoutWhitespace(s, "_");
  }

  /** Between two words, a run of whitespace becomes a single underscore. */
  lemma SearchTitleJoinsWords(word: string, spaces: string, rest: string)
    requires forall i :: 0 <= i < |word| ==> IsWordChar(word[i])
    requires spaces != [] && AllWhitespace(spaces)
    requires forall i :: 0 <= i < |rest| ==> IsWordChar(rest[i]) || IsWhitespace(rest[i])
    requires rest == [] || !IsWhitespace(rest[0])
    ensures SearchTitle(word + spaces + rest) == word + "_" + SearchTitle(rest)
  {
    var s := word + spaces + rest;
    forall i | 0 <= i < |s| ensures IsWordChar(s[i]) || IsWhitespace(s[i]) {
      if i < |word| {
        assert s[i] == word[i];
      } else if i < |word| + |spaces| {
        assert s[i] == spaces[i - |word|];
      } else {
        assert s[i] == rest[i - |word| - |spaces|];
      }
    }
    assert StripNonWord(s) == s;
    assert StripNonWord(rest) == rest;
    assert NoWhitespace(word) by {
      forall i | 0 <= i < |word| ensures !IsWhitespace(word[i]) {
        assert IsWordChar(word[i]);
      }
    }
    ReplaceOneRun(word, spaces, rest, "_");
  }

  /** The wikis probed, in order. */
  function Candidates(wikiName: string): (r: seq<string>)
    ensures |r| == 4 && r[0] == wikiName && r[3] == "anime"
    ensures r[1] == wikiName + "wiki" && r[2] == wikiName + "anime"
    ensures forall i :: 0 <= i < 3 ==> wikiName <= r[i]
  {
    [wikiName, wikiName + "wiki", wikiName + "anime", "anime"]
  }

  // ---------------------------------------------------------------------
  // URLs

  function Host(wiki: string): string {
    wiki + ".fandom.com"
  }

  /** The wiki's API endpoint. */
  function ApiEndpoint(wiki: string): string {
    "https://" + Host(wiki) + "/api.php"
  }

  /** The query strings of the four API calls. */
  const MainPageQuery := "?action=query&format=json&titles=Main_Page&prop=pageimages&pithumbsize=400&origin=*"
  const OpenSearchQuery := "?action=opensearch&format=json&search="
  const WikiSearchLimit := "&limit=5&origin=*"
  const PageInfoQuery := "?action=query&format=json&titles="
  const PageImagesQuery := "&prop=pageimages&pithumbsize=400&origin=*"
  const GenericSearchLimit := "&limit=3&origin=*"

  /** The main page's image query on the wiki's host. */
  function MainPageUrl(wiki: string): (r: string)
    ensures ApiEndpoint(wiki) <= r
  {
    ApiEndpoint(wiki) + MainPageQuery
  }

  /** The wiki's search for the encoded title, five suggestions at most. */
  function WikiSearchUrl(wiki: string, encodedTitle: string): (r: string)
    ensures ApiEndpoint(wiki) <= r
    ensures Contains(r, encodedTitle)
  {
    ContainsInfix(ApiEndpoint(wiki) + OpenSearchQuery, encodedTitle, WikiSearchLimit);
    ApiEndpoint(wiki) + OpenSearchQuery + encodedTitle + WikiSearchLimit
  }

  /** The image query for one encoded page title on the wiki's host. */
  function PageInfoUrl(wiki: string, encodedPage: string): (r: string)
    ensures ApiEndpoint(wiki) <= r
    ensures Contains(r, encodedPage)
  {
    ContainsInfix(ApiEndpoint(wiki) + PageInfoQuery, encodedPage, PageImagesQuery);
    ApiEndpoint(wiki) + PageInfoQuery + encodedPage + PageImagesQuery
  }

  /** The generic anime wiki's search for the encoded title, three
      suggestions at most. */
  function GenericSearchUrl(encodedTitle: string): (r: string)
    ensures ApiEndpoint("anime") <= r
    ensures Contains(r, encodedTitle)
  {
    ContainsInfix(ApiEndpoint("anime") + OpenSearchQuery, encodedTitle, GenericSearchLimit);
    ApiEndpoint("anime") + OpenSearchQuery + encodedTitle + GenericSearchLimit
  }

  /** The article URL: whitespace runs of the page title become '_' and the
      result is encoded. */
  function ArticleUrl(wiki: string, pageTitle: string, encode: string -> string): (r: string)
    ensures "https://" + Host(wiki) + "/wiki/" <= r
    ensures Contains(r, encode(ReplaceWhitespaceRuns(pageTitle, "_")))
    ensures NoWhitespace(ReplaceWhitespaceRuns(pageTitle, "_"))
  {
    ContainsSuffix("https://" + Host(wiki) + "/wiki/", encode(ReplaceWhitespaceRuns(pageTitle, "_")));
    "https://" + Host(wiki) + "/wiki/" + encode(ReplaceWhitespaceRuns(pageTitle, "_"))
  }

  /** The anime wiki's search page for the encoded title. */
  function SpecialSearchUrl(encodedTitle: string): (r: string)
    ensures "https://" + Host("anime") + "/wiki/" <= r
    ensures Contains(r, encodedTitle)
  {
    ContainsSuffix("https://" + Host("anime") + "/wiki/Special:Search?query=", encodedTitle);
    "https://" + Host("anime") + "/wiki/Special:Search?query=" + encodedTitle
  }

  // ---------------------------------------------------------------------
  // Probing one wiki

  /** `Object.values(pages)[0]?.thumbnail?.source`, when it is truthy. */
  function Thumbnail(body: Body): (r: Option<string>)
    ensures r.Some? ==> r.value != ""
    ensures r.Some? <==>
      && body.PageQuery? && body.pages.Some? && body.pages.value != []
      && body.pages.value[0].thumbnail.Some? && body.pages.value[0].thumbnail.value != ""
    ensures r.Some? ==> r == body.pages.value[0].thumbnail
  {
    match body
    case PageQuery(Some(pages)) =>
      if pages != [] && pages[0].thumbnail.Some? && pages[0].thumbnail.value != "" then pages[0].thumbnail
      else None
    case _ => None
  }

  /** What probing one wiki came to: an answer, nothing, or an exception
      (which the loop catches). */
  datatype Probe = Hit(result: FandomResult) | Missed | Threw

  /** The first suggestion's page, probed for its thumbnail. */
  function ProbePage(wiki: string, firstPage: string, fetch: string -> Reply, encode: string -> string): (r: Probe)
    ensures r.Hit? ==> r.result == FandomResult(true, r.result.imageUrl, "fandom", Host(wiki),
                                                Some(firstPage), Some(ArticleUrl(wiki, firstPage, encode)))
    ensures r.Hit? ==> r.result.imageUrl.Some? && r.result.imageUrl.value != ""
  {
    match fetch(PageInfoUrl(wiki, encode(firstPage)))
    case NetworkError => Threw
    case Response(ok, body) =>
      if !ok then Missed
      else if body.Malformed? then Threw
      else
        match Thumbnail(body)
        case Some(image) =>
          Hit(FandomResult(true, Some(image), "fandom", Host(wiki), Some(firstPage), Some(ArticleUrl(wiki, firstPage, encode))))
        case None => Missed
  }

  /** The wiki's own search for the title, then its first suggestion. */
  function ProbeSearch(wiki: string, title: string, fetch: string -> Reply, encode: string -> string): (r: Probe)
    ensures r.Hit? ==> r.result.success && r.result.wiki == Host(wiki)
    ensures r.Hit? ==> r.result.imageUrl.Some? && r.result.imageUrl.value != ""
  {
    match fetch(WikiSearchUrl(wiki, encode(title)))
    case NetworkError => Threw
    case Response(ok, body) =>
      if !ok then Missed
      else
        match body
        case Malformed => Threw
        case OpenSearch(Some(suggestions)) =>
          if suggestions == [] then Missed else ProbePage(wiki, suggestions[0], fetch, encode)
        case _ => Missed
  }

  /** One iteration of the probe loop: the wiki's main-page image, and
      failing that its search. A hit reports a non-empty image and the wiki
      that gave it. */
  function ProbeWiki(wiki: string, title: string, fetch: string -> Reply, encode: string -> string): (r: Probe)
    ensures r.Hit? ==> r.result.success && r.result.source == "fandom" && r.result.wiki == Host(wiki)
    ensures r.Hit? ==> r.result.imageUrl.Some? && r.result.imageUrl.value != ""
  {
    match fetch(MainPageUrl(wiki))
    case NetworkError => Threw
    case Response(ok, body) =>
      if ok && body.Malformed? then Threw
      else if ok && Thumbnail(body).Some? then
        Hit(FandomResult(true, Thumbnail(body), "fandom", Host(wiki), None, None))
      else ProbeSearch(wiki, title, fetch, encode)
  }

  // ---------------------------------------------------------------------
  // After the loop

  /** The generic anime wiki's search, and failing that the Special:Search
      URL. Neither has an image. */
  function AfterProbes(title: string, fetch: string -> Reply, encode: string -> string): (r: FandomResult)
    ensures r.success && r.imageUrl == None && r.source == "fandom" && r.wiki == Host("anime")
    ensures r.pageTitle.None? ==> r.fandomUrl == Some(SpecialSearchUrl(encode(title)))
    ensures r.pageTitle.Some? ==> r.fandomUrl == Some(ArticleUrl("anime", r.pageTitle.value, encode))
  {
    match fetch(GenericSearchUrl(encode(title)))
    case Response(true, OpenSearch(Some(suggestions))) =>
      if suggestions != [] then
        FandomResult(true, None, "fandom", Host("anime"), Some(suggestions[0]), Some(ArticleUrl("anime", suggestions[0], encode)))
      else SearchFallback(title, encode)
    case _ => SearchFallback(title, encode)
  }

  /** The final answer: a search on the anime wiki, without an image. */
  function SearchFallback(title: string, encode: string -> string): (r: FandomResult)
    ensures r.success && r.imageUrl == None && r.pageTitle == None && r.wiki == Host("anime")
    ensures r.fandomUrl.Some? && Contains(r.fandomUrl.value, encode(title))
  {
    FandomResult(true, None, "fandom", Host("anime"), None, Some(SpecialSearchUrl(encode(title))))
  }

  // ---------------------------------------------------------------------
  // What each reply leads to

  /** The first page's thumbnail: an ok reply with one is a hit naming the
      page and its article; a rejected fetch or a body that is not JSON
      throws; anything else misses. */
  lemma ProbePageCases(wiki: string, firstPage: string, fetch: string -> Reply, encode: string -> string)
    ensures var p := ProbePage(wiki, firstPage, fetch, encode);
      match fetch(PageInfoUrl(wiki, encode(firstPage)))
      case NetworkError => p == Threw
      case Response(ok, body) =>
        if ok && body.Malformed? then p == Threw
        else if ok && Thumbnail(body).Some? then
          p == Hit(FandomResult(true, Thumbnail(body), "fandom", Host(wiki), Some(firstPage), Some(ArticleUrl(wiki, firstPage, encode))))
        else p == Missed
  {
  }

  /** The wiki's search: an ok reply with suggestions leads to the first
      suggestion's page; a rejected fetch or a body that is not JSON throws;
      anything else misses. */
  lemma ProbeSearchCases(wiki: string, title: string, fetch: string -> Reply, encode: string -> string)
    ensures var p := ProbeSearch(wiki, title, fetch, encode);
      match fetch(WikiSearchUrl(wiki, encode(title)))
      case NetworkError => p == Threw
      case Response(ok, body) =>
        if ok && body.Malformed? then p == Threw
        else if ok && body.OpenSearch? && body.suggestions.Some? && body.suggestions.value != [] then
          p == ProbePage(wiki, body.suggestions.value[0], fetch, encode)
        else p == Missed
  {
  }

  /** One candidate: an ok main-page reply with a thumbnail is a hit at once;
      a rejected fetch or an ok body that is not JSON throws; any other reply,
      including one that is not ok, goes on to the wiki's search. */
  lemma ProbeWikiCases(wiki: string, title: string, fetch: string -> Reply, encode: string -> string)
    ensures var p := ProbeWiki(wiki, title, fetch, encode);
      match fetch(MainPageUrl(wiki))
      case NetworkError => p == Threw
      case Response(ok, body) =>
        if ok && body.Malformed? then p == Threw
        else if ok && Thumbnail(body).Some? then p == Hit(FandomResult(true, Thumbnail(body), "fandom", Host(wiki), None, None))
        else p == ProbeSearch(wiki, title, fetch, encode)
  {
  }

  /** After the probes: an ok generic search with suggestions names the first
      suggestion and its article on the anime wiki; anything else, a thrown
      error included, gives the Special:Search fallback. */
  lemma AfterProbesCases(title: string, fetch: string -> Reply, encode: string -> string)
    ensures var r := AfterProbes(title, fetch, encode);
      match fetch(GenericSearchUrl(encode(title)))
      case Response(true, OpenSearch(Some(suggestions))) =>
        if suggestions != [] then
          && r.pageTitle == Some(suggestions[0])
          && r.fandomUrl == Some(ArticleUrl("anime", suggestions[0], encode))
        else r == SearchFallback(title, encode)
      case _ => r == SearchFallback(title, encode)
  {
  }

  // ---------------------------------------------------------------------
  // The probe loop

  /** What probing each of the wikis comes to, in order. */
  function Probes(wikis: seq<string>, title: string, fetch: string -> Reply, encode: string -> string): (r: seq<Probe>)
    ensures |r| == |wikis|
    ensures forall i :: 0 <= i < |wikis| ==> r[i] == ProbeWiki(wikis[i], title, fetch, encode)
  {
    seq(|wikis|, i requires 0 <= i < |wikis| => ProbeWiki(wikis[i], title, fetch, encode))
  }

  /** None of the first `n` probes hit. */
  predicate NoHitBefore(probes: seq<Probe>, n: nat)
    requires n <= |probes|
  {
    forall j :: 0 <= j < n ==> !probes[j].Hit?
  }

  /** `result` is the hit of probe `k`, the first probe that hit. */
  predicate FirstHit(probes: seq<Probe>, k: nat, result: FandomResult) {
    && k < |probes|
    && probes[k] == Hit(result)
    && NoHitBefore(probes, k)
  }

  /** What the handler may answer after the probes: the first hit, or, when
      no probe hits, the answer found after the loop. */
  predicate Answers(probes: seq<Probe>, afterwards: FandomResult, result: FandomResult) {
    || (exists k :: 0 <= k < |probes| && FirstHit(probes, k, result))
    || (NoHitBefore(probes, |probes|) && result == afterwards)
  }

  /** At most one probe is the first hit. */
  lemma FirstHitUnique(probes: seq<Probe>, k1: nat, k2: nat, r1: FandomResult, r2: FandomResult)
    requires FirstHit(probes, k1, r1)
    requires FirstHit(probes, k2, r2)
    ensures k1 == k2 && r1 == r2
  {
  }

  /** The handler's answer is determined by the probes and what follows them. */
  lemma {:induction false} AnswerUnique(probes: seq<Probe>, afterwards: FandomResult, r1: FandomResult, r2: FandomResult)
    requires Answers(probes, afterwards, r1)
    requires Answers(probes, afterwards, r2)
    ensures r1 == r2
  {
    if NoHitBefore(probes, |probes|) {
      forall k | 0 <= k < |probes| ensures !FirstHit(probes, k, r1) && !FirstHit(probes, k, r2) {
        assert !probes[k].Hit?;
      }
    } else {
      var k1 :| 0 <= k1 < |probes| && FirstHit(probes, k1, r1);
      var k2 :| 0 <= k2 < |probes| && FirstHit(probes, k2, r2);
      FirstHitUnique(probes, k1, k2, r1, r2);
    }
  }

  /** A hit after a run of probes without one is the answer. */
  lemma HitAnswers(probes: seq<Probe>, i: nat, afterwards: FandomResult, result: FandomResult)
    requires i < |probes|
    requires NoHitBefore(probes, i)
    requires probes[i] == Hit(result)
    ensures Answers(probes, afterwards, result)
  {
    assert FirstHit(probes, i, result);
  }

  /** The first candidate whose main page has a thumbnail wins: when the first
      wiki's main page gives one, that image is the answer, whatever the other
      wikis would reply. */
  lemma FirstMainPageThumbnailWins(wikis: seq<string>, title: string, fetch: string -> Reply, encode: string -> string,
                                   body: Body, result: FandomResult)
    requires wikis != []
    requires fetch(MainPageUrl(wikis[0])) == Response(true, body)
    requires Thumbnail(body).Some?
    requires Answers(Probes(wikis, title, fetch, encode), AfterProbes(title, fetch, encode), result)
    ensures result == FandomResult(true, Thumbnail(body), "fandom", Host(wikis[0]), None, None)
  {
    var probes := Probes(wikis, title, fetch, encode);
    var hit := FandomResult(true, Thumbnail(body), "fandom", Host(wikis[0]), None, None);
    assert probes[0] == ProbeWiki(wikis[0], title, fetch, encode) == Hit(hit);
    HitAnswers(probes, 0, AfterProbes(title, fetch, encode), hit);
    AnswerUnique(probes, AfterProbes(title, fetch, encode), result, hit);
  }

  /** The GET `/api/fandom` handler. A missing or empty title is a 400 error.
      Otherwise the candidates are probed in order: the answer is the first
      hit, and a candidate that misses or throws hands over to the next;
      when none hits, the answer is the generic search or its fallback. */
  method FetchFandomImage(title: Option<string>, fetch: string -> Reply, encode: string -> string)
    returns (r: FandomResponse)
    ensures r.BadRequest? <==> title.None? || title.value == ""
    ensures r.BadRequest? ==> r == BadRequest(400, TitleRequired)
    ensures r.Answer? ==> r.result.success
    ensures r.Answer? ==>
      Answers(Probes(Candidates(WikiName(title.value)), title.value, fetch, encode),
              AfterProbes(title.value, fetch, encode), r.result)
  {
    if title.None? || title.value == "" {
      return BadRequest(400, TitleRequired);
    }
    var t := title.value;
    var possibleWikis := Candidates(WikiName(t));
    ghost var probes := Probes(possibleWikis, t, fetch, encode);
    for i := 0 to |possibleWikis|
      invariant NoHitBefore(probes, i)
    {
      var probe := ProbeWiki(possibleWikis[i], t, fetch, encode);
      assert probe == probes[i];
      if probe.Hit? {
        HitAnswers(probes, i, AfterProbes(t, fetch, encode), probe.result);
        return Answer(probe.result);
      }
      // a miss, or an exception caught by the loop: go on with the next wiki
    }
    r := Answer(AfterProbes(t, fetch, encode));
  }
}
