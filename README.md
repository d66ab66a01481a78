# anime-finder: a verified model of the identification and lookup endpoints

anime-finder is a Nuxt application. A user describes an anime scene, and
the app asks an AI model which anime it comes from. It then offers search
links to streaming services and a picture from the anime's Fandom wiki.
This project models the logic of that application in Dafny and proves
properties of the model:

- **`UseAnimeIdentify`** (`use_anime_identify.dfy`) covers the browser
  composable:
  - `Identify` turns whatever the `/api/identify` call comes to into an
    `IdentificationResponse`. A failure always gets the same shape.
  - `ValidateDescription` is the client-side length check on the trimmed
    text.
- **`IdentifyEndpoint`** (`identify_endpoint.dfy`) covers `POST
  /api/identify`:
  - request validation, and how every error becomes a failure response;
  - how a parsed AI reply is reshaped into scene matches, with JavaScript's
    `||` defaults;
  - the keyword fallback that answers when the AI call or the reshaping
    throws.
- **`StreamingLinks`** (`streaming.dfy`) covers `GET /api/streaming`:
  - a method builds the ten-provider table one push at a time;
  - the answer keeps the four popular services and then the two rental
    ones, in table order.
- **`FandomImage`** (`fandom.dfy`) covers `GET /api/fandom`:
  - the title is sanitised into a wiki name;
  - four candidate wikis are probed in order by a loop in which a miss or
    an exception moves on to the next wiki;
  - after the loop come the generic anime wiki's search and then a final
    search URL.
- **`JsString`** (`js_string.dfy`) holds the JavaScript string operations
  the code relies on:
  - `trim` and the `\s` class, which in JavaScript cover the same
    whitespace set;
  - `length` in UTF-16 code units;
  - `toLowerCase`, `includes`, and the two regular-expression replacements
    `/[^\w\s]/g` and `/\s+/g`.
- **`IdentificationTypes`** and **`Wrappers`** hold the shared records and
  `Option`.

Outside inputs are parameters:
- the network is an oracle `fetch` from URL to reply;
- `encodeURIComponent` is a function parameter `encode`;
- the outcome of the AI call is an `AiOutcome`;
- the request body is read into a `BodyOutcome`;
- the elapsed time is a number `elapsed`.

Values drawn with `Math.random` are kept as the marker `RandomDraw`.

The sanitised wiki name keeps its underscores. The title's whitespace runs
have already become `_` before the wiki name is computed, so its own
whitespace removal changes nothing. `FandomImage.WikiName` states this.

## Model

| member | source | states |
|---|---|---|
| JsString.StringOr | composables/useAnimeIdentify.ts:17 | a logical-or default on strings: the default is chosen exactly when the value is missing or empty; the result is non-empty iff one of the two is |
| JsString.AsciiWhitespace | server/api/identify.post.ts:15 | among ASCII characters, `trim` and `\s` take exactly tab, line feed, vertical tab, form feed, carriage return and space (the full set also holds the Unicode space separators, the line and paragraph separators and the byte order mark) |
| JsString.WordCharsAreAsciiNonWhitespace | server/api/fandom.get.ts:14 | `\w` (letters, digits and underscore) matches only ASCII characters, none of which `\s` matches |
| JsString.Utf16Length | composables/useAnimeIdentify.ts:49 | `length` counts one or two code units per character, and is zero only for the empty string |
| JsString.TrimStart | composables/useAnimeIdentify.ts:45 | the result is a suffix of the input, everything removed is whitespace, and it does not start with whitespace |
| JsString.TrimEnd | server/api/identify.post.ts:22 | the result is a prefix of the input, everything removed is whitespace, and it does not end with whitespace |
| JsString.Trim | server/api/identify.post.ts:15 | the trimmed text neither starts nor ends with whitespace |
| JsString.TrimIdempotent | composables/useAnimeIdentify.ts:45-53 | trimming twice is trimming once |
| JsString.TrimEmptyIff | composables/useAnimeIdentify.ts:45 | `!s.trim()` holds exactly when the string is all whitespace |
| JsString.LowerChar | server/api/fandom.get.ts:15 | lower-casing gives one or two characters, and a word character stays one lower-case word character |
| JsString.ToLowerLength | server/api/fandom.get.ts:15 | `toLowerCase` never drops a character and at most doubles the length |
| JsString.ToLowerConcat | server/api/identify.post.ts:219 | lower-casing distributes over concatenation |
| JsString.ToLowerOfWordChars | server/api/fandom.get.ts:15 | lower-casing a string of word characters keeps its length and gives lower-case word characters |
| JsString.Contains | server/api/identify.post.ts:219 | `includes` holds for every prefix, and only for strings no longer than the text |
| JsString.ContainsSuffix | server/api/fandom.get.ts:138 | a URL ending in the encoded title includes it |
| JsString.ContainsInfix | server/api/identify.post.ts:219 | `includes` finds a keyword wherever it sits |
| JsString.ContainsIsInfix | server/api/identify.post.ts:219 | when `includes` holds, the string splits around the keyword |
| JsString.StripNonWord | server/api/fandom.get.ts:14 | `replace(/[^\w\s]/g, '')` keeps only word characters and whitespace, keeps every such character, and changes nothing when there is nothing to drop |
| JsString.StripNonWordChar | server/api/fandom.get.ts:14 | one character is kept exactly when it is a word character or whitespace, and dropped otherwise |
| JsString.StripNonWordConcat | server/api/fandom.get.ts:14 | the replacement distributes over concatenation, so with StripNonWordChar it keeps the kept characters in order and as often as they occur |
| JsString.ReplaceWhitespaceRuns | server/api/fandom.get.ts:14 | replacing whitespace runs by a replacement without whitespace leaves no whitespace |
| JsString.ReplaceRunsWithoutWhitespace | server/api/fandom.get.ts:15 | replacing whitespace runs in a string without whitespace changes nothing |
| JsString.ReplaceRunsKeepsWordChars | server/api/fandom.get.ts:14 | word characters and whitespace, with runs replaced by word characters, give only word characters |
| JsString.ReplaceOneRun | server/api/fandom.get.ts:14 | a maximal whitespace run after a run-free prefix becomes exactly one replacement |
| JsString.ReplaceLeadingRun | server/api/fandom.get.ts:14 | a leading whitespace run becomes exactly one replacement |
| JsString.TrimStartOfWhitespacePrefix | server/api/fandom.get.ts:14 | a whitespace prefix before a non-whitespace character is consumed whole |
| JsString.ReplaceRunsWithEmptyRemovesWhitespace | server/api/fandom.get.ts:15 | `replace(/\s+/g, '')` removes every whitespace character and keeps all others in order |
| JsString.RemoveWhitespaceConcat | server/api/fandom.get.ts:15 | whitespace removal distributes over concatenation |
| JsString.RemoveWhitespaceOfWhitespace | server/api/fandom.get.ts:15 | removing whitespace from all-whitespace text leaves nothing |
| UseAnimeIdentify.Identify | composables/useAnimeIdentify.ts:5-42 | success iff the endpoint answered with `success: true`, which is then returned unchanged; otherwise no matches, the request echoed, five empty element lists, time 0, and the error is the response's error or "Identification failed", the thrown Error's message, or "Failed to identify anime scene" |
| UseAnimeIdentify.ValidateDescription | composables/useAnimeIdentify.ts:44-58 | valid iff the trimmed length is between 5 and 1000 code units, and a message is given exactly when invalid |
| UseAnimeIdentify.ValidateBlank | composables/useAnimeIdentify.ts:45-47 | the blank-description message appears iff the description is all whitespace |
| UseAnimeIdentify.ValidateTooShort | composables/useAnimeIdentify.ts:49-51 | the too-short message appears iff the trimmed text has 1 to 4 code units |
| UseAnimeIdentify.ValidateTooLong | composables/useAnimeIdentify.ts:53-55 | the too-long message appears iff the trimmed text has more than 1000 code units |
| UseAnimeIdentify.ValidateSeesTrimmedText | composables/useAnimeIdentify.ts:44-58 | validation gives the same verdict on the description and on its trimmed text |
| IdentifyEndpoint.NumberOrNull | server/api/identify.post.ts:186-188 | a logical-or with null keeps a number exactly when it is present and non-zero |
| IdentifyEndpoint.ReshapeMatches | server/api/identify.post.ts:177-202 | one scene match per AI match, in order, whose anime is the reshaped anime of that match, with confidence, reasoning and episode copied, and the defaults for description, genres, matched elements, studios and format |
| IdentifyEndpoint.Reshape | server/api/identify.post.ts:174-213 | reshaping succeeds iff the reply has a match list whose every match has a title (otherwise `match.title.english` throws); then the matches are exactly the reshaped AI matches, one per AI match, and the extracted elements are the AI's or, when missing, five empty lists |
| IdentifyEndpoint.ReshapeAnime | server/api/identify.post.ts:178-197 | the anime keeps the AI's title record, has a drawn id, score and popularity, the description or "No description available", the format or "TV", episodes and year kept only when non-zero, the genres or none, no tags, the studio as its one studio when non-empty and none otherwise, status FINISHED and source MANGA, and a site URL and both covers carrying the encoded title |
| IdentifyEndpoint.MentionsBoji | server/api/identify.post.ts:219 | when the test holds, the lower-cased description has "boji" or "prince" as an infix |
| IdentifyEndpoint.Fallback | server/api/identify.post.ts:215-295 | exactly one match: when the lower-cased description contains "boji" or "prince", the Ousama Ranking match (id 154587, confidence 0.85) with its listed extracted elements; otherwise the unknown anime match (id 0, confidence 0.1) with five empty element lists |
| IdentifyEndpoint.FallbackIgnoresCase | server/api/identify.post.ts:219 | any spelling of "boji" or "prince" that lower-cases to the keyword, anywhere in the description, selects Ousama Ranking |
| IdentifyEndpoint.IdentifyWithAI | server/api/identify.post.ts:77-296 | when the AI call succeeds and its reply reshapes, the result is that reshaping: the reshaped matches and the AI's elements or five empty lists; when the call or the reshaping throws, the result is exactly the keyword fallback for the description |
| IdentifyEndpoint.CheckRequest | server/api/identify.post.ts:12-38 | the request is accepted iff the body was read, its trimmed description has at least 5 code units and an API key is configured, and then the description is the trimmed text |
| IdentifyEndpoint.ThrownMessage | server/api/identify.post.ts:72 | an `Error` reports its message; anything else thrown reports "Failed to identify anime" |
| IdentifyEndpoint.Handle | server/api/identify.post.ts:5-75 | success iff the request is accepted; the measured time is reported; a success echoes the trimmed description with no error and carries exactly the matches and elements of the AI step on it, one fallback match when the AI fails; a failure has no matches, an empty echo and empty elements, and its error is "Description is required" for a missing or blank description, the length message for a short one, "AI service not configured" without a key, and the thrown message when reading the body throws |
| IdentifyEndpoint.ShortDescriptionNeverReachesAi | server/api/identify.post.ts:15-29 | a missing or short description fails whatever the key and the AI, with "Description is required" for a blank one and the length message otherwise |
| IdentifyEndpoint.MissingKeyNeverReachesAi | server/api/identify.post.ts:35-38 | without a key the handler fails with "AI service not configured" whatever the AI would have said |
| IdentifyEndpoint.AiFailureStillSucceeds | server/api/identify.post.ts:41-53 | when the AI call fails, a valid request still succeeds, echoing the trimmed description, with exactly the keyword fallback's one match and its extracted elements |
| IdentifyEndpoint.AiMatchesPassedThrough | server/api/identify.post.ts:41-53 | a well-formed AI reply reaches the response as its reshaped matches and elements |
| StreamingLinks.BuildProviderTable | server/api/streaming.get.ts:14-162 | the ten pushes build exactly the provider table for the encoded title |
| StreamingLinks.ProviderTable | server/api/streaming.get.ts:14-162 | the table has one link per provider, ten in all |
| StreamingLinks.TitleOnlyChangesUrls | server/api/streaming.get.ts:28-162 | the title changes only the URLs: each position has the same provider, regions and qualities whatever the title |
| StreamingLinks.Ids | server/api/streaming.get.ts:172 | the provider ids of the links, one per link, in order |
| StreamingLinks.ProviderTableOrder | server/api/streaming.get.ts:31-162 | the table lists crunchyroll, netflix, prime-video, disney-plus, hulu, funimation, hidive, youtube, apple-tv and vudu, in that order |
| StreamingLinks.RentalProvidersArePriced | server/api/streaming.get.ts:123-162 | the rental providers are exactly youtube, apple-tv and vudu, exactly they carry a price, and it is $4.99 for Apple TV and $3.99 for the others, in USD |
| StreamingLinks.EveryLinkCarriesTitle | server/api/streaming.get.ts:28-159 | every provider's URL contains the encoded title |
| StreamingLinks.FilterByProvider | server/api/streaming.get.ts:171-173 | filtering never lengthens the list |
| StreamingLinks.FilterByProviderMembers | server/api/streaming.get.ts:176-178 | a link survives the filter iff it was in the list and its provider id is among the wanted ids |
| StreamingLinks.SelectOnlyPicks | server/api/streaming.get.ts:182 | every returned link comes from the table |
| StreamingLinks.SelectLinks | server/api/streaming.get.ts:170-182 | every table link whose provider is a popular or a rental service is returned |
| StreamingLinks.ServiceLists | server/api/streaming.get.ts:170-177 | of the table's providers, positions 0, 1, 2 and 5 are the popular services and 7 and 8 the rental options |
| StreamingLinks.FilterFrom | server/api/streaming.get.ts:171-173 | filtering a table suffix keeps exactly the wanted positions, in order |
| StreamingLinks.PopularFromTable | server/api/streaming.get.ts:170-173 | the popular filter gives crunchyroll, netflix, prime-video and funimation, in table order |
| StreamingLinks.AdditionalFromTable | server/api/streaming.get.ts:176-178 | the additional filter gives youtube then apple-tv |
| StreamingLinks.SelectionFromTable | server/api/streaming.get.ts:170-182 | the answer is those six links: the popular ones, then the rental ones |
| StreamingLinks.SelectedIds | server/api/streaming.get.ts:170-182 | the selected positions carry the ids crunchyroll, netflix, prime-video, funimation, youtube and apple-tv, in that order |
| StreamingLinks.SelectedCarryTitle | server/api/streaming.get.ts:180-182 | every returned link's URL contains the encoded title |
| StreamingLinks.GetStreamingLinks | server/api/streaming.get.ts:1-185 | a missing or empty title is the 400 error; otherwise success, the six selected links with their ids, each URL carrying the encoded title, ten providers counted and the note |
| FandomImage.SearchTitle | server/api/fandom.get.ts:14 | the search title consists of word characters only |
| FandomImage.WikiName | server/api/fandom.get.ts:15 | the wiki name is lower-case word characters with no whitespace, as long as the search title, and the whitespace removal changes nothing |
| FandomImage.SearchTitleIdempotent | server/api/fandom.get.ts:14 | sanitising a sanitised title changes nothing |
| FandomImage.SearchTitleJoinsWords | server/api/fandom.get.ts:14 | between words, each whitespace run becomes one underscore |
| FandomImage.Candidates | server/api/fandom.get.ts:18-23 | four candidates in order: the wiki name, the wiki name followed by "wiki", the wiki name followed by "anime", and "anime" |
| FandomImage.MainPageUrl | server/api/fandom.get.ts:28 | the main-page image query is sent to the wiki's own API endpoint |
| FandomImage.WikiSearchUrl | server/api/fandom.get.ts:54 | the wiki's search is sent to its API endpoint and carries the encoded title |
| FandomImage.PageInfoUrl | server/api/fandom.get.ts:69 | the page image query is sent to the wiki's API endpoint and carries the encoded page title |
| FandomImage.GenericSearchUrl | server/api/fandom.get.ts:103 | the generic search is sent to the anime wiki's API endpoint and carries the encoded title |
| FandomImage.SpecialSearchUrl | server/api/fandom.get.ts:138 | the final search URL is an anime wiki page and carries the encoded title |
| FandomImage.Thumbnail | server/api/fandom.get.ts:38-42 | a thumbnail is reported iff the reply holds pages and the first page has a non-empty thumbnail source, and then it is that source |
| FandomImage.ArticleUrl | server/api/fandom.get.ts:88 | the article URL is on the wiki's host under `/wiki/` and contains the encoded page title whose whitespace runs became underscores, which has no whitespace left |
| FandomImage.ProbePage | server/api/fandom.get.ts:68-91 | a hit from the first suggestion is a success from "fandom" on that wiki with a non-empty image, that page's title and its article URL |
| FandomImage.ProbeSearch | server/api/fandom.get.ts:53-93 | a hit from a wiki's search is a success naming that wiki with a non-empty image |
| FandomImage.ProbeWiki | server/api/fandom.get.ts:26-98 | a hit from a candidate wiki is a success from "fandom" naming that wiki, with a non-empty image |
| FandomImage.AfterProbes | server/api/fandom.get.ts:101-139 | after the probes the answer is a success from "fandom" on anime.fandom.com without an image; with a page title its URL is that page's article, without one the Special:Search URL |
| FandomImage.SearchFallback | server/api/fandom.get.ts:132-139 | the last resort is a success on anime.fandom.com with no image and no page title, and a URL containing the encoded title |
| FandomImage.ProbePageCases | server/api/fandom.get.ts:68-91 | a thrown fetch or a non-JSON ok body throws; an ok reply whose first page has a thumbnail is exactly the hit with that image, the page title and its article URL; anything else misses |
| FandomImage.ProbeSearchCases | server/api/fandom.get.ts:53-93 | a thrown fetch or a non-JSON ok body throws; an ok reply with suggestions is exactly the probe of the first suggestion's page; anything else misses |
| FandomImage.ProbeWikiCases | server/api/fandom.get.ts:26-53 | a thrown fetch or a non-JSON ok body throws; an ok main page with a thumbnail is exactly the hit with that image and no page; any other reply goes on to the wiki's search |
| FandomImage.AfterProbesCases | server/api/fandom.get.ts:101-139 | an ok generic search with suggestions answers with the first suggestion and its article on the anime wiki; anything else, a thrown fetch included, gives the Special:Search fallback |
| FandomImage.Probes | server/api/fandom.get.ts:25-99 | one probe per candidate wiki, in order |
| FandomImage.FirstHitUnique | server/api/fandom.get.ts:25-99 | only one probe can be the first hit, with one result |
| FandomImage.AnswerUnique | server/api/fandom.get.ts:25-139 | the probes and what follows them determine a single answer |
| FandomImage.HitAnswers | server/api/fandom.get.ts:25-49 | a hit after only misses and throws is the answer, whatever comes later |
| FandomImage.FirstMainPageThumbnailWins | server/api/fandom.get.ts:25-49 | when the first candidate's main page has a thumbnail, that image is the answer, whatever the other wikis reply |
| FandomImage.FetchFandomImage | server/api/fandom.get.ts:1-139 | a missing or empty title is the 400 error; otherwise the answer is a success and is the one the probes of the four candidates determine: the first hit, with every earlier candidate missing or throwing, or, when none hits, the generic search or its fallback |

## Left out

- `encodeURIComponent` is a total parameter, so the model leaves out the `URIError` it throws on lone surrogates. This is also why the outer `catch` blocks of the fandom and streaming handlers cannot be reached in the model.
- `toLowerCase` covers ASCII letters plus U+0130 and U+212A, the only non-ASCII characters whose lower case contains an ASCII letter. This is exact for the "boji"/"prince" test and for word characters; other Unicode case mappings are not modelled.
- Strings are sequences of Unicode scalar values, so lone surrogates cannot be written.
- The AI reply is assumed to have the JSON types the prompt asks for. A non-array `matches`, or fields of the wrong type, are not modelled. A missing match list or a match without a title is modelled, and it leads to the fallback, as in the source.
- The prompt text, the `additionalInfo` field, the OpenAI client (`server/utils/aiClient.ts` is not part of this model) and the `No response from AI` check are folded into the single `AiOutcome` input.
- `Math.random` ids, scores and popularity are the marker `RandomDraw`, and `Date.now` differences are the input `elapsed`.
- All logging is left out.
- A request body that is absent or not an object is not modelled, and neither is a `title` query parameter given more than once (an array).
- A `description` that is present but not a string is not modelled: `RequestBody` holds an optional string. In the source, `description?.trim()` then throws a `TypeError` (server/api/identify.post.ts:15), and the response reports its message. The nearest modelled case is `BodyThrew` with an `Error`.
- The inner `catch` of the streaming handler is left out: its body filters an already-built list and cannot throw. So is the unused `searchTitle` of the streaming handler.
- `server/api/identify.podt.ts`, an outdated copy of the endpoint, is not part of this model, and neither are the type files, `useTheme`, `useDebounce` or the Nuxt configuration.
- `createError({ statusMessage })` is modelled as an `Error` whose `message` is the status message, which is what the identify handler's `catch` reports.
- The `User-Agent` header sent with each Fandom request is left out.
