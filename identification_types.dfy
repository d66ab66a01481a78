/**
  The records exchanged between the browser composable and the identify
  endpoint: the identification response with its query echo and the five
  lists of scene elements, and the scene matches it carries.
*/
module IdentificationTypes {
  import opened Wrappers

  /** The five categories of scene elements reported with every response. */
  datatype SceneElements = SceneElements(
    characters: seq<string>,
    setting: seq<string>,
    actions: seq<string>,
    emotions: seq<string>,
    visualStyle: seq<string>)

  const NoElements := SceneElements([], [], [], [], [])

  /** A number the endpoint draws with `Math.random`, or a literal one. */
  datatype Drawn = RandomDraw | Literal(value: int)

  datatype Title = Title(romaji: string, english: Option<string>, native: Option<string>)

  /** The anime record attached to a match (the fields the endpoint fills in). */
  datatype Anime = Anime(
    id: Drawn,
    title: Title,
    description: string,
    coverLarge: string,
    coverMedium: string,
    episodes: Option<int>,
    status: string,
    seasonYear: Option<int>,
    genres: seq<string>,
    tags: seq<string>,
    studios: seq<string>,
    averageScore: Option<Drawn>,
    popularity: Option<Drawn>,
    format: string,
    source: string,
    siteUrl: string)

  datatype SceneMatch = SceneMatch(
    anime: Anime,
    confidence: real,
    reasoning: string,
    matchedElements: seq<string>,
    episode: Option<int>)

  datatype Query = Query(processedDescription: string, extractedElements: SceneElements)

  datatype IdentificationResponse = IdentificationResponse(
    success: bool,
    matches: seq<SceneMatch>,
    query: Query,
    searchTime: int,
    error: Option<string>)

  /** A thrown JavaScript value: an `Error` with its message, or anything else. */
  datatype Thrown = ErrorThrown(message: string) | NonErrorThrown

  /** The fixed shape of every failure response: no matches, five empty
      element lists, and the given echo, time and error message. */
  function FailureResponse(processed: string, searchTime: int, message: string): IdentificationResponse
  {
    IdentificationResponse(false, [], Query(processed, NoElements), searchTime, Some(message))
  }
}
