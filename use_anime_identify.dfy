/**
  The browser-side composable: the description validator shown before a
  request is sent, and `identify`, which turns the outcome of the POST to
  `/api/identify` into the response the page displays.
*/
module UseAnimeIdentify {
  import opened Wrappers
  import opened JsString
  import opened IdentificationTypes

  datatype IdentificationRequest = IdentificationRequest(description: string)

  /** What the POST to `/api/identify` produced: a response body, or a thrown value. */
  datatype FetchOutcome = Responded(response: IdentificationResponse) | FetchThrew(thrown: Thrown)

  const IdentificationFailed := "Identification failed"
  const FailedToIdentifyScene := "Failed to identify anime scene"

  /** `identify`: a successful response is passed through unchanged; a
      response with `success: false` or any thrown value becomes a failure
      record that echoes the untrimmed description and reports no time. */
  function Identify(request: IdentificationRequest, outcome: FetchOutcome): (r: IdentificationResponse)
    ensures r.success <==> outcome.Responded? && outcome.response.success
    ensures r.success ==> r == outcome.response
    ensures !r.success ==>
      && r.matches == []
      && r.query == Query(request.description, NoElements)
      && r.searchTime == 0
      && r.error.Some?
    ensures outcome.Responded? && !outcome.response.success ==>
      r.error == Some(StringOr(outcome.response.error, IdentificationFailed))
    ensures outcome.FetchThrew? && outcome.thrown.ErrorThrown? ==>
      r.error == Some(outcome.thrown.message)
    ensures outcome == FetchThrew(NonErrorThrown) ==> r.error == Some(FailedToIdentifyScene)
  {
    match outcome
    case Responded(response) =>
      if response.success then response
      else
        // `throw new Error(response.error || 'Identification failed')`, caught below
        FailureResponse(request.description, 0, StringOr(response.error, IdentificationFailed))
    case FetchThrew(ErrorThrown(message)) => FailureResponse(request.description, 0, message)
    case FetchThrew(NonErrorThrown) => FailureResponse(request.description, 0, FailedToIdentifyScene)
  }

  // ---------------------------------------------------------------------
  // validateDescription

  datatype Validation = Validation(valid: bool, message: Option<string>)

  const MinLength := 5
  const MaxLength := 1000
  const EmptyMessage := "Please describe the anime scene"
  const TooShortMessage := "Please provide a more detailed description (at least 5 characters)"
  const TooLongMessage := "Description is too long (maximum 1000 characters)"

  /** `validateDescription`: the rules are checked on the trimmed text in a
      fixed order (blank, shorter than 5, longer than 1000) and the first
      one that fails gives the message. */
  function ValidateDescription(description: string): (r: Validation)
    ensures r.valid <==> MinLength <= Utf16Length(Trim(description)) <= MaxLength
    ensures r.valid <==> r.message == None
  {
    var trimmed := Trim(description);
    if trimmed == [] then Validation(false, Some(EmptyMessage))
    else if Utf16Length(trimmed) < MinLength then Validation(false, Some(TooShortMessage))
    else if Utf16Length(trimmed) > MaxLength then Validation(false, Some(TooLongMessage))
    else Validation(true, None)
  }

  /** Empty and whitespace-only descriptions, and only those, get the
      "describe the scene" message. */
  lemma ValidateBlank(description: string)
    ensures AllWhitespace(description)
        <==> ValidateDescription(description) == Validation(false, Some(EmptyMessage))
  {
    TrimEmptyIff(description);
  }

  /** A trimmed length of 1 to 4 code units, and only that, gets the
      "at least 5 characters" message. */
  lemma ValidateTooShort(description: string)
    ensures 1 <= Utf16Length(Trim(description)) < MinLength
        <==> ValidateDescription(description) == Validation(false, Some(TooShortMessage))
  {
  }

  /** A trimmed length above 1000 code units, and only that, gets the
      "maximum 1000 characters" message. */
  lemma ValidateTooLong(description: string)
    ensures Utf16Length(Trim(description)) > MaxLength
        <==> ValidateDescription(description) == Validation(false, Some(TooLongMessage))
  {
  }

  /** Validation sees only the trimmed text. */
  lemma ValidateSeesTrimmedText(description: string)
    ensures ValidateDescription(description) == ValidateDescription(Trim(description))
  {
    TrimIdempotent(description);
  }
}
