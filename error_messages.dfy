/** The rebranded user-facing error sentences and the helpers that pick one.
    Long sentences are written as short parts joined by single spaces; the text
    is the same. */
module ErrorMessages {
  import opened Text
  import opened Http

  const NetworkError := "Network error connecting to" + " " + "Maslow AI service"
  const ConnectionFailed := "Connection failed. Please" + " " + "check your network and try" + " " + "again."
  const ServiceUnavailable := "Maslow AI service is" + " " + "temporarily unavailable." + " " + "Please try again later."
  const RequestTimeout := "Request timed out. Please try" + " " + "again."
  const InvalidApiKey := "Invalid API key"
  const ApiConfigError := "API configuration error"
  const AuthFailed := "Authentication failed. Please" + " " + "verify your Maslow AI API key" + " " + "is valid and active."
  const AccessDenied := "Access denied. Your API key" + " " + "may not have permission to" + " " + "manage prompts."
  const ApiKeyMissing := "Maslow AI API key is missing" + " " + "or invalid. Please check your" + " " + "configuration."
  const FetchPromptsFailed := "Failed to fetch prompts from" + " " + "Maslow AI"
  const CreatePromptFailed := "Failed to create prompt"
  const UpdatePromptFailed := "Failed to update prompt"
  const PromptNotFound := "Prompt not found"
  const InvalidPromptData := "Invalid prompt data provided"
  const PromptNameRequired := "Prompt name is required"
  const NoValidFields := "No valid fields provided for" + " " + "update"
  const ValidationErrors := "Validation errors"
  const InternalServerError := "Internal server error"
  const InvalidJson := "Invalid JSON in request body"
  const EndpointNotFound := "Endpoint not found"
  const SyncInProgress := "Updating Maslow AI with latest" + " " + "changes..."
  const AuthServerError := "Failed to authenticate with" + " " + "Maslow AI servers. This may" + " " + "affect all prompt operations" + " " + "until resolved."

  /** The network and connectivity sentences of `ERROR_MESSAGES`. */
  const NetworkMessages := [NetworkError, ConnectionFailed, ServiceUnavailable, RequestTimeout]
  /** The authentication and authorization sentences of `ERROR_MESSAGES`. */
  const AuthMessages := [InvalidApiKey, ApiConfigError, AuthFailed, AccessDenied, ApiKeyMissing]
  /** The prompt-specific sentences of `ERROR_MESSAGES`. */
  const PromptMessages := [FetchPromptsFailed, CreatePromptFailed, UpdatePromptFailed, PromptNotFound, InvalidPromptData]
  /** The validation sentences of `ERROR_MESSAGES`. */
  const ValidationMessages := [PromptNameRequired, NoValidFields, ValidationErrors]
  /** The generic server sentences of `ERROR_MESSAGES`. */
  const ServerMessages := [InternalServerError, InvalidJson, EndpointNotFound]
  /** The interface sentences of `ERROR_MESSAGES`. */
  const InterfaceMessages := [SyncInProgress, AuthServerError]

  /** `ERROR_MESSAGES`, in declaration order. */
  const AllErrorMessages :=
    NetworkMessages + AuthMessages + PromptMessages + ValidationMessages + ServerMessages + InterfaceMessages

  const InvalidRequestData := "Invalid request data. Please" + " " + "check your input and try" + " " + "again."
  const TooManyRequests := "Too many requests. Please wait" + " " + "a moment before trying again."
  const ServerErrorOccurred := "Server error occurred. Please" + " " + "try again in a few minutes."

  /** `STATUS_ERROR_MAP` */
  const StatusErrorMap: map<int, string> := map[
    400 := InvalidRequestData,
    401 := AuthFailed,
    403 := AccessDenied,
    404 := PromptNotFound,
    429 := TooManyRequests,
    500 := ServerErrorOccurred,
    502 := ServiceUnavailable,
    503 := ServiceUnavailable,
    504 := RequestTimeout]

  /** The case-insensitive test of the rebranding audit. */
  predicate MentionsHeyGen(text: string) {
    Contains(Lower(text), "heygen")
  }

  lemma FreeByLetter(text: string, c: char)
    requires c in "heygen" && 'a' <= c <= 'z' && c !in text && UpperChar(c) !in text
    ensures !MentionsHeyGen(text)
  {
    NotContainsIgnoringCase(text, "heygen", c);
  }

  lemma FreeBySpace(p: string, q: string)
    requires !MentionsHeyGen(p) && !MentionsHeyGen(q)
    ensures !MentionsHeyGen(p + " " + q)
  {
    LowerAppend(p + " ", q);
    LowerAppend(p, " ");
    assert Lower(" ") == [' '];
    if MentionsHeyGen(p + " " + q) {
      ContainsAcrossSeparator(Lower(p), ' ', Lower(q), "heygen");
    }
  }

  /** `Server error (${status}). Please try again or contact support.` */
  function StatusFallback(status: int): string {
    "Server error (" + IntToString(status) + "). Please try again" + " or contact support."
  }

  /** `getErrorMessageForStatus`: the mapped sentence, or the numbered fallback for
      any status the map lacks; never empty. */
  function GetErrorMessageForStatus(status: int): (r: string)
    ensures status in StatusErrorMap ==> r == StatusErrorMap[status]
    ensures status !in StatusErrorMap ==> r == StatusFallback(status)
    ensures r != ""
  {
    if status in StatusErrorMap then
      StatusErrorMap[status]
    else
      StatusFallback(status)
  }

  /** Whatever the status, the sentence shown for it does not name the vendor. */
  lemma StatusMessageIsRebranded(status: int)
    ensures !MentionsHeyGen(GetErrorMessageForStatus(status))
  {
    if status in StatusErrorMap {
      NoStatusMessageMentionsHeyGen();
    } else {
      StatusFallbackIsRebranded(status);
    }
  }

  /** The numbered fallback lacks the letter `h` in both cases: the number is
      digits and a sign only. */
  lemma StatusFallbackIsRebranded(status: int)
    ensures !MentionsHeyGen(StatusFallback(status))
  {
    FallbackLacksH(status);
    FreeByLetter(StatusFallback(status), 'h');
  }

  lemma FallbackLacksH(status: int)
    ensures 'h' !in StatusFallback(status) && 'H' !in StatusFallback(status)
  {
    NumberLacksH(status);
    FallbackWordsLackH();
    assert StatusFallback(status) == "Server error (" + IntToString(status) + ("). Please try again" + " or contact support.");
  }

  lemma NumberLacksH(status: int)
    ensures 'h' !in IntToString(status) && 'H' !in IntToString(status)
  {
  }

  lemma FallbackWordsLackH()
    ensures 'h' !in "Server error (" && 'H' !in "Server error ("
    ensures 'h' !in "). Please try again" && 'H' !in "). Please try again"
    ensures 'h' !in " or contact support." && 'H' !in " or contact support."
  {
  }



  /** 502 and 503 share the service-unavailable sentence; 401 and 404 reuse the
      authentication and not-found sentences of `ERROR_MESSAGES`. */
  lemma StatusAliases()
    ensures GetErrorMessageForStatus(502) == GetErrorMessageForStatus(503) == ServiceUnavailable
    ensures GetErrorMessageForStatus(401) == AuthFailed
    ensures GetErrorMessageForStatus(404) == PromptNotFound
    ensures GetErrorMessageForStatus(504) == RequestTimeout
    ensures GetErrorMessageForStatus(403) == AccessDenied
  {
  }

  /* Each sentence is a run of space-separated parts, each lacking one letter of
     the vendor's name in both cases. */

  lemma NetworkErrorPart1()
    ensures !MentionsHeyGen("Network error connecting to")
  {
    FreeByLetter("Network error connecting to", 'h');
  }

  lemma NetworkErrorPart2()
    ensures !MentionsHeyGen("Maslow AI service")
  {
    FreeByLetter("Maslow AI service", 'h');
  }

  lemma NetworkErrorIsRebranded()
    ensures !MentionsHeyGen(NetworkError)
  {
    NetworkErrorPart1();
    NetworkErrorPart2();
    FreeBySpace("Network error connecting to", "Maslow AI service");
  }

  lemma ConnectionFailedPart1()
    ensures !MentionsHeyGen("Connection failed. Please")
  {
    FreeByLetter("Connection failed. Please", 'h');
  }

  lemma ConnectionFailedPart2()
    ensures !MentionsHeyGen("check your network and try")
  {
    FreeByLetter("check your network and try", 'g');
  }

  lemma ConnectionFailedPart3()
    ensures !MentionsHeyGen("again.")
  {
    FreeByLetter("again.", 'h');
  }

  lemma ConnectionFailedIsRebranded()
    ensures !MentionsHeyGen(ConnectionFailed)
  {
    ConnectionFailedPart1();
    ConnectionFailedPart2();
    ConnectionFailedPart3();
    FreeBySpace("Connection failed. Please", "check your network and try");
    FreeBySpace("Connection failed. Please" + " " + "check your network and try", "again.");
  }

  lemma ServiceUnavailablePart1()
    ensures !MentionsHeyGen("Maslow AI service is")
  {
    FreeByLetter("Maslow AI service is", 'h');
  }

  lemma ServiceUnavailablePart2()
    ensures !MentionsHeyGen("temporarily unavailable.")
  {
    FreeByLetter("temporarily unavailable.", 'h');
  }

  lemma ServiceUnavailablePart3()
    ensures !MentionsHeyGen("Please try again later.")
  {
    FreeByLetter("Please try again later.", 'h');
  }

  lemma ServiceUnavailableIsRebranded()
    ensures !MentionsHeyGen(ServiceUnavailable)
  {
    ServiceUnavailablePart1();
    ServiceUnavailablePart2();
    ServiceUnavailablePart3();
    FreeBySpace("Maslow AI service is", "temporarily unavailable.");
    FreeBySpace("Maslow AI service is" + " " + "temporarily unavailable.", "Please try again later.");
  }

  lemma RequestTimeoutPart1()
    ensures !MentionsHeyGen("Request timed out. Please try")
  {
    FreeByLetter("Request timed out. Please try", 'h');
  }

  lemma RequestTimeoutPart2()
    ensures !MentionsHeyGen("again.")
  {
    FreeByLetter("again.", 'h');
  }

  lemma RequestTimeoutIsRebranded()
    ensures !MentionsHeyGen(RequestTimeout)
  {
    RequestTimeoutPart1();
    RequestTimeoutPart2();
    FreeBySpace("Request timed out. Please try", "again.");
  }

  lemma InvalidApiKeyIsRebranded()
    ensures !MentionsHeyGen(InvalidApiKey)
  {
    FreeByLetter("Invalid API key", 'h');
  }

  lemma ApiConfigErrorIsRebranded()
    ensures !MentionsHeyGen(ApiConfigError)
  {
    FreeByLetter("API configuration error", 'h');
  }

  lemma AuthFailedPart1()
    ensures !MentionsHeyGen("Authentication failed. Please")
  {
    FreeByLetter("Authentication failed. Please", 'y');
  }

  lemma AuthFailedPart2()
    ensures !MentionsHeyGen("verify your Maslow AI API key")
  {
    FreeByLetter("verify your Maslow AI API key", 'h');
  }

  lemma AuthFailedPart3()
    ensures !MentionsHeyGen("is valid and active.")
  {
    FreeByLetter("is valid and active.", 'h');
  }

  lemma AuthFailedIsRebranded()
    ensures !MentionsHeyGen(AuthFailed)
  {
    AuthFailedPart1();
    AuthFailedPart2();
    AuthFailedPart3();
    FreeBySpace("Authentication failed. Please", "verify your Maslow AI API key");
    FreeBySpace("Authentication failed. Please" + " " + "verify your Maslow AI API key", "is valid and active.");
  }

  lemma AccessDeniedPart1()
    ensures !MentionsHeyGen("Access denied. Your API key")
  {
    FreeByLetter("Access denied. Your API key", 'h');
  }

  lemma AccessDeniedPart2()
    ensures !MentionsHeyGen("may not have permission to")
  {
    FreeByLetter("may not have permission to", 'g');
  }

  lemma AccessDeniedPart3()
    ensures !MentionsHeyGen("manage prompts.")
  {
    FreeByLetter("manage prompts.", 'h');
  }

  lemma AccessDeniedIsRebranded()
    ensures !MentionsHeyGen(AccessDenied)
  {
    AccessDeniedPart1();
    AccessDeniedPart2();
    AccessDeniedPart3();
    FreeBySpace("Access denied. Your API key", "may not have permission to");
    FreeBySpace("Access denied. Your API key" + " " + "may not have permission to", "manage prompts.");
  }

  lemma ApiKeyMissingPart1()
    ensures !MentionsHeyGen("Maslow AI API key is missing")
  {
    FreeByLetter("Maslow AI API key is missing", 'h');
  }

  lemma ApiKeyMissingPart2()
    ensures !MentionsHeyGen("or invalid. Please check your")
  {
    FreeByLetter("or invalid. Please check your", 'g');
  }

  lemma ApiKeyMissingPart3()
    ensures !MentionsHeyGen("configuration.")
  {
    FreeByLetter("configuration.", 'h');
  }

  lemma ApiKeyMissingIsRebranded()
    ensures !MentionsHeyGen(ApiKeyMissing)
  {
    ApiKeyMissingPart1();
    ApiKeyMissingPart2();
    ApiKeyMissingPart3();
    FreeBySpace("Maslow AI API key is missing", "or invalid. Please check your");
    FreeBySpace("Maslow AI API key is missing" + " " + "or invalid. Please check your", "configuration.");
  }

  lemma FetchPromptsFailedPart1()
    ensures !MentionsHeyGen("Failed to fetch prompts from")
  {
    FreeByLetter("Failed to fetch prompts from", 'y');
  }

  lemma FetchPromptsFailedPart2()
    ensures !MentionsHeyGen("Maslow AI")
  {
    FreeByLetter("Maslow AI", 'h');
  }

  lemma FetchPromptsFailedIsRebranded()
    ensures !MentionsHeyGen(FetchPromptsFailed)
  {
    FetchPromptsFailedPart1();
    FetchPromptsFailedPart2();
    FreeBySpace("Failed to fetch prompts from", "Maslow AI");
  }

  lemma CreatePromptFailedIsRebranded()
    ensures !MentionsHeyGen(CreatePromptFailed)
  {
    FreeByLetter("Failed to create prompt", 'h');
  }

  lemma UpdatePromptFailedIsRebranded()
    ensures !MentionsHeyGen(UpdatePromptFailed)
  {
    FreeByLetter("Failed to update prompt", 'h');
  }

  lemma PromptNotFoundIsRebranded()
    ensures !MentionsHeyGen(PromptNotFound)
  {
    FreeByLetter("Prompt not found", 'h');
  }

  lemma InvalidPromptDataIsRebranded()
    ensures !MentionsHeyGen(InvalidPromptData)
  {
    FreeByLetter("Invalid prompt data provided", 'h');
  }

  lemma PromptNameRequiredIsRebranded()
    ensures !MentionsHeyGen(PromptNameRequired)
  {
    FreeByLetter("Prompt name is required", 'h');
  }

  lemma NoValidFieldsPart1()
    ensures !MentionsHeyGen("No valid fields provided for")
  {
    FreeByLetter("No valid fields provided for", 'h');
  }

  lemma NoValidFieldsPart2()
    ensures !MentionsHeyGen("update")
  {
    FreeByLetter("update", 'h');
  }

  lemma NoValidFieldsIsRebranded()
    ensures !MentionsHeyGen(NoValidFields)
  {
    NoValidFieldsPart1();
    NoValidFieldsPart2();
    FreeBySpace("No valid fields provided for", "update");
  }

  lemma ValidationErrorsIsRebranded()
    ensures !MentionsHeyGen(ValidationErrors)
  {
    FreeByLetter("Validation errors", 'h');
  }

  lemma InternalServerErrorIsRebranded()
    ensures !MentionsHeyGen(InternalServerError)
  {
    FreeByLetter("Internal server error", 'h');
  }

  lemma InvalidJsonIsRebranded()
    ensures !MentionsHeyGen(InvalidJson)
  {
    FreeByLetter("Invalid JSON in request body", 'h');
  }

  lemma EndpointNotFoundIsRebranded()
    ensures !MentionsHeyGen(EndpointNotFound)
  {
    FreeByLetter("Endpoint not found", 'h');
  }

  lemma SyncInProgressPart1()
    ensures !MentionsHeyGen("Updating Maslow AI with latest")
  {
    FreeByLetter("Updating Maslow AI with latest", 'y');
  }

  lemma SyncInProgressPart2()
    ensures !MentionsHeyGen("changes...")
  {
    FreeByLetter("changes...", 'y');
  }

  lemma SyncInProgressIsRebranded()
    ensures !MentionsHeyGen(SyncInProgress)
  {
    SyncInProgressPart1();
    SyncInProgressPart2();
    FreeBySpace("Updating Maslow AI with latest", "changes...");
  }

  lemma AuthServerErrorPart1()
    ensures !MentionsHeyGen("Failed to authenticate with")
  {
    FreeByLetter("Failed to authenticate with", 'y');
  }

  lemma AuthServerErrorPart2()
    ensures !MentionsHeyGen("Maslow AI servers. This may")
  {
    FreeByLetter("Maslow AI servers. This may", 'g');
  }

  lemma AuthServerErrorPart3()
    ensures !MentionsHeyGen("affect all prompt operations")
  {
    FreeByLetter("affect all prompt operations", 'h');
  }

  lemma AuthServerErrorPart4()
    ensures !MentionsHeyGen("until resolved.")
  {
    FreeByLetter("until resolved.", 'h');
  }

  lemma AuthServerErrorIsRebranded()
    ensures !MentionsHeyGen(AuthServerError)
  {
    AuthServerErrorPart1();
    AuthServerErrorPart2();
    AuthServerErrorPart3();
    AuthServerErrorPart4();
    FreeBySpace("Failed to authenticate with", "Maslow AI servers. This may");
    FreeBySpace("Failed to authenticate with" + " " + "Maslow AI servers. This may", "affect all prompt operations");
    FreeBySpace("Failed to authenticate with" + " " + "Maslow AI servers. This may" + " " + "affect all prompt operations", "until resolved.");
  }

  lemma InvalidRequestDataPart1()
    ensures !MentionsHeyGen("Invalid request data. Please")
  {
    FreeByLetter("Invalid request data. Please", 'h');
  }

  lemma InvalidRequestDataPart2()
    ensures !MentionsHeyGen("check your input and try")
  {
    FreeByLetter("check your input and try", 'g');
  }

  lemma InvalidRequestDataPart3()
    ensures !MentionsHeyGen("again.")
  {
    FreeByLetter("again.", 'h');
  }

  lemma InvalidRequestDataIsRebranded()
    ensures !MentionsHeyGen(InvalidRequestData)
  {
    InvalidRequestDataPart1();
    InvalidRequestDataPart2();
    InvalidRequestDataPart3();
    FreeBySpace("Invalid request data. Please", "check your input and try");
    FreeBySpace("Invalid request data. Please" + " " + "check your input and try", "again.");
  }

  lemma TooManyRequestsPart1()
    ensures !MentionsHeyGen("Too many requests. Please wait")
  {
    FreeByLetter("Too many requests. Please wait", 'h');
  }

  lemma TooManyRequestsPart2()
    ensures !MentionsHeyGen("a moment before trying again.")
  {
    FreeByLetter("a moment before trying again.", 'h');
  }

  lemma TooManyRequestsIsRebranded()
    ensures !MentionsHeyGen(TooManyRequests)
  {
    TooManyRequestsPart1();
    TooManyRequestsPart2();
    FreeBySpace("Too many requests. Please wait", "a moment before trying again.");
  }

  lemma ServerErrorOccurredPart1()
    ensures !MentionsHeyGen("Server error occurred. Please")
  {
    FreeByLetter("Server error occurred. Please", 'h');
  }

  lemma ServerErrorOccurredPart2()
    ensures !MentionsHeyGen("try again in a few minutes.")
  {
    FreeByLetter("try again in a few minutes.", 'h');
  }

  lemma ServerErrorOccurredIsRebranded()
    ensures !MentionsHeyGen(ServerErrorOccurred)
  {
    ServerErrorOccurredPart1();
    ServerErrorOccurredPart2();
    FreeBySpace("Server error occurred. Please", "try again in a few minutes.");
  }


  /** The case-insensitive test applied to every sentence of a list. */
  predicate NoneMentionsHeyGen(texts: seq<string>) {
    forall t :: t in texts ==> !MentionsHeyGen(t)
  }

  lemma NetworkMessagesAreRebranded()
    ensures NoneMentionsHeyGen(NetworkMessages)
  {
    NetworkErrorIsRebranded();
    ConnectionFailedIsRebranded();
    ServiceUnavailableIsRebranded();
    RequestTimeoutIsRebranded();
  }

  lemma AuthMessagesAreRebranded()
    ensures NoneMentionsHeyGen(AuthMessages)
  {
    InvalidApiKeyIsRebranded();
    ApiConfigErrorIsRebranded();
    AuthFailedIsRebranded();
    AccessDeniedIsRebranded();
    ApiKeyMissingIsRebranded();
  }

  lemma PromptMessagesAreRebranded()
    ensures NoneMentionsHeyGen(PromptMessages)
  {
    FetchPromptsFailedIsRebranded();
    CreatePromptFailedIsRebranded();
    UpdatePromptFailedIsRebranded();
    PromptNotFoundIsRebranded();
    InvalidPromptDataIsRebranded();
  }

  lemma ValidationMessagesAreRebranded()
    ensures NoneMentionsHeyGen(ValidationMessages)
  {
    PromptNameRequiredIsRebranded();
    NoValidFieldsIsRebranded();
    ValidationErrorsIsRebranded();
  }

  lemma ServerMessagesAreRebranded()
    ensures NoneMentionsHeyGen(ServerMessages)
  {
    InternalServerErrorIsRebranded();
    InvalidJsonIsRebranded();
    EndpointNotFoundIsRebranded();
  }

  lemma InterfaceMessagesAreRebranded()
    ensures NoneMentionsHeyGen(InterfaceMessages)
  {
    SyncInProgressIsRebranded();
    AuthServerErrorIsRebranded();
  }

  /** No `ERROR_MESSAGES` sentence mentions the former vendor, in any letter
      case. */
  lemma NoMessageMentionsHeyGen()
    ensures NoneMentionsHeyGen(AllErrorMessages)
  {
    NetworkMessagesAreRebranded();
    AuthMessagesAreRebranded();
    PromptMessagesAreRebranded();
    ValidationMessagesAreRebranded();
    ServerMessagesAreRebranded();
    InterfaceMessagesAreRebranded();
  }

  /** No `STATUS_ERROR_MAP` sentence mentions the former vendor either. */
  lemma NoStatusMessageMentionsHeyGen()
    ensures forall s :: s in StatusErrorMap ==> !MentionsHeyGen(StatusErrorMap[s])
  {
    InvalidRequestDataIsRebranded();
    AuthFailedIsRebranded();
    AccessDeniedIsRebranded();
    PromptNotFoundIsRebranded();
    TooManyRequestsIsRebranded();
    ServerErrorOccurredIsRebranded();
    ServiceUnavailableIsRebranded();
    RequestTimeoutIsRebranded();
  }

  /** `isNetworkError`: a `TypeError` whose message names `fetch` and also
      `network` or `connection`, all case-sensitively. */
  predicate IsNetworkError(error: Thrown): (r: bool)
    ensures r ==> IsFetchFailure(error)
    ensures r ==> Contains(error.message, "network") || Contains(error.message, "connection")
  {
    && error.ThrownError? && error.kind == TypeErrorKind
    && Contains(error.message, "fetch")
    && (Contains(error.message, "network") || Contains(error.message, "connection"))
  }

  const NetworkErrorAdvice := "Network error. Please check your internet connection and try again."
  const ConnectionBlocked := "Connection blocked. Please refresh the page and try again."

  /** `getNetworkErrorMessage`: the lower-cased message is searched for `network`
      first, then `cors`; anything else gets the connection-failed sentence. */
  function GetNetworkErrorMessage(message: string): (r: string)
    ensures r == NetworkErrorAdvice || r == ConnectionBlocked || r == ConnectionFailed
    ensures Contains(Lower(message), "network") ==> r == NetworkErrorAdvice
    ensures !Contains(Lower(message), "network") && Contains(Lower(message), "cors") ==> r == ConnectionBlocked
    ensures !Contains(Lower(message), "network") && !Contains(Lower(message), "cors") ==> r == ConnectionFailed
  {
    var lowered := Lower(message);
    if Contains(lowered, "network") then NetworkErrorAdvice
    else if Contains(lowered, "cors") then ConnectionBlocked
    else ConnectionFailed
  }

  /** The two helpers agree: a network error that says `network` gets the
      network advice, and so does any message saying it in capitals, even one
      that also says `CORS`. */
  lemma NetworkWordWins(error: Thrown, shouted: string)
    requires IsNetworkError(error) && Contains(error.message, "network")
    requires Contains(shouted, "NETWORK")
    ensures GetNetworkErrorMessage(error.message) == NetworkErrorAdvice
    ensures GetNetworkErrorMessage(shouted) == NetworkErrorAdvice
  {
    ContainsFolded(error.message, "network", "network");
    ContainsFolded(shouted, "NETWORK", "network");
  }

  /** Only `cors` in some letter case, without `network`, gives the blocked
      sentence. */
  lemma CorsWithoutNetworkIsBlocked(message: string)
    requires Contains(message, "CORS") && !Contains(Lower(message), "network")
    ensures GetNetworkErrorMessage(message) == ConnectionBlocked
  {
    ContainsFolded(message, "CORS", "cors");
  }
}
