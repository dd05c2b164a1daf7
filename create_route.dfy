/** `POST /api/prompts/create`: validates the request, creates the knowledge
    base at the vendor, then lists the vendor's entries to find the one just
    created (the vendor's create reply carries no id). The server's API key,
    the decoded request and both vendor replies are inputs. */
module CreateRoute {
  import opened Wrappers
  import opened Text
  import opened Http
  import opened PromptTypes
  import opened PromptUtils
  import opened ErrorMessages
  import opened ListRoute

  /** The decoded request body; a key that is missing or `undefined` is `None`. */
  datatype CreateBody = CreateBody(
    name: Option<string>,
    openingLine: Option<string>,
    customPrompt: Option<string>)

  const CreatedWithoutDetails := "Prompt created successfully, but unable to retrieve details"
  const ValidationPrefix := "Validation errors: "

  /** `knowledgeBases.filter(kb => kb.name === name).pop()`: the last entry with
      exactly that name. */
  function LastNamed(kbs: seq<KnowledgeBase>, name: string): (r: Option<nat>)
    ensures r.None? <==> forall i :: 0 <= i < |kbs| ==> kbs[i].name != Some(name)
    ensures r.Some? ==> r.value < |kbs| && kbs[r.value].name == Some(name)
    ensures r.Some? ==> forall i :: r.value < i < |kbs| ==> kbs[i].name != Some(name)
  {
    if kbs == [] then None
    else if kbs[|kbs| - 1].name == Some(name) then Some(|kbs| - 1)
    else LastNamed(kbs[..|kbs| - 1], name)
  }

  /** The `catch` block: a `TypeError` mentioning `fetch` gives the network
      sentence with 503, any `SyntaxError` (of the request or of the vendor's
      list) gives 400, anything else a generic 500. */
  function Caught(e: Thrown): (r: HttpResponse)
    ensures IsFetchFailure(e) ==> r == CreateErrorResponse(NetworkError, 503)
    ensures !IsFetchFailure(e) && e.ThrownError? && e.kind == SyntaxErrorKind
      ==> r == CreateErrorResponse(InvalidJson, 400)
    ensures !IsFetchFailure(e) && !(e.ThrownError? && e.kind == SyntaxErrorKind)
      ==> r == CreateErrorResponse(InternalServerError, 500)
  {
    if IsFetchFailure(e) then CreateErrorResponse(NetworkError, 503)
    else if e.ThrownError? && e.kind == SyntaxErrorKind then CreateErrorResponse(InvalidJson, 400)
    else CreateErrorResponse(InternalServerError, 500)
  }

  /** A non-OK create status: 400 and 401 get their own sentences, any other
      status is passed through with the create-failed sentence. */
  function CreateFailure(status: int): (r: HttpResponse)
    ensures r.status == status && r.body.ErrorBody?
    ensures r.body.error == (if status == 400 then InvalidPromptData
      else if status == 401 then InvalidApiKey else CreatePromptFailed)
  {
    if status == 400 then CreateErrorResponse(InvalidPromptData, 400)
    else if status == 401 then CreateErrorResponse(InvalidApiKey, 401)
    else CreateErrorResponse(CreatePromptFailed, status)
  }

  /** The fields the validator and the create request see. */
  function Fields(body: CreateBody): PromptFields {
    PromptFields(body.name, body.openingLine, body.customPrompt)
  }

  /** The 201 reply that carries no prompt. */
  function CreatedMessage(): HttpResponse {
    CreateSuccessResponse(MessageBody(CreatedWithoutDetails), 201)
  }

  /** `POST(request)`. The create reply's body is never read. */
  function Post(apiKey: Option<string>, request: Json<CreateBody>,
                created: Reply<()>, listed: Reply<ListEnvelope>): (r: Handled)
    ensures !Truthy(apiKey) ==> r == Handled(CreateErrorResponse(ApiConfigError, 500), 0)
    ensures Truthy(apiKey) && request.Malformed? ==> r == Handled(CreateErrorResponse(InvalidJson, 400), 0)
    ensures Truthy(apiKey) && request.Parsed? && !Truthy(request.value.name)
      ==> r == Handled(CreateErrorResponse(PromptNameRequired, 400), 0)
    ensures r.vendorCalls <= 2
    ensures r.response.status == 201 ==> r.vendorCalls == 2
  {
    if !Truthy(apiKey) then Handled(CreateErrorResponse(ApiConfigError, 500), 0)
    else
      match request
      case Malformed(message) => Handled(Caught(SyntaxError(message)), 0)
      case Parsed(body) =>
        if !Truthy(body.name) then Handled(CreateErrorResponse(PromptNameRequired, 400), 0)
        else
          var errors := ValidatePromptData(Fields(body));
          if |errors| > 0 then
            Handled(CreateErrorResponse(ValidationPrefix + Join(errors, ", "), 400), 0)
          else
            match created
            case FetchThrew(e) => Handled(Caught(e), 1)
            case Answered(status, _) =>
              if !IsOk(status) then Handled(CreateFailure(status), 1)
              else Handled(AfterCreate(body.name.value, listed), 2)
  }

  /** The follow-up listing: a failed list still reports the creation, and the
      prompt returned is the last entry named like the request. */
  function AfterCreate(name: string, listed: Reply<ListEnvelope>): (r: HttpResponse)
    ensures listed.Answered? && !IsOk(listed.status) ==> r == CreatedMessage()
  {
    match listed
    case FetchThrew(e) => Caught(e)
    case Answered(status, body) =>
      if !IsOk(status) then CreatedMessage()
      else
        match body
        case Malformed(message) => Caught(SyntaxError(message))
        case Parsed(envelope) =>
          var kbs := Entries(envelope);
          match LastNamed(kbs, name)
          case None => CreatedMessage()
          case Some(i) =>
            match TransformKnowledgeBaseToPrompt(kbs[i])
            case Failure(e) => Caught(e)
            case Success(p) => CreateSuccessResponse(PromptBody(p), 201)
  }

  /** Validation comes before any vendor request: data the validator rejects
      gets a 400 listing every message, and nothing is created. */
  lemma RejectedDataIsNotSent(apiKey: Option<string>, body: CreateBody,
                              created: Reply<()>, listed: Reply<ListEnvelope>)
    requires Truthy(apiKey) && Truthy(body.name) && !ServerAccepts(Fields(body))
    ensures var r := Post(apiKey, Parsed(body), created, listed);
      && r.vendorCalls == 0 && r.response.status == 400
      && r.response.body == ErrorBody(ValidationPrefix + Join(ValidatePromptData(Fields(body)), ", "))
  {
    ValidatePromptDataEmptyIff(Fields(body));
  }

  /** Once created and listed, the reply is decided by the last entry with the
      requested name: none gives the 201 without a prompt; one without an id
      gives a generic 500 (the transform throws); otherwise a 201 carrying that
      entry's id, the requested name and the entry's description, opening line
      and custom prompt. Either way both vendor requests were made. */
  lemma CreatedPromptIsLastMatch(apiKey: Option<string>, body: CreateBody, status: int, createdBody: Json<()>,
                                 listStatus: int, envelope: ListEnvelope)
    requires Truthy(apiKey) && Truthy(body.name) && ServerAccepts(Fields(body))
    requires IsOk(status) && IsOk(listStatus)
    ensures var r := Post(apiKey, Parsed(body), Answered(status, createdBody), Answered(listStatus, Parsed(envelope)));
      var kbs := Entries(envelope);
      var found := LastNamed(kbs, body.name.value);
      && r.vendorCalls == 2
      && ((forall i :: 0 <= i < |kbs| ==> kbs[i].name != body.name) ==> r.response == CreatedMessage())
      && (found.Some? && !Truthy(kbs[found.value].id) ==>
          r.response == CreateErrorResponse(InternalServerError, 500))
      && (found.Some? && Truthy(kbs[found.value].id) ==>
          var kb := kbs[found.value];
          r.response == CreateSuccessResponse(
            PromptBody(Prompt(kb.id.value, body.name.value, kb.description, kb.opening, kb.prompt)), 201))
  {
    ValidatePromptDataEmptyIff(Fields(body));
    var kbs := Entries(envelope);
    var found := LastNamed(kbs, body.name.value);
    if found.Some? {
      var t := TransformKnowledgeBaseToPrompt(kbs[found.value]);
      if t.Failure? {
        assert !IsFetchFailure(t.error);
      }
    }
  }

  /** A failing follow-up listing still reports success, without a prompt. */
  lemma FailedListingStillCreated(apiKey: Option<string>, body: CreateBody, status: int, createdBody: Json<()>,
                                  listStatus: int, listBody: Json<ListEnvelope>)
    requires Truthy(apiKey) && Truthy(body.name) && ServerAccepts(Fields(body))
    requires IsOk(status) && !IsOk(listStatus)
    ensures Post(apiKey, Parsed(body), Answered(status, createdBody), Answered(listStatus, listBody))
      == Handled(CreatedMessage(), 2)
  {
    ValidatePromptDataEmptyIff(Fields(body));
  }

  /** The two handlers classify thrown values alike, except that a
      `SyntaxError` is a 400 here and a 500 in the listing handler. */
  lemma CatchBlocksAgreeExceptJson(e: Thrown)
    ensures !(e.ThrownError? && e.kind == SyntaxErrorKind) ==> Caught(e) == ListRoute.Caught(e)
    ensures e.ThrownError? && e.kind == SyntaxErrorKind ==>
      Caught(e).status == 400 && ListRoute.Caught(e).status == 500
  {
  }
}
