/** `GET /api/prompts/list`: the proxy that lists the vendor's knowledge bases as
    UI prompts. The server's API key and the vendor's reply are inputs; the
    handler is a guard-and-return chain with one `try`/`catch` around it. */
module ListRoute {
  import opened Wrappers
  import opened Text
  import opened Http
  import opened PromptTypes
  import opened PromptUtils
  import opened ErrorMessages

  /** The decoded list reply. `data.data?.list || []` reads a missing `data` and a
      missing `list` alike, so both are `None`. */
  datatype ListEnvelope = ListEnvelope(list: Option<seq<KnowledgeBase>>)

  /** The list the handler maps: an absent list is the empty list. */
  function Entries(envelope: ListEnvelope): seq<KnowledgeBase> {
    envelope.list.GetOr([])
  }

  /** What a handler returns, with the number of vendor requests it sent. */
  datatype Handled = Handled(response: HttpResponse, vendorCalls: nat)

  /** An entry the transform accepts. */
  predicate WellFormed(kb: KnowledgeBase) {
    Truthy(kb.id) && Truthy(kb.name)
  }

  /** `kbs.map(transformKnowledgeBaseToPrompt)`: the first entry that the
      transform rejects throws out of the whole map; otherwise every entry is
      transformed, in order. */
  function TransformAll(kbs: seq<KnowledgeBase>): (r: Result<seq<Prompt>, Thrown>)
    ensures r.Success? <==> forall i :: 0 <= i < |kbs| ==> WellFormed(kbs[i])
    ensures r.Success? ==> |r.value| == |kbs|
    ensures r.Success? ==> forall i :: 0 <= i < |kbs| ==>
      && TransformKnowledgeBaseToPrompt(kbs[i]).Success?
      && r.value[i] == TransformKnowledgeBaseToPrompt(kbs[i]).value
    ensures r.Failure? ==> r.error == ThrownError(OtherErrorKind, "Error", MissingFieldsMessage)
  {
    if kbs == [] then Success([])
    else
      match TransformKnowledgeBaseToPrompt(kbs[0])
      case Failure(e) => Failure(e)
      case Success(p) =>
        var rest := TransformAll(kbs[1..]);
        assert forall i :: 1 <= i < |kbs| ==> kbs[i] == kbs[1..][i - 1];
        if rest.Failure? then rest else Success([p] + rest.value)
  }

  /** The `catch` block: a `TypeError` mentioning `fetch` is reported as the
      network sentence with 503, anything else as a generic 500. */
  function Caught(e: Thrown): (r: HttpResponse)
    ensures IsFetchFailure(e) ==> r == CreateErrorResponse(NetworkError, 503)
    ensures !IsFetchFailure(e) ==> r == CreateErrorResponse(InternalServerError, 500)
  {
    if IsFetchFailure(e) then CreateErrorResponse(NetworkError, 503)
    else CreateErrorResponse(InternalServerError, 500)
  }

  /** A non-OK vendor status: 401 and 404 get their own sentences, any other
      status is passed through with the fetch-failed sentence. */
  function VendorFailure(status: int): (r: HttpResponse)
    ensures r.status == status
    ensures r.body.ErrorBody? && r.body.error in {InvalidApiKey, EndpointNotFound, FetchPromptsFailed}
    ensures r.body.error == InvalidApiKey <==> status == 401
    ensures r.body.error == EndpointNotFound <==> status == 404
  {
    if status == 401 then CreateErrorResponse(InvalidApiKey, 401)
    else if status == 404 then CreateErrorResponse(EndpointNotFound, 404)
    else CreateErrorResponse(FetchPromptsFailed, status)
  }

  /** `GET()` */
  function Get(apiKey: Option<string>, reply: Reply<ListEnvelope>): (r: Handled)
    ensures !Truthy(apiKey) ==> r == Handled(CreateErrorResponse(ApiConfigError, 500), 0)
    ensures Truthy(apiKey) ==> r.vendorCalls == 1
    ensures r.response.status == 200 <==>
      && Truthy(apiKey) && reply.Answered? && IsOk(reply.status) && reply.body.Parsed?
      && forall i :: 0 <= i < |Entries(reply.body.value)| ==> WellFormed(Entries(reply.body.value)[i])
  {
    if !Truthy(apiKey) then
      Handled(CreateErrorResponse(ApiConfigError, 500), 0)
    else
      Handled(Fetched(reply), 1)
  }

  /** Everything after the key check. */
  function Fetched(reply: Reply<ListEnvelope>): (r: HttpResponse)
    ensures r.status == 200 <==>
      && reply.Answered? && IsOk(reply.status) && reply.body.Parsed?
      && forall i :: 0 <= i < |Entries(reply.body.value)| ==> WellFormed(Entries(reply.body.value)[i])
  {
    match reply
    case FetchThrew(e) => Caught(e)
    case Answered(status, body) =>
      if !IsOk(status) then VendorFailure(status)
      else
        match body
        case Malformed(message) => Caught(SyntaxError(message))
        case Parsed(envelope) =>
          match TransformAll(Entries(envelope))
          case Failure(e) => Caught(e)
          case Success(prompts) => CreateSuccessResponse(PromptsBody(prompts), 200)
  }

  /** A successful listing holds one prompt per vendor entry, in the vendor's
      order, with the entry's id and name and the renamed optional fields; it
      is privately cacheable for a minute. */
  lemma ListingPreservesEntries(apiKey: Option<string>, reply: Reply<ListEnvelope>)
    requires Get(apiKey, reply).response.status == 200
    ensures reply.Answered? && reply.body.Parsed?
    ensures var kbs := Entries(reply.body.value);
      var body := Get(apiKey, reply).response.body;
      && body.PromptsBody? && |body.prompts| == |kbs|
      && forall i :: 0 <= i < |kbs| ==>
        && Some(body.prompts[i].id) == kbs[i].id
        && Some(body.prompts[i].name) == kbs[i].name
        && body.prompts[i].description == kbs[i].description
        && body.prompts[i].openingLine == kbs[i].opening
        && body.prompts[i].customPrompt == kbs[i].prompt
    ensures Cacheable(Get(apiKey, reply).response)
  {
    var kbs := Entries(reply.body.value);
    var all := TransformAll(kbs);
    assert all.Success?;
    forall i | 0 <= i < |kbs|
      ensures Some(all.value[i].id) == kbs[i].id && Some(all.value[i].name) == kbs[i].name
    {
      assert all.value[i] == TransformKnowledgeBaseToPrompt(kbs[i]).value;
    }
  }

  /** An entry without a usable id or name fails the whole request with a
      generic 500: no partial list is ever returned. */
  lemma OneBadEntryFailsAll(apiKey: Option<string>, envelope: ListEnvelope, status: int, i: nat)
    requires Truthy(apiKey) && IsOk(status)
    requires i < |Entries(envelope)| && !WellFormed(Entries(envelope)[i])
    ensures Get(apiKey, Answered(status, Parsed(envelope))).response
      == CreateErrorResponse(InternalServerError, 500)
  {
  }

  /** The handler never forwards the vendor's wording: every error reply carries
      one of the fixed sentences, and only a success reply is cacheable. */
  lemma ErrorTextIsFixed(apiKey: Option<string>, reply: Reply<ListEnvelope>)
    ensures var r := Get(apiKey, reply).response;
      || (r.status == 200 && r.body.PromptsBody? && Cacheable(r))
      || (&& r.body.ErrorBody? && !Cacheable(r)
          && r.body.error in {ApiConfigError, InvalidApiKey, EndpointNotFound,
                              FetchPromptsFailed, NetworkError, InternalServerError})
  {
    var r := Get(apiKey, reply).response;
    if r.status != 200 {
      assert "Cache-Control" !in r.headers;
    }
  }

  /** A decoding failure is not a network failure: it gives the generic 500. */
  lemma MalformedJsonIsInternal(apiKey: Option<string>, status: int, message: string)
    requires Truthy(apiKey) && IsOk(status)
    ensures Get(apiKey, Answered(status, Malformed(message))).response
      == CreateErrorResponse(InternalServerError, 500)
  {
  }

  /** A missing list is listed as empty. */
  lemma MissingListIsEmpty(apiKey: Option<string>, status: int)
    requires Truthy(apiKey) && IsOk(status)
    ensures Get(apiKey, Answered(status, Parsed(ListEnvelope(None)))).response
      == CreateSuccessResponse(PromptsBody([]), 200)
  {
  }
}
