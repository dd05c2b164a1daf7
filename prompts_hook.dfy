/** The older `usePrompts` hook: the same operations as the store, without a
    cache or a selected id, and with a shorter error table. Each `setPrompts`
    call takes an updater; React runs updaters while rendering, so an updater
    that throws (a `map` reaching an `undefined` entry) does not reach the
    handler. The model keeps the list unchanged in that case and records the
    failure in `renderFailure`. */
module PromptsHook {
  import opened Wrappers
  import opened Text
  import opened Http
  import opened PromptTypes
  import opened PromptSlots

  const AuthFailed := "Authentication failed. Please check your API key."
  const NotFound := "Prompt not found."
  const Unavailable := "Service temporarily unavailable. Please try again later."
  const FetchDefault := "Failed to load prompts. Please try again."
  const CreateDefault := "Failed to create prompt. Please try again."
  const UpdateDefault := "Failed to update prompt. Please try again."
  const NotFoundText := "Prompt not found"

  /** `handleApiError(error, defaultMessage)`: the message it stores. */
  function ErrorMessage(e: Thrown, defaultMessage: string): (r: string)
    ensures e.ThrownResponse? && e.status !in {401, 404, 503} ==>
      r == "Server error (" + IntToString(e.status) + "). Please try again."
    ensures e.ThrownResponse? ==> r != ""
    ensures e.ThrownError? ==> r == e.message
    ensures e.ThrownValue? ==> r == defaultMessage
  {
    match e
    case ThrownResponse(status) =>
      if status == 401 then AuthFailed
      else if status == 404 then NotFound
      else if status == 503 then Unavailable
      else "Server error (" + IntToString(status) + "). Please try again."
    case ThrownError(_, _, message) => message
    case ThrownValue => defaultMessage
  }

  /** A snapshot of the hook's state. */
  datatype HookState = HookState(
    prompts: seq<Slot>,
    loading: bool,
    error: Option<string>,
    renderFailure: Option<Thrown>)

  /** Where `updatePrompt` stands after its first step. */
  datatype Begun =
    | Pending(original: Prompt)   // the request is to be sent
    | Settled(result: Slot)       // returned without a request
    | Rejected(failure: Thrown)   // threw before its `try`

  class Hook {
    var prompts: seq<Slot>
    var loading: bool
    var error: Option<string>
    var renderFailure: Option<Thrown>

    function State(): HookState
      reads this
    {
      HookState(prompts, loading, error, renderFailure)
    }

    constructor()
      ensures State() == HookState([], false, None, None)
    {
      prompts := [];
      loading := false;
      error := None;
      renderFailure := None;
    }

    /** `clearError` */
    method ClearError()
      modifies this
      ensures State() == old(State()).(error := None)
    {
      error := None;
    }

    /** `setPrompts(prev => prev.map(p => p.id === id ? replacement : p))` */
    method ReplaceById(id: string, replacement: Slot)
      modifies this
      ensures MapById(old(prompts), id, replacement).Some? ==>
        State() == old(State()).(prompts := MapById(old(prompts), id, replacement).value)
      ensures MapById(old(prompts), id, replacement).None? ==>
        State() == old(State()).(renderFailure := Some(UndefinedIdError()))
    {
      match MapById(prompts, id, replacement)
      case Some(written) => prompts := written;
      case None => renderFailure := Some(UndefinedIdError());
    }

    /** `fetchPrompts`: there is no cache, so every call sends the request. */
    method FetchPrompts(reply: Reply<seq<Prompt>>)
      modifies this
      ensures Settle(reply).Success? ==> State() == old(State()).(
        prompts := AsSlots(Settle(reply).value),
        loading := false, error := None)
      ensures Settle(reply).Failure? ==> State() == old(State()).(
        loading := false, error := Some(ErrorMessage(Settle(reply).error, FetchDefault)))
    {
      loading := true;
      error := None;
      match Settle(reply) {
        case Success(ps) =>
          prompts := AsSlots(ps);
        case Failure(e) =>
          error := Some(ErrorMessage(e, FetchDefault));
      }
      loading := false;
    }

    /** `refreshPrompts` is `fetchPrompts`. */
    method RefreshPrompts(reply: Reply<seq<Prompt>>)
      modifies this
      ensures Settle(reply).Success? ==> State() == old(State()).(
        prompts := AsSlots(Settle(reply).value),
        loading := false, error := None)
      ensures Settle(reply).Failure? ==> State() == old(State()).(
        loading := false, error := Some(ErrorMessage(Settle(reply).error, FetchDefault)))
    {
      FetchPrompts(reply);
    }

    /** `createPrompt`: the reply's `prompt` is appended as it is. */
    method CreatePrompt(reply: Reply<Slot>) returns (r: Slot)
      modifies this
      ensures Settle(reply).Success? ==>
        && r == Settle(reply).value
        && State() == old(State()).(prompts := old(prompts) + [r], loading := false, error := None)
      ensures Settle(reply).Failure? ==>
        && r == None
        && State() == old(State()).(loading := false,
                                    error := Some(ErrorMessage(Settle(reply).error, CreateDefault)))
    {
      loading := true;
      error := None;
      match Settle(reply) {
        case Success(p) =>
          prompts := prompts + [p];
          r := p;
        case Failure(e) =>
          error := Some(ErrorMessage(e, CreateDefault));
          r := None;
      }
      loading := false;
    }

    /** `updatePrompt` up to its request. Loading is raised before the lookup;
        a lookup that throws leaves it raised. */
    method BeginUpdate(id: string, data: UpdatePromptData) returns (b: Begun)
      modifies this
      ensures FindById(old(prompts), id).LookupThrew? ==>
        b == Rejected(UndefinedIdError()) && State() == old(State()).(loading := true, error := None)
      ensures FindById(old(prompts), id).NotFound? ==>
        b == Settled(None) && State() == old(State()).(loading := false, error := Some(NotFoundText))
      ensures FindById(old(prompts), id).Found? ==>
        var original := old(prompts)[FindById(old(prompts), id).index].value;
        var written := MapById(old(prompts), id, Some(Merge(original, data)));
        && b == Pending(original)
        && (written.Some? ==>
              State() == old(State()).(prompts := written.value, loading := true, error := None))
        && (written.None? ==>
              State() == old(State()).(loading := true, error := None,
                                       renderFailure := Some(UndefinedIdError())))
    {
      loading := true;
      error := None;
      match FindById(prompts, id)
      case LookupThrew =>
        b := Rejected(UndefinedIdError());
      case NotFound =>
        error := Some(NotFoundText);
        loading := false;
        b := Settled(None);
      case Found(i) =>
        var original := prompts[i].value;
        ReplaceById(id, Some(Merge(original, data)));
        b := Pending(original);
    }

    /** `updatePrompt` from its request on: rollback only on a non-OK status;
        `loading` is lowered in every case by the `finally`. */
    method CompleteUpdate(id: string, original: Prompt, reply: Reply<Slot>) returns (r: Slot)
      modifies this
      ensures reply.Answered? && !IsOk(reply.status) ==>
        var back := MapById(old(prompts), id, Some(original));
        && r == None
        && (back.Some? ==> State() == old(State()).(prompts := back.value, loading := false,
              error := Some(ErrorMessage(ThrownResponse(reply.status), UpdateDefault))))
        && (back.None? ==> State() == old(State()).(loading := false,
              error := Some(ErrorMessage(ThrownResponse(reply.status), UpdateDefault)),
              renderFailure := Some(UndefinedIdError())))
      ensures (reply.FetchThrew? || (IsOk(reply.status) && reply.body.Malformed?)) ==>
        && r == None
        && State() == old(State()).(loading := false,
             error := Some(ErrorMessage(Settle(reply).error, UpdateDefault)))
      ensures Settle(reply).Success? ==>
        var now := MapById(old(prompts), id, Settle(reply).value);
        && r == Settle(reply).value
        && (now.Some? ==> State() == old(State()).(prompts := now.value, loading := false))
        && (now.None? ==> State() == old(State()).(loading := false,
              renderFailure := Some(UndefinedIdError())))
    {
      match reply {
        case FetchThrew(e) =>
          error := Some(ErrorMessage(e, UpdateDefault));
          r := None;
        case Answered(status, body) =>
          if !IsOk(status) {
            ReplaceById(id, Some(original));
            error := Some(ErrorMessage(ThrownResponse(status), UpdateDefault));
            r := None;
          } else {
            match body
            case Malformed(message) =>
              error := Some(ErrorMessage(SyntaxError(message), UpdateDefault));
              r := None;
            case Parsed(p) =>
              ReplaceById(id, p);
              r := p;
          }
      }
      loading := false;
    }

    /** `getPromptById`: the first entry with that id; nothing changes. */
    method GetPromptById(id: string) returns (r: Lookup)
      ensures r == FindById(prompts, id)
    {
      r := FindById(prompts, id);
    }
  }

  /** An update the server rejects leaves the list as it was before the update
      began, as long as the entries with that id were all the same prompt and
      every entry is defined. */
  method UpdateRejected(hook: Hook, id: string, data: UpdatePromptData, status: int)
    returns (r: Slot)
    requires Defined(hook.prompts) && !IsOk(status)
    requires FindById(hook.prompts, id).Found?
    requires forall k :: 0 <= k < |hook.prompts| && hook.prompts[k].value.id == id ==>
      hook.prompts[k] == hook.prompts[FindById(hook.prompts, id).index]
    modifies hook
    ensures r == None && hook.prompts == old(hook.prompts) && !hook.loading
    ensures hook.error == Some(ErrorMessage(ThrownResponse(status), UpdateDefault))
  {
    var original := hook.prompts[FindById(hook.prompts, id).index].value;
    var b := hook.BeginUpdate(id, data);
    MergeIdempotent(original, data);
    RollbackRestores(old(hook.prompts), original, Merge(original, data));
    r := hook.CompleteUpdate(id, b.original, Answered(status, Malformed("")));
  }
}
