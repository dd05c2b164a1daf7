/** The client store of prompts: the list, the selected id, a loading flag, the
    last error and the time of the last successful fetch, with a five-minute
    cache window. The network exchanges of each operation are inputs, the clock
    is the `now` argument, and `updatePrompt` is split at its `await` into a
    begin step (lookup and optimistic write) and a complete step. */
module PromptsStore {
  import opened Wrappers
  import opened Text
  import opened Http
  import opened PromptTypes
  import opened PromptSlots
  import ErrorMessages

  const CacheMaxAge := 5 * 60 * 1000

  /* ---------------- `_handleApiError` ---------------- */

  /* Sentences that the shared status map also uses are split at the same
     places as there; the text is the same. */

  const InvalidRequest := "Invalid request data. Please" + " " + "check your input and try" + " " + "again."
  const AuthFailedWithVendor := "Authentication failed. Please verify your " + "HeyGen" + " API key is valid and active."
  const AccessDenied := "Access denied. Your API key" + " " + "may not have permission to" + " " + "manage prompts."
  const PromptGone := "Prompt not found. It may have been deleted or moved."
  const TooManyRequests := "Too many requests. Please wait" + " " + "a moment before trying again."
  const ServerError := "Server error occurred. Please" + " " + "try again in a few minutes."
  const VendorUnavailable := "" + "HeyGen" + " service is temporarily unavailable. Please try again later."
  const GatewayTimeout := "Request timed out. Please check your connection and try again."
  const NetworkAdvice := "Network error. Please check your internet connection and try again."
  const ConnectionBlocked := "Connection blocked. Please refresh the page and try again."
  const ConnectionFailed := "Connection failed. Please check your network and try again."
  const TimedOut := "Request timed out. Please try again."
  const InvalidResponse := "Invalid response from server. Please try again."
  const VendorKeyMissing := "" + "HeyGen" + " API key is missing or invalid. Please check your configuration."
  const UsageLimit := "API usage limit reached. Please try again later or upgrade your plan."
  const Offline := "You appear to be offline. Please check your connection."
  const SecurityRestriction := "Security restriction encountered. Please refresh the page."
  const Unexpected := "An unexpected error occurred. Please try again."
  const TryAgainSuffix := ". Please try again."

  const FetchDefault := "Failed to load prompts. Please try again."
  const CreateDefault := "Failed to create prompt. Please try again."
  const UpdateDefault := "Failed to update prompt. Please try again."
  const NotFoundText := "Prompt not found"

  /** The sentence for a rethrown non-OK `Response`. */
  function StatusMessage(status: int): (r: string)
    ensures r != ""
    ensures status !in {400, 401, 403, 404, 429, 500, 502, 503, 504} ==>
      r == "Server error (" + IntToString(status) + "). Please try again or contact support."
  {
    match status
    case 400 => InvalidRequest
    case 401 => AuthFailedWithVendor
    case 403 => AccessDenied
    case 404 => PromptGone
    case 429 => TooManyRequests
    case 500 => ServerError
    case 502 => VendorUnavailable
    case 503 => VendorUnavailable
    case 504 => GatewayTimeout
    case _ => "Server error (" + IntToString(status) + "). Please try again or contact support."
  }

  /** The `^Error:\s*` replacement: an `Error:` prefix and the white space
      after it go. With the prefix, what is removed is `Error:` followed by
      white space only, and what is kept does not start with white space, which
      together leave exactly one result. */
  function StripErrorPrefix(s: string): (r: string)
    ensures |r| <= |s| && r == s[|s| - |r|..]
    ensures |s| >= 6 && s[..6] == "Error:" ==> |r| <= |s| - 6 && IsBlank(s[6..|s| - |r|])
    ensures |s| >= 6 && s[..6] == "Error:" ==> r != [] ==> !IsSpace(r[0])
    ensures !(|s| >= 6 && s[..6] == "Error:") ==> r == s
  {
    if |s| >= 6 && s[..6] == "Error:" then
      var r := TrimStart(s[6..]);
      assert s[6..][..|s| - 6 - |r|] == s[6..|s| - |r|];
      r
    else s
  }

  /** `.replace(/\.$/, '')`: one final full stop goes. */
  function StripFinalStop(s: string): (r: string)
    ensures r == s || (s == r + ".")
    ensures s != [] && s[|s| - 1] == '.' ==> |r| == |s| - 1
  {
    if s != [] && s[|s| - 1] == '.' then s[..|s| - 1] else s
  }

  /** `charAt(0).toUpperCase() + slice(1)` */
  function Capitalise(s: string): (r: string)
    ensures |r| == |s|
    ensures s != [] ==> r[0] == UpperChar(s[0]) && r[1..] == s[1..]
  {
    if s == [] then [] else [UpperChar(s[0])] + s[1..]
  }

  /** The generic branch: the message without an `Error:` prefix or a final full
      stop, lower-cased, with its first letter capitalised, and the retry advice
      appended. */
  function FriendlyMessage(message: string): (r: string)
    ensures |r| >= |TryAgainSuffix| && r[|r| - |TryAgainSuffix|..] == TryAgainSuffix
    ensures var core := r[..|r| - |TryAgainSuffix|];
      forall i :: 1 <= i < |core| ==> !('A' <= core[i] <= 'Z')
  {
    var core := Capitalise(Lower(StripFinalStop(StripErrorPrefix(message))));
    CapitalisedLower(StripFinalStop(StripErrorPrefix(message)));
    assert (core + TryAgainSuffix)[..|core|] == core;
    core + TryAgainSuffix
  }

  /** A lower-cased, capitalised string has no capital after its first letter. */
  lemma CapitalisedLower(s: string)
    ensures var c := Capitalise(Lower(s)); forall i :: 1 <= i < |c| ==> !('A' <= c[i] <= 'Z')
  {
    var lowered := Lower(s);
    var c := Capitalise(lowered);
    forall i | 1 <= i < |c| ensures !('A' <= c[i] <= 'Z') {
      assert c[i] == lowered[i] == LowerChar(s[i]);
    }
  }

  /** `_handleApiError(error, defaultMessage)`: the message it stores, matched in
      the handler's order. */
  function ErrorMessage(e: Thrown, defaultMessage: string): (r: string)
    ensures r != ""
    ensures e.ThrownResponse? ==> r == StatusMessage(e.status)
    ensures e.ThrownValue? ==> r == if defaultMessage == "" then Unexpected else defaultMessage
  {
    match e
    case ThrownResponse(status) => StatusMessage(status)
    case ThrownValue => if defaultMessage == "" then Unexpected else defaultMessage
    case ThrownError(kind, name, message) =>
      if kind == TypeErrorKind && Contains(message, "fetch") then
        if Contains(message, "network") then NetworkAdvice
        else if Contains(message, "CORS") then ConnectionBlocked
        else ConnectionFailed
      else if name == "AbortError" then TimedOut
      else if kind == SyntaxErrorKind then InvalidResponse
      else if Contains(message, "API key") then VendorKeyMissing
      else if Contains(message, "quota") || Contains(message, "limit") then UsageLimit
      else
        var lowered := Lower(message);
        if Contains(lowered, "timeout") then TimedOut
        else if Contains(lowered, "offline") then Offline
        else if Contains(lowered, "cors") then SecurityRestriction
        else FriendlyMessage(message)
  }

  /** The 400, 403, 429 and 500 sentences are those of the shared status map. */
  lemma StatusSentencesSharedWithMap()
    ensures forall s :: s in {400, 403, 429, 500} ==>
      StatusMessage(s) == ErrorMessages.GetErrorMessageForStatus(s)
  {
  }

  /** The 401 sentence still names the former vendor, which the shared map's
      sentence and the rebranding audit rule out. */
  lemma AuthSentenceNamesVendor()
    ensures ErrorMessages.MentionsHeyGen(StatusMessage(401))
    ensures !ErrorMessages.MentionsHeyGen(ErrorMessages.GetErrorMessageForStatus(401))
  {
    ContainsWordIgnoringCase("Authentication failed. Please verify your ", "HeyGen",
      " API key is valid and active.", "heygen");
    ErrorMessages.StatusMessageIsRebranded(401);
  }

  /** So do the 502 and 503 sentences. */
  lemma UnavailableSentenceNamesVendor(status: int)
    requires status == 502 || status == 503
    ensures ErrorMessages.MentionsHeyGen(StatusMessage(status))
    ensures !ErrorMessages.MentionsHeyGen(ErrorMessages.GetErrorMessageForStatus(status))
  {
    var rest := " service is temporarily unavailable. Please try again later.";
    assert StatusMessage(status) == VendorUnavailable == "" + "HeyGen" + rest;
    assert Lower("HeyGen") == "heygen";
    ContainsWordIgnoringCase("", "HeyGen", rest, "heygen");
    ErrorMessages.StatusMessageIsRebranded(status);
  }

  /* ---------------- the store ---------------- */

  /** A snapshot of the store's fields. */
  datatype StoreState = StoreState(
    prompts: seq<Slot>,
    selectedPromptId: string,
    loading: bool,
    error: Option<string>,
    lastFetch: Option<int>)

  /** Where `updatePrompt` stands after its first step. */
  datatype Begun =
    | Pending(original: Prompt)   // the request is to be sent
    | Settled(result: Slot)       // returned without a request
    | Rejected(failure: Thrown)   // threw before its `try`

  class Store {
    var prompts: seq<Slot>
    var selectedPromptId: string
    var loading: bool
    var error: Option<string>
    var lastFetch: Option<int>

    function State(): StoreState
      reads this
    {
      StoreState(prompts, selectedPromptId, loading, error, lastFetch)
    }

    /** The initial state. */
    constructor()
      ensures State() == StoreState([], "", false, None, None)
    {
      prompts := [];
      selectedPromptId := "";
      loading := false;
      error := None;
      lastFetch := None;
    }

    /** `_isCacheValid`: a fetch time of 0 counts as none (`!lastFetch`); any
        other fetch time keeps the cache for less than `CacheMaxAge` (five
        minutes) after it. */
    predicate CacheValid(now: int): (r: bool)
      reads this
      ensures lastFetch.None? || lastFetch == Some(0) ==> !r
      ensures lastFetch.Some? && lastFetch.value != 0 ==> (r <==> now < lastFetch.value + CacheMaxAge)
    {
      lastFetch.Some? && lastFetch.value != 0 && now - lastFetch.value < CacheMaxAge
    }

    /** `_invalidateCache` */
    method InvalidateCache()
      modifies this
      ensures State() == old(State()).(lastFetch := None)
      ensures !CacheValid(0)
    {
      lastFetch := None;
    }

    /** `clearError` */
    method ClearError()
      modifies this
      ensures State() == old(State()).(error := None)
    {
      error := None;
    }

    /** `setSelectedPrompt` */
    method SetSelectedPrompt(id: string)
      modifies this
      ensures State() == old(State()).(selectedPromptId := id)
    {
      selectedPromptId := id;
    }

    /** `_handleApiError` followed by `set({ loading: false })`. */
    method Fail(e: Thrown, defaultMessage: string)
      modifies this
      ensures State() == old(State()).(error := Some(ErrorMessage(e, defaultMessage)), loading := false)
    {
      error := Some(ErrorMessage(e, defaultMessage));
      loading := false;
    }

    /** `fetchPrompts`: nothing at all happens while the cache is valid and the
        list is non-empty; otherwise the reply either replaces the list and
        stamps the fetch time, or leaves the list alone and records an error.
        The clock is read twice: `now` for the cache test, `settledAt` once the
        reply is decoded. */
    method FetchPrompts(now: int, settledAt: int, reply: Reply<seq<Prompt>>) returns (requested: bool)
      modifies this
      ensures requested <==> !(old(CacheValid(now)) && |old(prompts)| > 0)
      ensures !requested ==> State() == old(State())
      ensures requested && Settle(reply).Success? ==> State() == old(State()).(
        prompts := AsSlots(Settle(reply).value), lastFetch := Some(settledAt), loading := false, error := None)
      ensures requested && Settle(reply).Failure? ==> State() == old(State()).(
        loading := false, error := Some(ErrorMessage(Settle(reply).error, FetchDefault)))
    {
      if CacheValid(now) && |prompts| > 0 {
        return false;
      }
      requested := true;
      loading := true;
      error := None;
      match Settle(reply)
      case Success(ps) =>
        prompts := AsSlots(ps);
        lastFetch := Some(settledAt);
        loading := false;
      case Failure(e) =>
        Fail(e, FetchDefault);
    }

    /** `refreshPrompts`: the cache is dropped first, so the request is always
        sent. */
    method RefreshPrompts(now: int, settledAt: int, reply: Reply<seq<Prompt>>) returns (requested: bool)
      modifies this
      ensures requested
      ensures Settle(reply).Success? ==> State() == old(State()).(
        prompts := AsSlots(Settle(reply).value), lastFetch := Some(settledAt), loading := false, error := None)
      ensures Settle(reply).Failure? ==> State() == old(State()).(
        lastFetch := None, loading := false, error := Some(ErrorMessage(Settle(reply).error, FetchDefault)))
    {
      InvalidateCache();
      requested := FetchPrompts(now, settledAt, reply);
    }

    /** `createPrompt`. The reply's `prompt` is appended as it is, `undefined`
        included (the route's message-only 201), and the cache is dropped. */
    method CreatePrompt(reply: Reply<Slot>) returns (r: Slot)
      modifies this
      ensures Settle(reply).Success? ==>
        && r == Settle(reply).value
        && State() == old(State()).(prompts := old(prompts) + [r], loading := false,
                                    error := None, lastFetch := None)
      ensures Settle(reply).Failure? ==>
        && r == None
        && State() == old(State()).(loading := false,
                                    error := Some(ErrorMessage(Settle(reply).error, CreateDefault)))
    {
      loading := true;
      error := None;
      match Settle(reply)
      case Success(p) =>
        prompts := prompts + [p];
        loading := false;
        InvalidateCache();
        r := p;
      case Failure(e) =>
        Fail(e, CreateDefault);
        r := None;
    }

    /** `updatePrompt` up to its request: the lookup, then the optimistic write
        of `{...original, ...data}` over every entry with that id. The lookup
        and the write run outside the handler's `try`: an `undefined` entry
        makes them throw. */
    method BeginUpdate(id: string, data: UpdatePromptData) returns (b: Begun)
      modifies this
      ensures FindById(old(prompts), id).LookupThrew? ==>
        b == Rejected(UndefinedIdError()) && State() == old(State())
      ensures FindById(old(prompts), id).NotFound? ==>
        b == Settled(None) && State() == old(State()).(error := Some(NotFoundText), loading := false)
      ensures FindById(old(prompts), id).Found? ==>
        var original := old(prompts)[FindById(old(prompts), id).index].value;
        var written := MapById(old(prompts), id, Some(Merge(original, data)));
        && (written.None? ==>
              b == Rejected(UndefinedIdError()) && State() == old(State()).(loading := true, error := None))
        && (written.Some? ==>
              b == Pending(original) && State() == old(State()).(prompts := written.value, loading := true, error := None))
    {
      match FindById(prompts, id)
      case LookupThrew =>
        b := Rejected(UndefinedIdError());
      case NotFound =>
        error := Some(NotFoundText);
        loading := false;
        b := Settled(None);
      case Found(i) =>
        var original := prompts[i].value;
        loading := true;
        error := None;
        match MapById(prompts, id, Some(Merge(original, data)))
        case None =>
          b := Rejected(UndefinedIdError());
        case Some(written) =>
          prompts := written;
          b := Pending(original);
    }

    /** `updatePrompt` from its request on. Only a non-OK status rolls back;
        a thrown request or an undecodable body keeps the optimistic entry. On
        success every entry with that id becomes the reply's prompt and the
        cache is dropped. */
    method CompleteUpdate(id: string, original: Prompt, reply: Reply<Slot>) returns (r: Slot)
      modifies this
      ensures reply.Answered? && !IsOk(reply.status) ==>
        var back := MapById(old(prompts), id, Some(original));
        && r == None
        && (back.Some? ==> State() == old(State()).(prompts := back.value, loading := false,
              error := Some(StatusMessage(reply.status))))
        && (back.None? ==> State() == old(State()).(loading := false,
              error := Some(ErrorMessage(UndefinedIdError(), UpdateDefault))))
      ensures (reply.FetchThrew? || (IsOk(reply.status) && reply.body.Malformed?)) ==>
        && r == None
        && State() == old(State()).(loading := false,
             error := Some(ErrorMessage(Settle(reply).error, UpdateDefault)))
      ensures Settle(reply).Success? ==>
        var now := MapById(old(prompts), id, Settle(reply).value);
        && (now.Some? ==>
              r == Settle(reply).value && State() == old(State()).(prompts := now.value, loading := false, lastFetch := None))
        && (now.None? ==> r == None && State() == old(State()).(loading := false,
              error := Some(ErrorMessage(UndefinedIdError(), UpdateDefault))))
    {
      match reply
      case FetchThrew(e) =>
        Fail(e, UpdateDefault);
        r := None;
      case Answered(status, body) =>
        if !IsOk(status) {
          r := None;
          match MapById(prompts, id, Some(original))
          case Some(back) =>
            prompts := back;
            Fail(ThrownResponse(status), UpdateDefault);
          case None =>
            Fail(UndefinedIdError(), UpdateDefault);
        } else {
          match body
          case Malformed(message) =>
            Fail(SyntaxError(message), UpdateDefault);
            r := None;
          case Parsed(p) =>
            match MapById(prompts, id, p)
            case Some(now) =>
              prompts := now;
              loading := false;
              InvalidateCache();
              r := p;
            case None =>
              Fail(UndefinedIdError(), UpdateDefault);
              r := None;
        }
    }

    /** `getPromptById`: the first entry with that id; nothing changes. */
    method GetPromptById(id: string) returns (r: Lookup)
      ensures r == FindById(prompts, id)
    {
      r := FindById(prompts, id);
    }
  }

  /** An update the server rejects leaves the list as it was before the update
      began, as long as the entries with that id were all the same prompt. */
  method UpdateRejected(store: Store, id: string, data: UpdatePromptData, status: int)
    returns (r: Slot)
    requires Defined(store.prompts) && !IsOk(status)
    requires FindById(store.prompts, id).Found?
    requires forall k :: 0 <= k < |store.prompts| && store.prompts[k].value.id == id ==>
      store.prompts[k] == store.prompts[FindById(store.prompts, id).index]
    modifies store
    ensures r == None && store.prompts == old(store.prompts) && !store.loading
    ensures store.error == Some(StatusMessage(status))
  {
    var original := store.prompts[FindById(store.prompts, id).index].value;
    var b := store.BeginUpdate(id, data);
    MergeIdempotent(original, data);
    RollbackRestores(old(store.prompts), original, Merge(original, data));
    r := store.CompleteUpdate(id, b.original, Answered(status, Malformed("")));
  }

  /** A request that throws after the optimistic write is not rolled back: the
      merged entry stays in the list. */
  method UpdateThrewKeepsOptimistic(store: Store, id: string, data: UpdatePromptData, failure: Thrown)
    returns (r: Slot)
    requires Defined(store.prompts) && FindById(store.prompts, id).Found?
    modifies store
    ensures var original := old(store.prompts)[FindById(old(store.prompts), id).index].value;
      && r == None && !store.loading
      && store.prompts == MapById(old(store.prompts), id, Some(Merge(original, data))).value
      && Some(Merge(original, data)) in store.prompts
  {
    var b := store.BeginUpdate(id, data);
    r := store.CompleteUpdate(id, b.original, FetchThrew(failure));
    assert store.prompts[FindById(old(store.prompts), id).index]
      == Some(Merge(b.original, data));
  }
}
