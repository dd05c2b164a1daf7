# InteractiveAvatar prompt management, modelled in Dafny

This project models the prompt (knowledge-base) management stack of the
InteractiveAvatar web application and proves properties of the model. It covers:

- the two server routes that list and create prompts by proxying the vendor's
  knowledge-base API, with their response helpers and the error-message catalogue;
- server-side and client-side validation of prompt data;
- the client prompt store and the equivalent `usePrompts` hook: fetching,
  caching, creating, and optimistic updates with rollback;
- the prompt components: the manager state machine, the engineering sheet, the
  form, the list, and the card;
- the toast queue;
- the avatar gallery sort and the gallery dialog's filters;
- the analytics service and the prompts analytics hook.

Each source file is one Dafny module, as follows:

| module | source file |
|---|---|
| `PromptUtils` | `app/lib/prompt-utils.ts` |
| `FormValidation` | `components/Prompts/validation.ts` |
| `ErrorMessages` | `app/lib/error-messages.ts` |
| `ListRoute` | `app/api/prompts/list/route.ts` |
| `CreateRoute` | `app/api/prompts/create/route.ts` |
| `PromptsStore` | `store/usePromptsStore.ts` |
| `PromptsHook` | `app/hooks/usePrompts.ts` |
| `PromptsManager` | `components/Prompts/PromptsManager.tsx` |
| `EngineeringSheet` | `components/Prompts/PromptEngineeringSheet.tsx` |
| `PromptForm` | `components/Prompts/PromptForm.tsx` |
| `PromptsList` | `components/Prompts/PromptsList.tsx` |
| `PromptCard` | `components/Prompts/PromptCard.tsx` |
| `Toast` | `components/ui/Toast.tsx` |
| `AvatarGallery` | `components/AvatarConfig/AvatarGallery.tsx` |
| `AvatarGalleryDialog` | `components/AvatarConfig/AvatarGalleryDialog.tsx` |
| `Analytics` | `lib/analytics.ts` |
| `PromptsAnalytics` | `hooks/usePromptsAnalytics.ts` |

Six shared modules support them:

- `Wrappers`: `Option` and `Result`.
- `Text`: ASCII trimming, lower-casing, substring search, and number rendering.
- `Http`: thrown values, decoded bodies, and replies.
- `PromptTypes`: the records of `app/types/prompt.ts`.
- `PromptSlots`: the store's list, whose entries may be `undefined`.
- `AvatarList`: the shipped avatar list of `app/lib/constants.ts`.

Code that changes state step by step is modelled as classes with `modifies`
clauses; pure code is modelled as functions and lemmas:

- The store, the hook, the manager, the sheet, the form, the card's preview toggle,
  the toast queue, the analytics service and the analytics hook's refs are classes.
  Each method states its whole new state.
- Validation, routes, categorisation, sorting, filtering and bucketing are functions
  and lemmas.

Inputs from outside the model are parameters:

- The vendor's replies are a tagged outcome: an answer with a status and a body that
  may fail to decode, or a `fetch` that threw.
- Clock readings are integers.
- The outcome of each provider call is a set of failing indices.
- Browser storage is an object holding an optional event log.
- `window.confirm` answers are booleans.

## Model

| member | source | states |
|---|---|---|
| `PromptTypes.MergeNothing` | store/usePromptsStore.ts:318-321 | spreading update data with no keys over a prompt copies the prompt |
| `PromptTypes.MergeIdempotent` | store/usePromptsStore.ts:318-321 | spreading the same update data twice equals spreading it once, and the spread never changes the id or the description |
| `Http.Settle` | store/usePromptsStore.ts:236-247 | `fetch`, then throwing a non-OK response, then `response.json()` gives the decoded body exactly when the status is 2xx and the body decodes; a non-OK status throws that status's response |
| `PromptSlots.FindById` | store/usePromptsStore.ts:309 | `find` by id returns the first entry with the id, and reports not-found only when every entry is a prompt with another id; it throws only at an `undefined` entry reached before any match |
| `PromptSlots.FoundPrompt` | store/usePromptsStore.ts:377-380 | the prompt `find` returns carries the id and is in the list, and it is returned exactly when the lookup finds an entry |
| `PromptSlots.MapById` | store/usePromptsStore.ts:323-325 | `map` by id fails exactly when some entry is `undefined`; otherwise it keeps the length, replaces every entry with the id, and keeps every other entry |
| `PromptSlots.MapByIdIdempotent` | store/usePromptsStore.ts:347-350 | writing the same prompt over an id twice equals writing it once |
| `PromptSlots.RollbackRestores` | store/usePromptsStore.ts:336-341 | writing an optimistic prompt and then the original back restores the list, when every entry with that id was the original |
| `PromptUtils.TransformKnowledgeBaseToPrompt` | app/lib/prompt-utils.ts:19-34 | throws the missing-fields error exactly when the id or the name is missing or empty; otherwise copies id, name and description and renames `opening` and `prompt` |
| `PromptUtils.UpdateRequestKeys` | app/lib/prompt-utils.ts:57-71 | the update payload has a key exactly for each field that is defined |
| `PromptUtils.HasUpdatesIffSomeFieldDefined` | app/lib/prompt-utils.ts:122-124 | a payload has updates exactly when at least one field was defined |
| `PromptUtils.TransformPromptToCreateRequest` | app/lib/prompt-utils.ts:40-50 | the create request carries the name, the opening line as `opening` and the custom prompt as `prompt` |
| `PromptUtils.TransformPromptToUpdateRequest` | app/lib/prompt-utils.ts:57-71 | the update request carries each field, renamed, exactly as given, an undefined one as no key |
| `PromptUtils.HasUpdates` | app/lib/prompt-utils.ts:122-124 | a request has updates exactly when at least one of its three keys is present |
| `PromptUtils.KnowledgeBaseRoundTrip` | app/lib/prompt-utils.ts:19-71 | a well-formed entry, turned into a prompt and then into an update payload, gives back the entry's name, opening and prompt |
| `PromptUtils.CreateRequestRoundTrip` | app/lib/prompt-utils.ts:19-50 | the create request keeps the name and renames the optional fields, leaving absent ones absent: stored under an id and listed back, it gives the data's own fields |
| `PromptUtils.BrokenRules` | app/lib/prompt-utils.ts:97-113 | the rules reported are exactly the broken ones, in the order the validator lists them |
| `PromptUtils.ValidatePromptData` | app/lib/prompt-utils.ts:90-116 | a rule's message is reported exactly when its rule is broken: a defined blank name, a name over 100, an opening line over 1,500, custom instructions over 15,000 |
| `PromptUtils.MessageIdentifiesRule` | app/lib/prompt-utils.ts:99-112 | distinct rules have distinct messages |
| `PromptUtils.ValidatePromptDataEmptyIff` | app/lib/prompt-utils.ts:90-116 | no message is reported exactly when every defined field is within its rule |
| `PromptUtils.AcceptsIffNothingBroken` | app/lib/prompt-utils.ts:90-116 | the server's acceptance, read rule by rule, holds exactly when no rule is broken |
| `PromptUtils.BlankLongNameBreaksBothRules` | app/lib/prompt-utils.ts:98-105 | a name of more than 100 spaces gets both the empty-name and the too-long message, in that order |
| `PromptUtils.CacheHeaderOnlyOnSuccess` | app/lib/prompt-utils.ts:129-150 | success replies carry the private one-minute cache header and error replies do not; both are JSON |
| `PromptUtils.CreateErrorResponse` | app/lib/prompt-utils.ts:129-134 | the reply has the given status, the body `{ error: message }` and a JSON content type as its only header |
| `PromptUtils.CreateSuccessResponse` | app/lib/prompt-utils.ts:139-150 | the reply has the given status and body, a JSON content type and the private one-minute cache header, and no other header |
| `FormValidation.ValidatePromptForm` | components/Prompts/validation.ts:32-65 | at most one error per field, in field order; "required" exactly for a missing or blank name; "too long" for a name over 100 that is not blank; length errors exactly for optional fields over their limits; no errors exactly when the form accepts the data |
| `FormValidation.FormAcceptanceImpliesServerAcceptance` | components/Prompts/validation.ts:8-16 | whatever the form accepts, the server validator accepts as well |
| `FormValidation.ServerAcceptsWhatFormRejects` | components/Prompts/validation.ts:36-40 | the converse fails: with no name the server reports nothing and the form reports the name as required |
| `FormValidation.GetFieldError` | components/Prompts/validation.ts:70-73 | no message exactly when no error names the field; otherwise the message of the first error on that field |
| `FormValidation.HasValidationErrorsIffRejected` | components/Prompts/validation.ts:78-80 | the form has errors exactly when it rejects the data |
| `ErrorMessages.GetErrorMessageForStatus` | app/lib/error-messages.ts:64-67 | the mapped sentence for a mapped status, the numbered fallback otherwise; never empty |
| `ErrorMessages.StatusMessageIsRebranded` | app/lib/error-messages.ts:49-67 | for every status, the sentence does not mention the former vendor in any letter case |
| `ErrorMessages.StatusAliases` | app/lib/error-messages.ts:49-59 | 502 and 503 share the unavailable sentence; 401, 403, 404 and 504 reuse the catalogue's sentences |
| `ErrorMessages.NetworkMessagesAreRebranded` | app/lib/error-messages.ts:10-14 | no network sentence mentions the former vendor |
| `ErrorMessages.AuthMessagesAreRebranded` | app/lib/error-messages.ts:16-21 | no authentication sentence mentions the former vendor |
| `ErrorMessages.PromptMessagesAreRebranded` | app/lib/error-messages.ts:23-28 | no prompt sentence mentions the former vendor |
| `ErrorMessages.ValidationMessagesAreRebranded` | app/lib/error-messages.ts:30-33 | no validation sentence mentions the former vendor |
| `ErrorMessages.ServerMessagesAreRebranded` | app/lib/error-messages.ts:35-38 | no generic server sentence mentions the former vendor |
| `ErrorMessages.InterfaceMessagesAreRebranded` | app/lib/error-messages.ts:40-42 | no interface sentence mentions the former vendor |
| `ErrorMessages.NoMessageMentionsHeyGen` | app/lib/error-messages.ts:9-43 | no catalogue sentence mentions the former vendor, in any letter case |
| `ErrorMessages.NoStatusMessageMentionsHeyGen` | app/lib/error-messages.ts:49-59 | no status-map sentence mentions the former vendor |
| `ErrorMessages.GetNetworkErrorMessage` | app/lib/error-messages.ts:81-91 | in the lower-cased message, a "network" gives the network advice; otherwise a "cors" gives the blocked-connection sentence; otherwise the connection-failed sentence |
| `ErrorMessages.IsNetworkError` | app/lib/error-messages.ts:72-76 | every network error is a fetch failure in the routes' sense, and its message names `network` or `connection` |
| `ErrorMessages.NetworkWordWins` | app/lib/error-messages.ts:72-91 | a network error naming `network` gets the network advice, and so does a message saying `NETWORK`, whatever else it says |
| `ErrorMessages.CorsWithoutNetworkIsBlocked` | app/lib/error-messages.ts:81-91 | a message saying `CORS`, and not `network` in any letter case, gets the connection-blocked sentence |
| `ListRoute.TransformAll` | app/api/prompts/list/route.ts:54-56 | the map succeeds exactly when every entry is well formed, and then keeps the length and transforms entry by entry; otherwise it throws the missing-fields error |
| `ListRoute.Caught` | app/api/prompts/list/route.ts:60-69 | a `TypeError` mentioning `fetch` gives the network sentence with 503; anything else gives a generic 500 |
| `ListRoute.VendorFailure` | app/api/prompts/list/route.ts:35-49 | the vendor's status is passed through, with the invalid-key sentence exactly for 401 and the not-found sentence exactly for 404 |
| `ListRoute.Get` | app/api/prompts/list/route.ts:15-70 | without a key: a 500 and no vendor call; with a key: one vendor call; 200 exactly when the vendor answers 2xx, the body decodes, and every entry is well formed |
| `ListRoute.Fetched` | app/api/prompts/list/route.ts:25-59 | 200 exactly when the reply is 2xx, decodes, and every entry is well formed |
| `ListRoute.ListingPreservesEntries` | app/api/prompts/list/route.ts:51-59 | a 200 holds one prompt per vendor entry, in order, with the entry's fields renamed, and is cacheable |
| `ListRoute.OneBadEntryFailsAll` | app/api/prompts/list/route.ts:54-68 | one malformed entry fails the whole listing with a generic 500 |
| `ListRoute.ErrorTextIsFixed` | app/api/prompts/list/route.ts:15-70 | every reply is either a cacheable 200 list or an uncacheable error that carries one of six fixed sentences |
| `ListRoute.MalformedJsonIsInternal` | app/api/prompts/list/route.ts:51-68 | a body that does not decode gives the generic 500 |
| `ListRoute.MissingListIsEmpty` | app/api/prompts/list/route.ts:54 | a reply without a list gives an empty listing |
| `CreateRoute.LastNamed` | app/api/prompts/create/route.ts:111-113 | the last entry whose name equals the request's, or none exactly when no entry has that name |
| `CreateRoute.Caught` | app/api/prompts/create/route.ts:128-142 | a fetch `TypeError` gives 503; any `SyntaxError` gives 400 invalid JSON; anything else gives 500 |
| `CreateRoute.CreateFailure` | app/api/prompts/create/route.ts:67-81 | the status is passed through, with the sentence chosen for 400, for 401, or for any other status |
| `CreateRoute.Post` | app/api/prompts/create/route.ts:19-143 | no key: 500 and no call; undecodable request: 400; missing name: 400 and no call; at most two vendor calls, and a 201 only after both |
| `CreateRoute.AfterCreate` | app/api/prompts/create/route.ts:85-127 | a failed follow-up listing still reports the creation without details |
| `CreateRoute.RejectedDataIsNotSent` | app/api/prompts/create/route.ts:33-42 | data the validator rejects gets a 400 listing every message, and no vendor call is made |
| `CreateRoute.CreatedPromptIsLastMatch` | app/api/prompts/create/route.ts:106-127 | after a successful create and listing, both vendor requests were made; with no entry of the requested name the reply is the creation message; when the last such entry has no id the reply is a generic 500; otherwise a 201 carrying that entry's id, the requested name and the entry's description, opening line and custom prompt |
| `CreateRoute.FailedListingStillCreated` | app/api/prompts/create/route.ts:95-104 | a non-OK follow-up listing gives the 201 creation message after two vendor calls |
| `CreateRoute.CatchBlocksAgreeExceptJson` | app/api/prompts/create/route.ts:128-142 | the two routes classify thrown values alike, except a `SyntaxError`: 400 here and 500 in the listing route |
| `PromptsStore.StatusMessage` | store/usePromptsStore.ts:108-137 | never empty; any status outside the nine listed gets the numbered server-error sentence |
| `PromptsStore.StripErrorPrefix` | store/usePromptsStore.ts:178 | the result is a suffix of the message; without a leading `Error:` it is the message itself; with one, what is removed is `Error:` followed by white space only, and the result does not start with white space, which fixes the result |
| `PromptsStore.StripFinalStop` | store/usePromptsStore.ts:179 | removes exactly one final full stop, if there is one |
| `PromptsStore.Capitalise` | store/usePromptsStore.ts:182 | upper-cases the first character and keeps the rest |
| `PromptsStore.FriendlyMessage` | store/usePromptsStore.ts:176-182 | the result ends in ". Please try again." and has no capital letter after its first character |
| `PromptsStore.ErrorMessage` | store/usePromptsStore.ts:104-189 | never empty; a rethrown response gets its status sentence; a non-error value gets the default message, or the generic one when that is empty |
| `PromptsStore.StatusSentencesSharedWithMap` | store/usePromptsStore.ts:110-127 | the 400, 403, 429 and 500 sentences equal those of the shared status map |
| `PromptsStore.AuthSentenceNamesVendor` | store/usePromptsStore.ts:113-115 | the store's 401 sentence names the former vendor, and the shared map's does not |
| `PromptsStore.UnavailableSentenceNamesVendor` | store/usePromptsStore.ts:128-131 | the store's 502 and 503 sentences name the former vendor, and the shared map's do not |
| `PromptsStore.Store.constructor` | store/usePromptsStore.ts:92-98 | the store starts empty, not loading, without an error and without a fetch time |
| `PromptsStore.Store.InvalidateCache` | store/usePromptsStore.ts:203-205 | only the fetch time is cleared |
| `PromptsStore.Store.ClearError` | store/usePromptsStore.ts:210-212 | only the error is cleared |
| `PromptsStore.Store.SetSelectedPrompt` | store/usePromptsStore.ts:217-219 | only the selected id changes |
| `PromptsStore.Store.Fail` | store/usePromptsStore.ts:255-257 | the error message is stored and loading is lowered; nothing else changes |
| `PromptsStore.Store.FetchPrompts` | store/usePromptsStore.ts:225-259 | no request and no change while the cache is valid and the list is non-empty; otherwise success replaces the list and stamps the second clock reading, and failure keeps the list and records the error |
| `PromptsStore.Store.CacheValid` | store/usePromptsStore.ts:194-198 | no fetch time, or a fetch time of 0, is never valid; any other is valid exactly until one cache age after it |
| `PromptsStore.Store.RefreshPrompts` | store/usePromptsStore.ts:368-371 | always sends the request; the outcome is that of a fetch from an empty cache |
| `PromptsStore.Store.CreatePrompt` | store/usePromptsStore.ts:265-299 | on success exactly one entry is appended (the reply's `prompt`, `undefined` included) and the cache is dropped; on failure the list is kept and the error recorded |
| `PromptsStore.Store.BeginUpdate` | store/usePromptsStore.ts:305-325 | not found: error "Prompt not found" and no request; found: every entry with the id becomes the merged prompt, and loading is raised; an `undefined` entry throws |
| `PromptsStore.Store.CompleteUpdate` | store/usePromptsStore.ts:327-361 | a non-OK status writes the original back and records the status sentence; a thrown request or an undecodable body keeps the optimistic entry; success writes the reply's prompt and drops the cache |
| `PromptsStore.Store.GetPromptById` | store/usePromptsStore.ts:377-380 | the lookup by id, with no change |
| `PromptsStore.UpdateRejected` | store/usePromptsStore.ts:305-361 | an update the server rejects leaves the list exactly as before (when the entries with that id were all one prompt), lowers loading and records the status sentence |
| `PromptsStore.UpdateThrewKeepsOptimistic` | store/usePromptsStore.ts:327-361 | an update whose request throws keeps the merged prompt in the list |
| `PromptsHook.ErrorMessage` | app/hooks/usePrompts.ts:90-117 | a response outside 401, 404 and 503 gets the numbered sentence; an `Error` gets its own message; anything else gets the default |
| `PromptsHook.Hook.constructor` | app/hooks/usePrompts.ts:75-77 | the hook starts empty, not loading, without an error |
| `PromptsHook.Hook.ClearError` | app/hooks/usePrompts.ts:82-84 | only the error is cleared |
| `PromptsHook.Hook.ReplaceById` | app/hooks/usePrompts.ts:209-211 | the by-id map is applied, or, when an entry is `undefined`, the list is kept and the render failure recorded |
| `PromptsHook.Hook.FetchPrompts` | app/hooks/usePrompts.ts:123-146 | every call requests; success replaces the list, failure records the error, and loading ends lowered |
| `PromptsHook.Hook.RefreshPrompts` | app/hooks/usePrompts.ts:252-254 | the same outcome as a fetch |
| `PromptsHook.Hook.CreatePrompt` | app/hooks/usePrompts.ts:152-184 | success appends exactly the reply's `prompt`; failure records the error; loading ends lowered |
| `PromptsHook.Hook.BeginUpdate` | app/hooks/usePrompts.ts:190-211 | loading is raised before the lookup; not found: error and loading lowered; found: the merged prompt is written over the id |
| `PromptsHook.Hook.CompleteUpdate` | app/hooks/usePrompts.ts:213-243 | rollback only on a non-OK status; success writes the reply's prompt; loading always ends lowered |
| `PromptsHook.Hook.GetPromptById` | app/hooks/usePrompts.ts:260-265 | the lookup by id, with no change |
| `PromptsHook.UpdateRejected` | app/hooks/usePrompts.ts:190-243 | an update the server rejects leaves the list exactly as before |
| `EngineeringSheet.Limit` | components/Prompts/PromptEngineeringSheet.tsx:40-44 | the sheet's limits are 100, 1,500 and 15,000, the same as the server's |
| `EngineeringSheet.FormErrors` | components/Prompts/PromptEngineeringSheet.tsx:147-162 | a name error exactly for a blank name ("required") or a name under 3 characters ("at least 3"); a custom-instructions error exactly for a non-empty text under 10 characters; never an opening-line error; no empty message |
| `EngineeringSheet.ClearFieldError` | components/Prompts/PromptEngineeringSheet.tsx:122-125 | the typed field's message is emptied but its key stays; other messages are kept |
| `EngineeringSheet.InitialForm` | components/Prompts/PromptEngineeringSheet.tsx:83-101 | editing an existing prompt loads its name and its optional fields (absent ones as empty); otherwise the form is empty |
| `EngineeringSheet.CharacterStatusOf` | components/Prompts/PromptEngineeringSheet.tsx:207-215 | danger exactly at 90% of the limit or more, warning exactly from 75% up to 90%, normal below 75% |
| `EngineeringSheet.CharacterStatusMonotone` | components/Prompts/PromptEngineeringSheet.tsx:207-215 | a longer text never has a milder status |
| `EngineeringSheet.SubmitErrorText` | components/Prompts/PromptEngineeringSheet.tsx:172-178 | an `Error`'s own message, otherwise the fixed unexpected-error sentence |
| `EngineeringSheet.Sheet.constructor` | components/Prompts/PromptEngineeringSheet.tsx:71-78 | an empty form, no errors, no submit error, no unsaved changes |
| `EngineeringSheet.Sheet.Open` | components/Prompts/PromptEngineeringSheet.tsx:83-101 | opening loads the initial form and clears errors, the submit error and the changed mark |
| `EngineeringSheet.Sheet.HandleInputChange` | components/Prompts/PromptEngineeringSheet.tsx:112-145 | the field keeps the value cut to its limit, its message is emptied, the submit error is cleared and the form is marked changed; a form within the limits stays within them, and the submit button's state does not change |
| `EngineeringSheet.Sheet.ValidateForm` | components/Prompts/PromptEngineeringSheet.tsx:147-162 | only the error record changes, and the form is valid exactly when the record is empty |
| `EngineeringSheet.Sheet.HandleSubmit` | components/Prompts/PromptEngineeringSheet.tsx:164-180 | nothing is submitted while the form has errors; otherwise the form is submitted, a resolved call clears the changed mark and a rejected call shows its message |
| `EngineeringSheet.Sheet.SubmitDisabled` | components/Prompts/PromptEngineeringSheet.tsx:465 | the submit button is disabled while submitting and, otherwise, exactly when the error record has a key |
| `EngineeringSheet.Sheet.ResetForm` | components/Prompts/PromptEngineeringSheet.tsx:189-205 | the initial form is loaded and errors and the changed mark are cleared; the submit error is kept |
| `EngineeringSheet.SubmittedFormPassesServer` | components/Prompts/PromptEngineeringSheet.tsx:147-170 | a form within the limits that the sheet accepts passes the server's validation, trimmed or not |
| `EngineeringSheet.TrimKeepsBlankness` | components/Prompts/PromptEngineeringSheet.tsx:150 | trimming never lengthens a string and keeps it blank exactly when it was |
| `PromptsManager.CreateArguments` | components/Prompts/PromptsManager.tsx:161-165 | the name is sent trimmed; an optional field is sent trimmed, and is left out exactly when it is blank |
| `PromptsManager.UpdateArguments` | components/Prompts/PromptsManager.tsx:226-230 | the name is sent as typed; an optional field is always sent, as `undefined` exactly when it is empty |
| `PromptsManager.CreateFailureText` | components/Prompts/PromptsManager.tsx:186-200 | a non-`Error` gets the generic sentence; duplicate wording wins over quota wording, which wins over the rest; a message with none of the keywords is shown as it is |
| `PromptsManager.UpdateFailureText` | components/Prompts/PromptsManager.tsx:253-267 | a non-`Error` gets the generic sentence; "not found" or 404 gets the deleted sentence; a message with none of the keywords is shown as it is |
| `PromptsManager.Manager.constructor` | components/Prompts/PromptsManager.tsx:55-67 | the manager opens on its default tab, with nothing being edited or submitted and the sheet and palette closed |
| `PromptsManager.Manager.HandleTabChange` | components/Prompts/PromptsManager.tsx:92-120 | nothing moves while submitting; leaving the edit tab needs a confirmation; the edit tab with nothing to edit falls back to the list with a notice; any other completed switch drops the prompt being edited |
| `PromptsManager.Manager.HandleEditPrompt` | components/Prompts/PromptsManager.tsx:123-149 | refused while submitting or for a prompt without an id; switching from another prompt needs a confirmation; otherwise the sheet opens in edit mode on that prompt |
| `PromptsManager.Manager.BeginCreateSubmit` | components/Prompts/PromptsManager.tsx:152-165 | a blank name is refused with a notice and no call; otherwise the submission starts with the shaped arguments |
| `PromptsManager.Manager.CompleteCreateSubmit` | components/Prompts/PromptsManager.tsx:167-205 | a prompt goes back to the list with a success toast, an empty result goes back with a warning, a thrown value is announced and rethrown; submitting always ends |
| `PromptsManager.Manager.BeginUpdateSubmit` | components/Prompts/PromptsManager.tsx:209-230 | nothing being edited, or an id that is blank, shows the list with a notice and makes no call; otherwise the call is the edited id and the shaped arguments |
| `PromptsManager.Manager.CompleteUpdateSubmit` | components/Prompts/PromptsManager.tsx:232-272 | any result ends the edit and shows the list; an error saying the prompt is gone ends it too; other errors keep it; thrown values are rethrown; submitting always ends |
| `PromptsManager.Manager.HandleClose` | components/Prompts/PromptsManager.tsx:276-309 | refused while submitting, and on the edit tab with a prompt unless confirmed; a close resets the tab, drops the prompt and closes the palette |
| `PromptsManager.Manager.HandleSheetSubmit` | components/Prompts/PromptsManager.tsx:319-335 | one notice per submission and submitting ends; for each mode and outcome the notice and the whole new state: a refused submission (blank name, expired edit session, blank id) and a settled one close the sheet and drop the prompt, a success or a vanished prompt shows the list, and a rethrow keeps the sheet as it was |
| `PromptsManager.Manager.HandleNewPromptClick` | components/Prompts/PromptsManager.tsx:312-316 | the sheet opens in create mode with nothing being edited |
| `PromptsManager.Manager.HandleSheetClose` | components/Prompts/PromptsManager.tsx:338-343 | closing the sheet drops the prompt being edited; opening it changes nothing else |
| `PromptsManager.SheetFormPassesCreateRoute` | components/Prompts/PromptsManager.tsx:152-165 | a form within the limits that the sheet accepts has a name and gives arguments the create route's validation accepts |
| `PromptsManager.UnchangedEditRoundTrip` | components/Prompts/PromptsManager.tsx:226-230 | submitting an edit unchanged writes back the same prompt, unless an optional field was the empty string |
| `PromptsManager.EmptiedFieldIsErased` | components/Prompts/PromptsManager.tsx:228-229 | emptying an optional field erases it from the optimistic entry, and the name is always the typed one |
| `PromptForm.WithoutField` | components/Prompts/PromptForm.tsx:81 | the filter keeps exactly the errors about other fields, and never lengthens the list |
| `PromptForm.WithoutFieldKeepsOrder` | components/Prompts/PromptForm.tsx:81 | the filtered list stays in the validator's field order |
| `PromptForm.CounterNoteOf` | components/Prompts/PromptForm.tsx:184-189 | "approaching" exactly strictly between the warning mark and the limit, "reached" exactly at the limit |
| `PromptForm.RedIsUnreachable` | components/Prompts/PromptForm.tsx:178-182 | for all three counters the red class is never chosen: at the limit the counter is yellow and says "reached" |
| `PromptForm.CounterColourOf` | components/Prompts/PromptForm.tsx:178-182 | yellow exactly above the warning threshold; red exactly at the limit when that is not above the threshold; grey otherwise |
| `PromptForm.TypedFormOnlyFailsOnName` | components/Prompts/PromptForm.tsx:64-68 | with the typing limits 100, 500 and 2,000, the only error the validator can report is a missing name |
| `PromptForm.Form.constructor` | components/Prompts/PromptForm.tsx:32-38 | an empty form, no errors, no submit error |
| `PromptForm.Form.Open` | components/Prompts/PromptForm.tsx:41-59 | opening loads the initial form and clears the errors and the submit error |
| `PromptForm.Form.HandleInputChange` | components/Prompts/PromptForm.tsx:61-100 | the field keeps a prefix of the value cut to its typing limit; its errors go exactly when it had a non-empty message; the submit error is cleared; a form within the typing limits stays within them |
| `PromptForm.Form.HandleSubmit` | components/Prompts/PromptForm.tsx:102-124 | the error list becomes the validator's verdict; the form is submitted exactly when that list is empty; a rejected call shows its message |
| `PromptForm.Form.Validate` | components/Prompts/PromptForm.tsx:106-111 | the error list becomes the validator's verdict and the form passes exactly when it is empty; nothing else changes |
| `PromptForm.Form.HandleClose` | components/Prompts/PromptForm.tsx:126-130 | the form closes exactly when nothing is being submitted |
| `PromptsList.CategoryOf` | components/Prompts/PromptsList.tsx:83-89 | sales exactly when the lower-cased name has a sales word; support exactly when it has no sales word and a support word; demo likewise after both; custom exactly when it has none |
| `PromptsList.FilterPopular` | components/Prompts/PromptsList.tsx:111-114 | keeps exactly the prompts whose lower-cased name says sales, demo or support; their order is stated by `FilterPopularConcat` |
| `PromptsList.PopularPrompts` | components/Prompts/PromptsList.tsx:110-115 | at most three prompts, exactly the popular ones among the first three |
| `PromptsList.Kept` | components/Prompts/PromptsList.tsx:111-114 | what the filter keeps of one prompt: the prompt itself exactly when its name is popular, nothing otherwise |
| `PromptsList.FilterPopularConcat` | components/Prompts/PromptsList.tsx:111-114 | filtering a concatenation concatenates the filtered parts, so the kept prompts stay in order, once per occurrence |
| `PromptsList.PopularPromptsInOrder` | components/Prompts/PromptsList.tsx:110-115 | the strip is, in order, each popular prompt among the first three, once |
| `PromptsList.SalesIsNotAlwaysPopular` | components/Prompts/PromptsList.tsx:83-114 | a name that is sales only through "sell" or "pitch" is classed as sales but is not popular |
| `PromptsList.PitchIsSalesButNotPopular` | components/Prompts/PromptsList.tsx:83-114 | the name "pitch" is such a name |
| `PromptsList.ViewOf` | components/Prompts/PromptsList.tsx:117-172 | the skeleton exactly while loading with no prompts, the empty state exactly when not loading with no prompts, the table exactly when there are prompts |
| `PromptsList.NameLeqTotal` | components/Prompts/PromptsList.tsx:106 | any two names are comparable in the order the table is sorted by |
| `PromptsList.Insert` | components/Prompts/PromptsList.tsx:106 | inserting into a sorted list gives a sorted list with one more copy of the prompt |
| `PromptsList.SortByName` | components/Prompts/PromptsList.tsx:105-107 | the sorted copy is in name order and is a permutation of the list |
| `PromptsList.ShowErrorEffect` | components/Prompts/PromptsList.tsx:64-69 | a non-empty store error is shown once and cleared, and nothing else in the store changes; otherwise nothing happens |
| `PromptCard.CategoryStatusOf` | components/Prompts/PromptCard.tsx:55-66 | active exactly for sales, selected exactly for support, inactive exactly for demo and custom; the label is the badge's text |
| `PromptCard.StatusLabelsAreDistinct` | components/Prompts/PromptCard.tsx:55-79 | equal labels mean equal categories, although demo and custom share a kind |
| `PromptCard.PreviewNeedsConfiguration` | components/Prompts/PromptCard.tsx:116-164 | a card with the "no configuration" badge never shows the preview; any other card shows it exactly when toggled |
| `PromptCard.ShowsNoConfiguration` | components/Prompts/PromptCard.tsx:116 | the badge shows exactly when the opening line and the custom prompt are each undefined or empty |
| `PromptCard.ShowsPreview` | components/Prompts/PromptCard.tsx:164 | the preview shows only when toggled on and only for a card without the badge |
| `PromptCard.Card.constructor` | components/Prompts/PromptCard.tsx:34 | the preview starts hidden |
| `PromptCard.Card.ToggleLabel` | components/Prompts/PromptCard.tsx:136 | the button says "Hide" exactly while the preview is toggled on |
| `PromptCard.Card.TogglePreview` | components/Prompts/PromptCard.tsx:131 | the toggle flips |
| `Toast.DefaultDuration` | components/ui/Toast.tsx:53-73 | errors: 0 when critical, 12 s high, 8 s medium, 6 s otherwise; warnings 8 s when high, else 6 s; successes 4 s; info and loading 5 s; zero exactly for a critical error |
| `Toast.Complete` | components/ui/Toast.tsx:75-80 | the toast keeps its kind, title and message, takes the id, uses the given duration or else the default, and is dismissible unless told otherwise |
| `Toast.WithoutId` | components/ui/Toast.tsx:92-94 | keeps exactly the toasts with another id |
| `Toast.ToastQueue.constructor` | components/ui/Toast.tsx:48 | the queue starts empty |
| `Toast.ToastQueue.AddToast` | components/ui/Toast.tsx:50-90 | exactly one completed toast is appended, with the clock reading as its id; a removal timer is started exactly when the toast is not loading and has a positive duration, and it runs for that duration |
| `Toast.AutoRemoves` | components/ui/Toast.tsx:84-89 | a loading toast, or one with a duration of zero or less, is never removed by a timer; any other is |
| `Toast.ToastQueue.RemoveToast` | components/ui/Toast.tsx:92-94 | every toast with the id goes and the others stay in order |
| `Toast.ToastQueue.ClearToasts` | components/ui/Toast.tsx:96-98 | the queue is emptied |
| `Toast.HelperLifetimes` | components/ui/Toast.tsx:343-399 | critical-error and loading toasts stay until removed and have no close button; an error without severity lasts 8 s; any non-critical error and every success removes itself and can be closed; successes last 4 s |
| `Toast.SuccessInput` | components/ui/Toast.tsx:347-349 | a success toast with the title and message, no severity, and the default duration and close button |
| `Toast.ErrorInput` | components/ui/Toast.tsx:351-353 | an error toast with the given severity, or medium when none is given, and the default duration and close button |
| `Toast.WarningInput` | components/ui/Toast.tsx:355-357 | a warning toast with the given severity, or medium when none is given |
| `Toast.CriticalErrorInput` | components/ui/Toast.tsx:360-369 | a critical error toast that cannot be closed, with the given actions |
| `Toast.NetworkErrorInput` | components/ui/Toast.tsx:371-385 | a high-severity "Connection Error" toast that has one Retry action exactly when a retry callback is given |
| `Toast.InfoInput` | components/ui/Toast.tsx:387-389 | an info toast with the title and message and default settings |
| `Toast.LoadingInput` | components/ui/Toast.tsx:391-398 | a loading toast with duration 0 that cannot be closed |
| `Toast.SameMillisecondRemovedTogether` | components/ui/Toast.tsx:50-94 | two toasts added at the same clock reading share an id, so removing one removes both |
| `Toast.WithoutIdAppend` | components/ui/Toast.tsx:93 | filtering a concatenation filters each part |
| `AvatarGallery.Class` | components/AvatarConfig/AvatarGallery.tsx:24-35 | the comparator's rank: the new avatars take the two lowest ranks, the popular ones within each half the lower |
| `AvatarGallery.CompareByClass` | components/AvatarConfig/AvatarGallery.tsx:24-35 | the comparator is negative, zero or positive exactly as the first avatar's rank is below, equal to or above the second's |
| `AvatarGallery.OrderedPairs` | components/AvatarConfig/AvatarGallery.tsx:24-35 | in a list ordered by neighbours, every earlier avatar has a rank no higher than every later one |
| `AvatarGallery.Insert` | components/AvatarConfig/AvatarGallery.tsx:24 | inserting into an ordered list gives an ordered list one longer |
| `AvatarGallery.SortAvatars` | components/AvatarConfig/AvatarGallery.tsx:24-35 | the sorted copy is ordered by rank and as long as the list |
| `AvatarGallery.InsertAdds` | components/AvatarConfig/AvatarGallery.tsx:24 | an insertion adds exactly one copy of the avatar |
| `AvatarGallery.SortPermutes` | components/AvatarConfig/AvatarGallery.tsx:24 | the sorted copy is a permutation of the list |
| `AvatarGallery.OfClass` | components/AvatarConfig/AvatarGallery.tsx:33-34 | the avatars of one rank, in order, never more than the list |
| `AvatarGallery.OfClassMembers` | components/AvatarConfig/AvatarGallery.tsx:33-34 | an avatar is among those of a rank exactly when it is in the list with that rank |
| `AvatarGallery.StableWithinClass` | components/AvatarConfig/AvatarGallery.tsx:33-34 | the sort keeps the original order of avatars of equal rank |
| `AvatarGallery.Determined` | components/AvatarConfig/AvatarGallery.tsx:24-35 | two ordered lists with the same avatars of each rank, in the same order, are equal |
| `AvatarGallery.SortIsUnique` | components/AvatarConfig/AvatarGallery.tsx:24-35 | any ordered list that keeps each rank's avatars in their original order is the sort's result, so the comparator fixes the display order |
| `AvatarGallery.NewFirst` | components/AvatarConfig/AvatarGallery.tsx:25-27 | every new avatar comes before every avatar that is not new |
| `AvatarGallery.PopularNext` | components/AvatarConfig/AvatarGallery.tsx:29-31 | among avatars equally new, popular ones come first |
| `AvatarList.ShippedOrder` | app/lib/constants.ts:1-72 | the thirteen shipped avatars are shown as Silas, Pedro, Bryan, Alessandra, Santa, then the other eight in list order |
| `AvatarGalleryDialog.Filter` | components/AvatarConfig/AvatarGalleryDialog.tsx:42-50 | a filter never lengthens the list |
| `AvatarGalleryDialog.FilterMembers` | components/AvatarConfig/AvatarGalleryDialog.tsx:42-50 | a filter keeps exactly the avatars that pass its test |
| `AvatarGalleryDialog.FilterIsSubsequence` | components/AvatarConfig/AvatarGalleryDialog.tsx:42-50 | a filter keeps the list's order |
| `AvatarGalleryDialog.SubsequenceTransitive` | components/AvatarConfig/AvatarGalleryDialog.tsx:38-54 | a filter of a filter keeps the original order |
| `AvatarGalleryDialog.FiltersCommute` | components/AvatarConfig/AvatarGalleryDialog.tsx:40-52 | the tab filter and the search filter can be applied in either order |
| `AvatarGalleryDialog.FilteredAvatars` | components/AvatarConfig/AvatarGalleryDialog.tsx:37-55 | an avatar is shown exactly when it is in the list, passes the tab, and, for a non-blank query, its lower-cased name contains the lower-cased, untrimmed query |
| `AvatarGalleryDialog.FilteredIsSubsequence` | components/AvatarConfig/AvatarGalleryDialog.tsx:37-55 | the shown avatars keep the list's order |
| `AvatarGalleryDialog.TabsNarrowAll` | components/AvatarConfig/AvatarGalleryDialog.tsx:40-45 | for any query, the new and popular tabs show a part of what the all tab shows, in its order |
| `AvatarGalleryDialog.TabCounts` | components/AvatarConfig/AvatarGalleryDialog.tsx:230-241 | for the shipped list the tabs read All (13), New (3) and Popular (2) |
| `AvatarGalleryDialog.UntrimmedQuery` | components/AvatarConfig/AvatarGalleryDialog.tsx:48-51 | "SIL" finds Silas, but " silas" finds no one, because only the blankness test trims |
| `AvatarGalleryDialog.FeatureLabel` | components/AvatarConfig/AvatarGalleryDialog.tsx:172-180 | "Featured" exactly for new and popular, "New Release" exactly for new only, "Most Used" exactly for popular only, no label otherwise |
| `AvatarGalleryDialog.CardClick` | components/AvatarConfig/AvatarGalleryDialog.tsx:57-80 | a click reports the card's avatar and then closes the dialog |
| `Analytics.EventStorage.constructor` | lib/analytics.ts:62-63 | the storage slot starts with nothing stored |
| `Analytics.LastNinetyNine` | lib/analytics.ts:65-74 | the last 99 stored events, or all of them when there are fewer |
| `Analytics.Append` | lib/analytics.ts:62-74 | the new event is last, and before it come the events kept by `LastNinetyNine` (the last 99 stored, in order, or all of them when fewer); the log is never empty and never longer than 100 |
| `Analytics.Stamp` | lib/analytics.ts:70 | the event's own timestamp unless it is missing or zero, in which case the clock reading |
| `Analytics.Window` | lib/analytics.ts:65-74 | the last 100 events of a history: a suffix, never longer than 100, the whole history when it is short enough |
| `Analytics.AppendIsWindow` | lib/analytics.ts:59-79 | storing an event keeps the last 100 of the events so far plus the new one, which is last |
| `Analytics.WindowOfWindow` | lib/analytics.ts:65-74 | trimming after every event gives the same log as trimming the whole history once |
| `Analytics.FindIndex` | lib/analytics.ts:118 | the first provider with the name, or none exactly when no provider has it |
| `Analytics.WithProvider` | lib/analytics.ts:117-125 | a provider with the same name is replaced in place; otherwise the provider is appended |
| `Analytics.Names` | lib/analytics.ts:157-167 | the providers' names, in order |
| `Analytics.AddProviderFacts` | lib/analytics.ts:117-125 | the provider is registered; replacing keeps the length and appending adds one; distinct names stay distinct; providers with other names are kept |
| `Analytics.WithoutName` | lib/analytics.ts:130-132 | removal never lengthens the list; which providers stay, and in what order, is stated by `RemoveProviderFacts` and `WithoutNameConcat` |
| `Analytics.RemoveProviderFacts` | lib/analytics.ts:130-132 | exactly the providers with other names are kept; none with the name is left; removing an absent name changes nothing |
| `Analytics.WithoutNameConcat` | lib/analytics.ts:130-132 | removal goes provider by provider: a provider is dropped exactly when it has the name, and removing from a concatenation concatenates the parts, so the kept providers stay in order |
| `Analytics.AddKeepsNames` | lib/analytics.ts:117-125 | after registering, a name is present exactly when it is the new provider's or was present before |
| `Analytics.InitRegisters` | lib/analytics.ts:100-112 | the storage provider is always registered; a "console" provider is present exactly in debug mode or when one was given |
| `Analytics.InitFromNothing` | lib/analytics.ts:100-112 | from no providers, init gives console then storage in debug mode, and storage alone otherwise |
| `Analytics.SharedInstance` | lib/analytics.ts:34-241 | the shared instance registers console and storage in development and storage alone elsewhere; tracking is never on in development |
| `Analytics.SingleStorageWritesOnce` | lib/analytics.ts:157-167 | with one storage provider that does not fail, a tracked event is stored exactly once |
| `Analytics.NoStorageNoWrite` | lib/analytics.ts:157-167 | without a storage provider, tracking stores nothing |
| `Analytics.NoStorageBetween` | lib/analytics.ts:157-167 | providers other than storage, however many, leave the storage slot as it was |
| `Analytics.DefaultState` | lib/analytics.ts:34-39 | tracking is on exactly in production and debug mode exactly in development; no providers, not initialised |
| `Analytics.Service.constructor` | lib/analytics.ts:95-98 | each given setting overrides the default, and init has run on the given providers |
| `Analytics.Service.Init` | lib/analytics.ts:100-112 | a second call changes nothing; the first registers the default providers and marks the instance initialised |
| `Analytics.Service.AddProvider` | lib/analytics.ts:117-125 | only the provider list changes, to the list with the provider registered |
| `Analytics.Service.RemoveProvider` | lib/analytics.ts:130-132 | only the provider list changes, to the list without that name |
| `Analytics.Service.SetEnabled` | lib/analytics.ts:213-215 | only the enabled flag changes |
| `Analytics.Service.Track` | lib/analytics.ts:137-168 | when disabled or not initialised nothing is asked or stored; otherwise every provider is asked in order, and the stored log is the one each storage provider that does not fail leaves behind |
| `Analytics.Service.IdentifyTargets` | lib/analytics.ts:173-189 | no provider when the gate is shut; otherwise exactly the providers that can identify |
| `Analytics.Service.Flush` | lib/analytics.ts:194-208 | exactly the providers that can flush are asked, and the log is what those that do not fail leave behind |
| `Analytics.Service.StoredEvents` | lib/analytics.ts:227-237 | the stored events, or none when nothing was stored |
| `Analytics.IdentifyNames` | lib/analytics.ts:179-188 | exactly the names of the providers that can identify |
| `PromptsAnalytics.FeatureComplexity` | hooks/usePromptsAnalytics.ts:68 | at most 2; zero exactly when the prompt has neither optional field, two exactly when it has both |
| `PromptsAnalytics.ListSizeCategory` | hooks/usePromptsAnalytics.ts:90-92 | empty exactly at 0; small for any other count up to 5, negative ones included; medium from 6 to 20; large above 20 |
| `PromptsAnalytics.ListSizeMonotone` | hooks/usePromptsAnalytics.ts:90-92 | a longer list never falls in a smaller size category |
| `PromptsAnalytics.SessionDuration` | hooks/usePromptsAnalytics.ts:132 | the supplied duration, unless it is missing or zero, in which case the time since the session started |
| `PromptsAnalytics.SessionCategory` | hooks/usePromptsAnalytics.ts:136-137 | quick below 30 s, normal from 30 s to under 120 s, extended from 120 s |
| `PromptsAnalytics.ErrorCategory` | hooks/usePromptsAnalytics.ts:161-162 | server error from 500, client error from 400 to 499, unknown below 400 |
| `PromptsAnalytics.NetworkErrorType` | hooks/usePromptsAnalytics.ts:170-172 | timeout exactly when the message says "timeout"; offline, then fetch failure, exactly when the earlier words are absent; unknown when none is present |
| `PromptsAnalytics.NetworkErrorCases` | hooks/usePromptsAnalytics.ts:170-172 | the test is case-sensitive: "TIMEOUT" is unknown; and "timeout" wins over "fetch" |
| `PromptsAnalytics.ApiPerformanceCategory` | hooks/usePromptsAnalytics.ts:182-184 | fast below 500 ms, normal below 2 s, slow below 5 s, very slow from 5 s |
| `PromptsAnalytics.FormPerformanceCategory` | hooks/usePromptsAnalytics.ts:193-194 | fast below 100 ms, normal below 500 ms, slow from 500 ms |
| `PromptsAnalytics.ErrorType` | hooks/usePromptsAnalytics.ts:151 | "string" for a string, otherwise the error's name, or "Error" when the name is empty |
| `PromptsAnalytics.NewFormKeyNeverFound` | hooks/usePromptsAnalytics.ts:96-109 | the key a submission looks up is never the key of a form opened without an id, whatever the modes and the clock |
| `PromptsAnalytics.SubmitKeyMatches` | hooks/usePromptsAnalytics.ts:96-109 | a submission finds a form opened with an id exactly when the modes agree and the id is the submission's clock reading in decimal |
| `PromptsAnalytics.FormDuration` | hooks/usePromptsAnalytics.ts:108-109 | a duration exactly when a non-zero start time is stored under the key, and then the time since that start |
| `PromptsAnalytics.NewFormHasNoDuration` | hooks/usePromptsAnalytics.ts:96-118 | a form opened as new and then submitted reports no duration |
| `PromptsAnalytics.Session.constructor` | hooks/usePromptsAnalytics.ts:50-52 | the session starts at the clock reading, with no form start times and nothing sent |
| `PromptsAnalytics.Session.ResetSessionTimer` | hooks/usePromptsAnalytics.ts:54-56 | only the session start changes, to the clock reading |
| `PromptsAnalytics.Session.SessionStartTime` | hooks/usePromptsAnalytics.ts:58-60 | the reading the session timer was started or last reset at |
| `PromptsAnalytics.Session.TrackPromptCreated` | hooks/usePromptsAnalytics.ts:63-70 | exactly one creation event is sent, with the feature complexity; nothing else changes |
| `PromptsAnalytics.Session.TrackPromptUpdated` | hooks/usePromptsAnalytics.ts:72-78 | exactly one update event is sent, whose change count is the number of changes; nothing else changes |
| `PromptsAnalytics.Session.TrackPromptDeleted` | hooks/usePromptsAnalytics.ts:80-84 | exactly one deletion event is sent; nothing else changes |
| `PromptsAnalytics.Session.TrackPromptsListViewed` | hooks/usePromptsAnalytics.ts:87-94 | exactly one list event is sent, with the size category; nothing else changes |
| `PromptsAnalytics.Session.TrackPromptFormOpened` | hooks/usePromptsAnalytics.ts:96-104 | the clock reading is stored under the form's key and one form-opened event is sent |
| `PromptsAnalytics.Session.TrackPromptFormSubmitted` | hooks/usePromptsAnalytics.ts:106-118 | exactly one submission event is sent; the key uses the first clock reading and the duration the second; the stored start times are kept |
| `PromptsAnalytics.Session.TrackPromptFormCancelled` | hooks/usePromptsAnalytics.ts:120-124 | exactly one cancellation event is sent; nothing else changes |
| `PromptsAnalytics.Session.TrackPromptsManagerOpened` | hooks/usePromptsAnalytics.ts:126-129 | the session timer restarts at the clock reading and one manager-opened event is sent |
| `PromptsAnalytics.Session.TrackPromptsManagerClosed` | hooks/usePromptsAnalytics.ts:131-139 | exactly one manager-closed event is sent, with the session duration and its category; nothing else changes |
| `PromptsAnalytics.Session.TrackError` | hooks/usePromptsAnalytics.ts:142-154 | exactly one error event is sent, with the error type and severity medium unless given; nothing else changes |
| `PromptsAnalytics.Session.TrackApiError` | hooks/usePromptsAnalytics.ts:155-165 | exactly one API-error event is sent, with the error category; nothing else changes |
| `PromptsAnalytics.Session.TrackNetworkError` | hooks/usePromptsAnalytics.ts:166-175 | exactly one network-error event is sent, with the error type and one attempt unless given; nothing else changes |
| `PromptsAnalytics.Session.TrackApiPerformance` | hooks/usePromptsAnalytics.ts:177-187 | exactly one API-timing event is sent, with its category; nothing else changes |
| `PromptsAnalytics.Session.TrackFormPerformance` | hooks/usePromptsAnalytics.ts:188-197 | exactly one form-timing event is sent, with its category; nothing else changes |
| `PromptsAnalytics.Session.TrackFeatureUsage` | hooks/usePromptsAnalytics.ts:199-205 | exactly one feature event is sent; nothing else changes |
| `PromptsAnalytics.TrackComponentMounted` | hooks/usePromptsAnalytics.ts:249-250 | mounting a wrapped component reports the feature "<name>_mounted" |
| `PromptsAnalytics.OpenThenClose` | hooks/usePromptsAnalytics.ts:126-139 | opening and then closing the manager without a duration reports the time between the two |
| `PromptsAnalytics.NewFormThenSubmit` | hooks/usePromptsAnalytics.ts:96-118 | in a fresh session, a form opened as new and then submitted reports no form duration |

## Left out

- Network and browser I/O: `fetch`, `localStorage`, `console` output, timers and the DOM are not modelled. Replies, clock readings, confirmation answers and provider failures are parameters instead.
- JSON: a body either decodes to the expected shape or fails. A body of `null`, or an entry of `null`, is not modelled, and neither is a list reply whose `prompts` is missing in the store.
- Text: `trim` and the blankness tests use ASCII white space, not every Unicode space of JavaScript's `\s`. `toLowerCase` is ASCII-only, and `localeCompare` is modelled as code-unit order.
- `app/api/prompts/update/[id]/route.ts` is not part of this model. The store and the hook see its replies only as inputs.
- The list and the card take their prompts as defined records. An `undefined` entry appended by a message-only create reply is modelled in the store and the hook, not in the components.
- The manager's `refreshPrompts` call after a successful submit is not composed with the store. Its failure is only logged by the source.
- The manager's keyboard shortcut for the command palette, the sheet's debounced preview, its tab state, and its `handleClose` (a single guarded call to the parent) are not modelled.
- Toast: ids are the clock reading passed in. Removal timers are returned rather than started. Actions are counted, not run. Rendering and exit animations are not modelled.
- AvatarGallery.SortAvatars: the source sorts with JavaScript's stable `sort`. The model uses an insertion sort, and `SortIsUnique` shows that any stable ordering by the comparator gives the same list. Images and their fallback are not modelled.
- Analytics: providers run under `Promise.allSettled`. The model runs them one after another, and a failing provider changes nothing, which is what the source's `try`/`catch` gives. Event properties, `url`, `userAgent`, `identify`'s arguments and `getConfig`'s copy are not modelled. An empty stored string counts as no log.
- Analytics.Service.constructor: the source spreads the default configuration, so `push` in `addProvider` writes into the default object's shared provider array. The model gives each instance its own list, so this aliasing is not captured.
- PromptsAnalytics: events are recorded in the session's `sent` list, which is what the hook hands to the analytics service. The service's own gate is modelled separately in `Analytics.Service.Track`. The optional feature context and the wrapper component's rendering and `displayName` are not modelled.
- NaN: `||` and the `<` comparisons in the bucketing code treat `NaN` in their own way. Durations are integers here, so `NaN` cannot arise.
- PromptTypes.UpdatePromptData: a `name` key that is present with the value `undefined` is not modelled. The name is either absent or a string.
- PromptsAnalytics.TrackComponentMounted: the model states one run of the wrapper's effect. The effect depends on a result object that is new on every render, so in the source it reports after every re-render. The number of renders is not modelled.
