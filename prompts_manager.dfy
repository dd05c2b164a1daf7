/** The prompt manager's state machine: which tab is shown, which prompt is
    being edited, whether a submission is in flight, and whether the sheet is
    open and in which mode. `window.confirm` answers are boolean inputs, the
    toasts the handlers raise are their results, and the store calls they make
    are split off: a `Begin` step returns the arguments of the call, and a
    `Complete` step takes its outcome. */
module PromptsManager {
  import opened Wrappers
  import opened Text
  import opened Http
  import opened PromptTypes
  import opened PromptSlots
  import opened EngineeringSheet
  import PromptUtils

  /** `TabType` */
  datatype Tab = ListTab | CreateTab | EditTab

  /** A toast raised through `usePromptToasts`. */
  datatype Notice = CreatedToast(name: string) | UpdatedToast(name: string) | ErrorToast(message: string)

  const PleaseWait := "Please wait for the current operation to complete."
  const NoPromptSelected := "No prompt selected for editing. Please select a prompt from the list."
  const InvalidPromptSelected := "Invalid prompt selected. Please try again."
  const NameRequiredNotice := "Prompt name is required."
  const CreatedWithoutData := "Prompt creation completed but returned no data. The prompt may have been created successfully."
  const DuplicateName := "A prompt with this name already exists. Please choose a different name."
  const PromptLimitReached := "You have reached your prompt limit. Please upgrade your plan or delete unused prompts."
  const NetworkNotice := "Network error. Please check your connection and try again."
  const CannotCreate := "You don't have permission to create prompts. Please check your API key."
  const CreateFailed := "Failed to create prompt. Please try again."
  const SessionExpired := "Edit session expired. Please try selecting the prompt again."
  const UpdatedWithoutData := "Update completed but returned no data. The prompt may have been updated successfully."
  const PromptDeleted := "This prompt no longer exists. It may have been deleted."
  const CannotUpdate := "You don't have permission to update this prompt. Please check your API key."
  const UpdateFailed := "Failed to update prompt. Please try again."

  /** The arguments `handleCreateSubmit` passes to `createPrompt`: the trimmed
      name, and each optional field trimmed, or `undefined` when that leaves
      nothing. */
  function CreateArguments(data: FormData): (r: CreatePromptData)
    ensures r.name == Trim(data.name)
    ensures r.openingLine.None? <==> IsBlank(data.openingLine)
    ensures r.openingLine.Some? ==> r.openingLine.value == Trim(data.openingLine)
    ensures r.customPrompt.None? <==> IsBlank(data.customPrompt)
    ensures r.customPrompt.Some? ==> r.customPrompt.value == Trim(data.customPrompt)
  {
    CreatePromptData(
      Trim(data.name),
      if IsBlank(data.openingLine) then None else Some(Trim(data.openingLine)),
      if IsBlank(data.customPrompt) then None else Some(Trim(data.customPrompt)))
  }

  /** What the create route validates for those arguments. */
  function CreateFields(args: CreatePromptData): PromptFields {
    PromptFields(Some(args.name), args.openingLine, args.customPrompt)
  }

  /** The arguments `handleUpdateSubmit` passes to `updatePrompt`: the name as
      typed, and each optional field as typed, an empty one as a key that is
      present with the value `undefined`. */
  function UpdateArguments(data: FormData): (r: UpdatePromptData)
    ensures r.name == Some(data.name)
    ensures r.openingLine == Put(if data.openingLine == "" then None else Some(data.openingLine))
    ensures r.customPrompt == Put(if data.customPrompt == "" then None else Some(data.customPrompt))
  {
    UpdatePromptData(
      Some(data.name),
      Put(if data.openingLine == "" then None else Some(data.openingLine)),
      Put(if data.customPrompt == "" then None else Some(data.customPrompt)))
  }

  /** The toast for a failed `createPrompt` call: an `Error` is classified by
      the words of its message, in this order; any other value gets the
      generic sentence. */
  function CreateFailureText(e: Thrown): (r: string)
    ensures !e.ThrownError? ==> r == CreateFailed
    ensures e.ThrownError? && (Contains(e.message, "duplicate") || Contains(e.message, "already exists"))
      ==> r == DuplicateName
    ensures (&& e.ThrownError?
             && !(Contains(e.message, "duplicate") || Contains(e.message, "already exists"))
             && (Contains(e.message, "quota") || Contains(e.message, "limit")))
      ==> r == PromptLimitReached
    ensures e.ThrownError? && !Contains(e.message, "duplicate") && !Contains(e.message, "already exists")
      && !Contains(e.message, "quota") && !Contains(e.message, "limit")
      && !Contains(e.message, "network") && !Contains(e.message, "fetch")
      && !Contains(e.message, "permission") && !Contains(e.message, "401") && !Contains(e.message, "403")
      ==> r == e.message
  {
    if !e.ThrownError? then CreateFailed
    else
      var m := e.message;
      if Contains(m, "duplicate") || Contains(m, "already exists") then DuplicateName
      else if Contains(m, "quota") || Contains(m, "limit") then PromptLimitReached
      else if Contains(m, "network") || Contains(m, "fetch") then NetworkNotice
      else if Contains(m, "permission") || Contains(m, "401") || Contains(m, "403") then CannotCreate
      else m
  }

  /** An update error whose message says the prompt is gone. */
  predicate PromptGone(e: Thrown) {
    e.ThrownError? && (Contains(e.message, "not found") || Contains(e.message, "404"))
  }

  /** The toast for a failed `updatePrompt` call. */
  function UpdateFailureText(e: Thrown): (r: string)
    ensures !e.ThrownError? ==> r == UpdateFailed
    ensures PromptGone(e) ==> r == PromptDeleted
    ensures e.ThrownError? && !PromptGone(e)
      && !Contains(e.message, "network") && !Contains(e.message, "fetch")
      && !Contains(e.message, "permission") && !Contains(e.message, "401") && !Contains(e.message, "403")
      ==> r == e.message
  {
    if !e.ThrownError? then UpdateFailed
    else
      var m := e.message;
      if Contains(m, "not found") || Contains(m, "404") then PromptDeleted
      else if Contains(m, "network") || Contains(m, "fetch") then NetworkNotice
      else if Contains(m, "permission") || Contains(m, "401") || Contains(m, "403") then CannotUpdate
      else m
  }

  /** The `updatePrompt` call `handleUpdateSubmit` makes. */
  datatype UpdateCall = UpdateCall(id: string, data: UpdatePromptData)

  /** A snapshot of the manager's state. */
  datatype ManagerState = ManagerState(
    activeTab: Tab,
    editingPrompt: Option<Prompt>,
    isSubmitting: bool,
    commandOpen: bool,
    sheetOpen: bool,
    sheetMode: Mode)

  class Manager {
    const defaultTab: Tab
    var activeTab: Tab
    var editingPrompt: Option<Prompt>
    var isSubmitting: bool
    var commandOpen: bool
    var sheetOpen: bool
    var sheetMode: Mode

    function State(): ManagerState
      reads this
    {
      ManagerState(activeTab, editingPrompt, isSubmitting, commandOpen, sheetOpen, sheetMode)
    }

    /** The default tab is `list` or `create`, `list` when not given. */
    constructor(defaultTab: Tab)
      requires defaultTab != EditTab
      ensures this.defaultTab == defaultTab
      ensures State() == ManagerState(defaultTab, None, false, false, false, CreateMode)
    {
      this.defaultTab := defaultTab;
      activeTab := defaultTab;
      editingPrompt := None;
      isSubmitting := false;
      commandOpen := false;
      sheetOpen := false;
      sheetMode := CreateMode;
    }

    /** `handleTabChange(tab)`. Nothing moves while a submission is in flight;
        leaving the edit tab needs a confirmation; the edit tab without a
        prompt falls back to the list; any other completed switch drops the
        prompt being edited. */
    method HandleTabChange(tab: Tab, confirm: bool) returns (notice: Option<Notice>)
      modifies this
      ensures old(isSubmitting) ==> notice == Some(ErrorToast(PleaseWait)) && State() == old(State())
      ensures (!old(isSubmitting) && old(activeTab) == EditTab && tab != EditTab
               && old(editingPrompt).Some? && !confirm) ==> notice == None && State() == old(State())
      ensures !old(isSubmitting) && tab == EditTab && old(editingPrompt).None? ==>
        notice == Some(ErrorToast(NoPromptSelected)) && State() == old(State()).(activeTab := ListTab)
      ensures !old(isSubmitting) && tab == EditTab && old(editingPrompt).Some? ==>
        notice == None && State() == old(State()).(activeTab := EditTab)
      ensures (!old(isSubmitting) && tab != EditTab
               && (old(activeTab) != EditTab || old(editingPrompt).None? || confirm)) ==>
        notice == None && State() == old(State()).(activeTab := tab, editingPrompt := None)
    {
      if isSubmitting {
        return Some(ErrorToast(PleaseWait));
      }
      if activeTab == EditTab && tab != EditTab && editingPrompt.Some? && !confirm {
        return None;
      }
      if tab == EditTab && editingPrompt.None? {
        activeTab := ListTab;
        return Some(ErrorToast(NoPromptSelected));
      }
      activeTab := tab;
      if tab != EditTab {
        editingPrompt := None;
      }
      notice := None;
    }

    /** `handleEditPrompt(prompt)`: a missing prompt or one without an id is
        refused; switching from another prompt needs a confirmation; otherwise
        the sheet opens in edit mode on that prompt. */
    method HandleEditPrompt(prompt: Option<Prompt>, confirm: bool) returns (notice: Option<Notice>)
      modifies this
      ensures old(isSubmitting) ==> notice == Some(ErrorToast(PleaseWait)) && State() == old(State())
      ensures !old(isSubmitting) && (prompt.None? || prompt.value.id == "") ==>
        notice == Some(ErrorToast(InvalidPromptSelected)) && State() == old(State())
      ensures !old(isSubmitting) && prompt.Some? && prompt.value.id != "" ==>
        notice == None
        && var switching := old(editingPrompt).Some? && old(editingPrompt).value.id != prompt.value.id;
        && (switching && !confirm ==> State() == old(State()))
        && (!switching || confirm ==>
              State() == old(State()).(editingPrompt := prompt, sheetMode := EditMode, sheetOpen := true))
    {
      if isSubmitting {
        return Some(ErrorToast(PleaseWait));
      }
      if prompt.None? || prompt.value.id == "" {
        return Some(ErrorToast(InvalidPromptSelected));
      }
      notice := None;
      if editingPrompt.Some? && editingPrompt.value.id != prompt.value.id && !confirm {
        return;
      }
      editingPrompt := prompt;
      sheetMode := EditMode;
      sheetOpen := true;
    }

    /** `handleCreateSubmit` up to its `createPrompt` call: a blank name is
        refused before any call; otherwise the submission starts with the
        shaped arguments. */
    method BeginCreateSubmit(data: FormData) returns (args: Option<CreatePromptData>, notice: Option<Notice>)
      modifies this
      ensures IsBlank(data.name) ==>
        args == None && notice == Some(ErrorToast(NameRequiredNotice)) && State() == old(State())
      ensures !IsBlank(data.name) ==>
        args == Some(CreateArguments(data)) && notice == None
        && State() == old(State()).(isSubmitting := true)
    {
      if IsBlank(data.name) {
        return None, Some(ErrorToast(NameRequiredNotice));
      }
      isSubmitting := true;
      args, notice := Some(CreateArguments(data)), None;
    }

    /** `handleCreateSubmit` from the reply of `createPrompt` on. A prompt goes
        back to the list with a success toast; an `undefined` result (the
        store's result for a failure, or for a 201 without a prompt) also goes
        back to the list, with a warning; a thrown value is announced and
        rethrown. The submission ends in every case. */
    method CompleteCreateSubmit(outcome: Result<Slot, Thrown>) returns (notice: Notice, rethrown: Option<Thrown>)
      modifies this
      ensures outcome.Success? && outcome.value.Some? ==>
        notice == CreatedToast(outcome.value.value.name) && rethrown == None
        && State() == old(State()).(activeTab := ListTab, isSubmitting := false)
      ensures outcome.Success? && outcome.value.None? ==>
        notice == ErrorToast(CreatedWithoutData) && rethrown == None
        && State() == old(State()).(activeTab := ListTab, isSubmitting := false)
      ensures outcome.Failure? ==>
        notice == ErrorToast(CreateFailureText(outcome.error)) && rethrown == Some(outcome.error)
        && State() == old(State()).(isSubmitting := false)
    {
      match outcome {
        case Success(slot) =>
          rethrown := None;
          activeTab := ListTab;
          notice := if slot.Some? then CreatedToast(slot.value.name) else ErrorToast(CreatedWithoutData);
        case Failure(e) =>
          rethrown := Some(e);
          notice := ErrorToast(CreateFailureText(e));
      }
      isSubmitting := false;
    }

    /** `handleUpdateSubmit` up to its `updatePrompt` call: without a prompt
        being edited, or with one whose id is blank, nothing is called and the
        list is shown. */
    method BeginUpdateSubmit(data: FormData) returns (call: Option<UpdateCall>, notice: Option<Notice>)
      modifies this
      ensures old(editingPrompt).None? ==>
        call == None && notice == Some(ErrorToast(SessionExpired))
        && State() == old(State()).(activeTab := ListTab)
      ensures old(editingPrompt).Some? && IsBlank(old(editingPrompt).value.id) ==>
        call == None && notice == Some(ErrorToast(InvalidPromptSelected))
        && State() == old(State()).(activeTab := ListTab)
      ensures old(editingPrompt).Some? && !IsBlank(old(editingPrompt).value.id) ==>
        call == Some(UpdateCall(old(editingPrompt).value.id, UpdateArguments(data))) && notice == None
        && State() == old(State()).(isSubmitting := true)
    {
      match editingPrompt {
        case None =>
          activeTab := ListTab;
          call, notice := None, Some(ErrorToast(SessionExpired));
        case Some(p) =>
          if IsBlank(p.id) {
            activeTab := ListTab;
            call, notice := None, Some(ErrorToast(InvalidPromptSelected));
            assert State() == old(State()).(activeTab := ListTab);
          } else {
            isSubmitting := true;
            call, notice := Some(UpdateCall(p.id, UpdateArguments(data))), None;
            assert State() == old(State()).(isSubmitting := true);
          }
      }
    }

    /** `handleUpdateSubmit` from the reply of `updatePrompt` on: a result, even
        `undefined`, ends the edit; an error that says the prompt is gone ends
        it too; other errors keep it. Thrown values are rethrown. */
    method CompleteUpdateSubmit(outcome: Result<Slot, Thrown>) returns (notice: Notice, rethrown: Option<Thrown>)
      modifies this
      ensures outcome.Success? && outcome.value.Some? ==>
        notice == UpdatedToast(outcome.value.value.name) && rethrown == None
        && State() == old(State()).(activeTab := ListTab, editingPrompt := None, isSubmitting := false)
      ensures outcome.Success? && outcome.value.None? ==>
        notice == ErrorToast(UpdatedWithoutData) && rethrown == None
        && State() == old(State()).(activeTab := ListTab, editingPrompt := None, isSubmitting := false)
      ensures outcome.Failure? && PromptGone(outcome.error) ==>
        notice == ErrorToast(PromptDeleted) && rethrown == Some(outcome.error)
        && State() == old(State()).(activeTab := ListTab, editingPrompt := None, isSubmitting := false)
      ensures outcome.Failure? && !PromptGone(outcome.error) ==>
        notice == ErrorToast(UpdateFailureText(outcome.error)) && rethrown == Some(outcome.error)
        && State() == old(State()).(isSubmitting := false)
    {
      match outcome {
        case Success(slot) =>
          rethrown := None;
          activeTab := ListTab;
          editingPrompt := None;
          notice := if slot.Some? then UpdatedToast(slot.value.name) else ErrorToast(UpdatedWithoutData);
        case Failure(e) =>
          rethrown := Some(e);
          notice := ErrorToast(UpdateFailureText(e));
          if PromptGone(e) {
            activeTab := ListTab;
            editingPrompt := None;
          }
      }
      isSubmitting := false;
    }

    /** `handleClose()`: refused while submitting, and, on the edit tab with a
        prompt, unless confirmed. A close resets the tab to the default, drops
        the prompt being edited and closes the command palette. */
    method HandleClose(confirm: bool) returns (closed: bool, notice: Option<Notice>)
      modifies this
      ensures old(isSubmitting) ==>
        !closed && notice == Some(ErrorToast(PleaseWait)) && State() == old(State())
      ensures !old(isSubmitting) && old(activeTab) == EditTab && old(editingPrompt).Some? && !confirm ==>
        !closed && notice == None && State() == old(State())
      ensures !old(isSubmitting) && (old(activeTab) != EditTab || old(editingPrompt).None? || confirm) ==>
        closed && notice == None
        && State() == old(State()).(activeTab := defaultTab, editingPrompt := None, commandOpen := false)
    {
      if isSubmitting {
        return false, Some(ErrorToast(PleaseWait));
      }
      notice := None;
      if activeTab == EditTab && editingPrompt.Some? && !confirm {
        return false, None;
      }
      activeTab := defaultTab;
      editingPrompt := None;
      commandOpen := false;
      closed := true;
    }

    /** `handleSheetSubmit(data)`: the submission is routed by the sheet's mode;
        unless the handler rethrows, the sheet closes and the prompt being
        edited is dropped, even when the handler refused the data without
        calling the store. `outcome` is what the store call settles to, when
        one is made. */
    method HandleSheetSubmit(data: FormData, outcome: Result<Slot, Thrown>)
      returns (notices: seq<Notice>, rethrown: Option<Thrown>)
      modifies this
      ensures !isSubmitting && |notices| == 1
      ensures rethrown.None? ==> !sheetOpen && editingPrompt.None?
      ensures rethrown.Some? ==> outcome.Failure? && rethrown == Some(outcome.error) && sheetOpen == old(sheetOpen)
      // create mode: a blank name is refused and the sheet still closes
      ensures old(sheetMode) == CreateMode && IsBlank(data.name) ==>
        notices == [ErrorToast(NameRequiredNotice)] && rethrown == None
        && State() == old(State()).(editingPrompt := None, sheetOpen := false, isSubmitting := false)
      ensures old(sheetMode) == CreateMode && !IsBlank(data.name) && outcome.Success? ==>
        notices == [if outcome.value.Some? then CreatedToast(outcome.value.value.name)
                    else ErrorToast(CreatedWithoutData)]
        && rethrown == None
        && State() == old(State()).(activeTab := ListTab, editingPrompt := None, sheetOpen := false,
                                    isSubmitting := false)
      ensures old(sheetMode) == CreateMode && !IsBlank(data.name) && outcome.Failure? ==>
        notices == [ErrorToast(CreateFailureText(outcome.error))] && rethrown == Some(outcome.error)
        && State() == old(State()).(isSubmitting := false)
      // edit mode: no prompt, or a blank id, is refused and the sheet still closes
      ensures old(sheetMode) == EditMode && old(editingPrompt).None? ==>
        rethrown == None && notices == [ErrorToast(SessionExpired)]
        && State() == old(State()).(activeTab := ListTab, sheetOpen := false, isSubmitting := false)
      ensures old(sheetMode) == EditMode && old(editingPrompt).Some? && IsBlank(old(editingPrompt).value.id) ==>
        rethrown == None && notices == [ErrorToast(InvalidPromptSelected)]
        && State() == old(State()).(activeTab := ListTab, editingPrompt := None, sheetOpen := false,
                                    isSubmitting := false)
      ensures (old(sheetMode) == EditMode && old(editingPrompt).Some? && !IsBlank(old(editingPrompt).value.id)
               && outcome.Success?) ==>
        notices == [if outcome.value.Some? then UpdatedToast(outcome.value.value.name)
                    else ErrorToast(UpdatedWithoutData)]
        && rethrown == None
        && State() == old(State()).(activeTab := ListTab, editingPrompt := None, sheetOpen := false,
                                    isSubmitting := false)
      ensures (old(sheetMode) == EditMode && old(editingPrompt).Some? && !IsBlank(old(editingPrompt).value.id)
               && outcome.Failure? && PromptGone(outcome.error)) ==>
        notices == [ErrorToast(PromptDeleted)] && rethrown == Some(outcome.error)
        && State() == old(State()).(activeTab := ListTab, editingPrompt := None, isSubmitting := false)
      ensures (old(sheetMode) == EditMode && old(editingPrompt).Some? && !IsBlank(old(editingPrompt).value.id)
               && outcome.Failure? && !PromptGone(outcome.error)) ==>
        notices == [ErrorToast(UpdateFailureText(outcome.error))] && rethrown == Some(outcome.error)
        && State() == old(State()).(isSubmitting := false)
    {
      isSubmitting := true;
      rethrown := None;
      var notice: Notice;
      if sheetMode == CreateMode {
        var args, refused := BeginCreateSubmit(data);
        if args.Some? {
          notice, rethrown := CompleteCreateSubmit(outcome);
        } else {
          notice := refused.value;
        }
      } else {
        var call, refused := BeginUpdateSubmit(data);
        if call.Some? {
          notice, rethrown := CompleteUpdateSubmit(outcome);
        } else {
          notice := refused.value;
        }
      }
      notices := [notice];
      if rethrown.None? {
        sheetOpen := false;
        editingPrompt := None;
      }
      isSubmitting := false;
    }

    /** `handleNewPromptClick`: the sheet opens empty, in create mode. */
    method HandleNewPromptClick()
      modifies this
      ensures State() == old(State()).(sheetMode := CreateMode, editingPrompt := None, sheetOpen := true)
    {
      sheetMode := CreateMode;
      editingPrompt := None;
      sheetOpen := true;
    }

    /** `handleSheetClose(open)`: a close drops the prompt being edited. */
    method HandleSheetClose(open: bool)
      modifies this
      ensures open ==> State() == old(State()).(sheetOpen := true)
      ensures !open ==> State() == old(State()).(sheetOpen := false, editingPrompt := None)
    {
      sheetOpen := open;
      if !open {
        editingPrompt := None;
      }
    }
  }

  /** A form the sheet accepts yields create arguments the create route
      accepts: the sheet's limits are the server's, and trimming only
      shortens. */
  lemma SheetFormPassesCreateRoute(data: FormData)
    requires data.WithinLimits() && FormErrors(data) == map[]
    ensures !IsBlank(data.name)
    ensures PromptUtils.ServerAccepts(CreateFields(CreateArguments(data)))
  {
    SubmittedFormPassesServer(data);
    assert Name !in FormErrors(data);
    TrimIdempotent(data.openingLine);
    TrimIdempotent(data.customPrompt);
  }

  /** Opening the sheet on a prompt and submitting it unchanged makes the
      optimistic entry equal to the prompt, provided none of its optional
      fields is the empty string (an empty one comes back as `undefined`). */
  lemma UnchangedEditRoundTrip(p: Prompt)
    requires p.openingLine != Some("") && p.customPrompt != Some("")
    ensures Merge(p, UpdateArguments(InitialForm(EditMode, Some(p)))) == p
  {
  }

  /** Emptying an optional field in the sheet erases it from the optimistic
      entry, because the key is sent with the value `undefined`. */
  lemma EmptiedFieldIsErased(p: Prompt, data: FormData)
    ensures data.openingLine == "" ==> Merge(p, UpdateArguments(data)).openingLine == None
    ensures data.customPrompt == "" ==> Merge(p, UpdateArguments(data)).customPrompt == None
    ensures Merge(p, UpdateArguments(data)).name == data.name
  {
  }
}
