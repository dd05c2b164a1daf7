/** The prompt records of the UI and of the knowledge-base vendor. An optional
    property is an `Option`; a property that is present but `undefined` is `None`,
    which is how every `!== undefined` test and every JSON encoding treats it. */
module PromptTypes {
  import opened Wrappers

  /** The UI record. */
  datatype Prompt = Prompt(
    id: string,
    name: string,
    description: Option<string>,
    openingLine: Option<string>,
    customPrompt: Option<string>)

  /** The vendor create request: `name`, `opening`, `prompt`. */
  datatype CreatePromptRequest = CreatePromptRequest(
    name: string,
    opening: Option<string>,
    prompt: Option<string>)

  /** The vendor partial-update request: every key optional. */
  datatype UpdatePromptRequest = UpdatePromptRequest(
    name: Option<string>,
    opening: Option<string>,
    prompt: Option<string>)

  /** A vendor knowledge-base entry as decoded from JSON. `id` and `name` are
      declared required but nothing checks that before the transform does. The
      vendor's `links`, `meta_data` and timestamps are never read. */
  datatype KnowledgeBase = KnowledgeBase(
    id: Option<string>,
    name: Option<string>,
    description: Option<string>,
    opening: Option<string>,
    prompt: Option<string>)

  /** Three optional UI fields, the argument shape of the validators and of the
      update-request transform. */
  datatype PromptFields = PromptFields(
    name: Option<string>,
    openingLine: Option<string>,
    customPrompt: Option<string>)

  /** The data a client passes to create a prompt: the name is required. */
  datatype CreatePromptData = CreatePromptData(
    name: string,
    openingLine: Option<string>,
    customPrompt: Option<string>)

  /** One property of an object spread over a prompt: `Keep` when the key is
      absent, `Put(v)` when it is present, `v` being `None` for `undefined`. */
  datatype Patch = Keep | Put(value: Option<string>)

  /** The data a client passes to update a prompt. A `name` key present with
      value `undefined` is not modelled, so the name is a plain option. */
  datatype UpdatePromptData = UpdatePromptData(
    name: Option<string>,
    openingLine: Patch,
    customPrompt: Patch)

  function ApplyPatch(current: Option<string>, p: Patch): Option<string> {
    match p
    case Keep => current
    case Put(v) => v
  }

  /** `{ ...original, ...data }`: every key present in `data` overwrites, the
      others keep the original's values. */
  function Merge(original: Prompt, data: UpdatePromptData): Prompt {
    original.(
      name := data.name.GetOr(original.name),
      openingLine := ApplyPatch(original.openingLine, data.openingLine),
      customPrompt := ApplyPatch(original.customPrompt, data.customPrompt))
  }

  /** Spreading data with no keys copies the original. */
  lemma MergeNothing(original: Prompt)
    ensures Merge(original, UpdatePromptData(None, Keep, Keep)) == original
  {
  }

  /** Spreading the same data twice is the same as spreading it once, and the
      spread never changes the id or the description. */
  lemma MergeIdempotent(original: Prompt, data: UpdatePromptData)
    ensures Merge(Merge(original, data), data) == Merge(original, data)
    ensures Merge(original, data).id == original.id
    ensures Merge(original, data).description == original.description
  {
  }
}
