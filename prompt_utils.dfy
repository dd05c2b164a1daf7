/** The server-side helpers shared by the proxy routes: renaming between the UI
    record and the vendor record, partial-update payloads, server validation and
    the two response builders. */
module PromptUtils {
  import opened Wrappers
  import opened Text
  import opened Http
  import opened PromptTypes

  /* ---------------- transforms ---------------- */

  const MissingFieldsMessage := "Invalid knowledge base data: missing required fields"

  /** `transformKnowledgeBaseToPrompt`: throws a plain `Error` when `id` or `name`
      is missing or empty, and otherwise renames `opening` and `prompt`. */
  function TransformKnowledgeBaseToPrompt(kb: KnowledgeBase): (r: Result<Prompt, Thrown>)
    ensures r.Failure? <==> !Truthy(kb.id) || !Truthy(kb.name)
    ensures r.Failure? ==> r.error == ThrownError(OtherErrorKind, "Error", MissingFieldsMessage)
    ensures r.Success? ==>
      && kb.id == Some(r.value.id) && kb.name == Some(r.value.name)
      && r.value.id != "" && r.value.name != ""
      && r.value.description == kb.description
      && r.value.openingLine == kb.opening
      && r.value.customPrompt == kb.prompt
  {
    if !Truthy(kb.id) || !Truthy(kb.name) then
      Failure(ThrownError(OtherErrorKind, "Error", MissingFieldsMessage))
    else
      Success(Prompt(kb.id.value, kb.name.value, kb.description, kb.opening, kb.prompt))
  }

  /** `transformPromptToCreateRequest` */
  function TransformPromptToCreateRequest(data: CreatePromptData): (r: CreatePromptRequest)
    ensures r.name == data.name && r.opening == data.openingLine && r.prompt == data.customPrompt
  {
    CreatePromptRequest(data.name, data.openingLine, data.customPrompt)
  }

  /** `transformPromptToUpdateRequest`: a key is copied exactly when its field is
      not `undefined`, so an empty string is still sent. */
  function TransformPromptToUpdateRequest(fields: PromptFields): (r: UpdatePromptRequest)
    ensures r.name == fields.name && r.opening == fields.openingLine && r.prompt == fields.customPrompt
  {
    UpdatePromptRequest(fields.name, fields.openingLine, fields.customPrompt)
  }

  /** `Object.keys(request)`, in insertion order. */
  function Keys(r: UpdatePromptRequest): seq<string> {
    (if r.name.Some? then ["name"] else [])
    + (if r.opening.Some? then ["opening"] else [])
    + (if r.prompt.Some? then ["prompt"] else [])
  }

  /** `hasUpdates` */
  predicate HasUpdates(r: UpdatePromptRequest): (b: bool)
    ensures b <==> r.name.Some? || r.opening.Some? || r.prompt.Some?
  {
    |Keys(r)| > 0
  }

  /** The update payload holds a key exactly for each defined field (an empty
      string included), each renamed and carrying the field's value. */
  lemma UpdateRequestKeys(fields: PromptFields)
    ensures var r := TransformPromptToUpdateRequest(fields);
      && ("name" in Keys(r) <==> fields.name.Some?)
      && ("opening" in Keys(r) <==> fields.openingLine.Some?)
      && ("prompt" in Keys(r) <==> fields.customPrompt.Some?)
      && (fields.openingLine.Some? ==> r.opening == fields.openingLine)
      && (fields.customPrompt.Some? ==> r.prompt == fields.customPrompt)
  {
  }

  /** There is something to update exactly when at least one field is defined. */
  lemma HasUpdatesIffSomeFieldDefined(fields: PromptFields)
    ensures HasUpdates(TransformPromptToUpdateRequest(fields))
      <==> fields.name.Some? || fields.openingLine.Some? || fields.customPrompt.Some?
  {
  }

  /** Vendor record to UI record and back: a well-formed vendor entry turned into
      a prompt and then into an update or create request carries the entry's own
      name, opening and prompt. */
  lemma KnowledgeBaseRoundTrip(kb: KnowledgeBase)
    requires Truthy(kb.id) && Truthy(kb.name)
    ensures TransformKnowledgeBaseToPrompt(kb).Success?
    ensures var p := TransformKnowledgeBaseToPrompt(kb).value;
      && TransformPromptToUpdateRequest(PromptFields(Some(p.name), p.openingLine, p.customPrompt))
         == UpdatePromptRequest(kb.name, kb.opening, kb.prompt)
      && TransformPromptToCreateRequest(CreatePromptData(p.name, p.openingLine, p.customPrompt))
         == CreatePromptRequest(kb.name.value, kb.opening, kb.prompt)
  {
  }

  /** UI record to vendor record and back: when the vendor stores a create
      request under a non-empty id and lists it, the listed prompt has the
      data's name and optional fields, absent ones still absent. */
  lemma CreateRequestRoundTrip(data: CreatePromptData, id: string)
    requires id != "" && data.name != ""
    ensures var req := TransformPromptToCreateRequest(data);
      var listed := TransformKnowledgeBaseToPrompt(KnowledgeBase(Some(id), Some(req.name), None, req.opening, req.prompt));
      && listed.Success?
      && listed.value == Prompt(id, data.name, None, data.openingLine, data.customPrompt)
  {
  }

  /* ---------------- server validation ---------------- */

  const NameLimit := 100
  const OpeningLineLimit := 1500
  const CustomPromptLimit := 15000

  /** The four server rules, in the order `validatePromptData` checks them. */
  datatype ServerRule = NameEmpty | NameTooLong | OpeningLineTooLong | CustomPromptTooLong
  {
    function Index(): nat {
      match this
      case NameEmpty => 0
      case NameTooLong => 1
      case OpeningLineTooLong => 2
      case CustomPromptTooLong => 3
    }

    function Message(): string {
      match this
      case NameEmpty => "Prompt name cannot be empty"
      case NameTooLong => "Prompt name must be 100 characters or less"
      case OpeningLineTooLong => "Opening line must be 1,500 characters or less"
      case CustomPromptTooLong => "Custom instructions must be 15,000 characters or less"
    }
  }

  /** Whether a rule is broken, decided as the server decides it. */
  predicate Broken(fields: PromptFields, rule: ServerRule) {
    match rule
    case NameEmpty => fields.name.Some? && IsBlank(fields.name.value)
    case NameTooLong => Truthy(fields.name) && |fields.name.value| > NameLimit
    case OpeningLineTooLong => Truthy(fields.openingLine) && |fields.openingLine.value| > OpeningLineLimit
    case CustomPromptTooLong => Truthy(fields.customPrompt) && |fields.customPrompt.value| > CustomPromptLimit
  }

  const AllRules := [NameEmpty, NameTooLong, OpeningLineTooLong, CustomPromptTooLong]

  predicate InRuleOrder(rules: seq<ServerRule>) {
    forall i, j :: 0 <= i < j < |rules| ==> rules[i].Index() < rules[j].Index()
  }

  /** The broken rules among `rules`, in their order. */
  function SelectBroken(fields: PromptFields, rules: seq<ServerRule>): (r: seq<ServerRule>)
    ensures forall rule :: rule in r <==> rule in rules && Broken(fields, rule)
    ensures InRuleOrder(rules) ==> InRuleOrder(r)
  {
    if rules == [] then []
    else
      var rest := SelectBroken(fields, rules[1..]);
      assert InRuleOrder(rules) ==> InRuleOrder(rules[1..]) by {
        if InRuleOrder(rules) {
          forall i, j | 0 <= i < j < |rules[1..]|
            ensures rules[1..][i].Index() < rules[1..][j].Index()
          {
            assert rules[1..][i] == rules[i + 1] && rules[1..][j] == rules[j + 1];
          }
        }
      }
      if Broken(fields, rules[0]) then
        assert InRuleOrder(rules) ==> InRuleOrder([rules[0]] + rest) by {
          if InRuleOrder(rules) {
            forall k | 0 <= k < |rest| ensures rules[0].Index() < rest[k].Index() {
              assert rest[k] in rules[1..];
              var m :| 0 <= m < |rules[1..]| && rules[1..][m] == rest[k];
              assert rules[m + 1] == rest[k];
            }
          }
        }
        [rules[0]] + rest
      else
        rest
  }

  /** The rules `validatePromptData` reports: every rule is checked on its own, so
      all broken rules are reported, in rule order and each once. A length equal to
      its limit passes, and an empty optional string is never rejected. */
  function BrokenRules(fields: PromptFields): (r: seq<ServerRule>)
    ensures forall rule: ServerRule :: rule in r <==> Broken(fields, rule)
    ensures InRuleOrder(r)
  {
    assert forall rule: ServerRule :: rule in AllRules by {
      forall rule: ServerRule ensures rule in AllRules {
        assert AllRules[rule.Index()] == rule;
      }
    }
    SelectBroken(fields, AllRules)
  }

  function Messages(rules: seq<ServerRule>): (r: seq<string>)
    ensures |r| == |rules|
    ensures forall i :: 0 <= i < |rules| ==> r[i] == rules[i].Message()
  {
    seq(|rules|, i requires 0 <= i < |rules| => rules[i].Message())
  }

  /** `validatePromptData`: the messages of the broken rules, in rule order. */
  function ValidatePromptData(fields: PromptFields): (r: seq<string>)
    ensures forall rule: ServerRule :: rule.Message() in r <==> Broken(fields, rule)
  {
    var rules := BrokenRules(fields);
    var r := Messages(rules);
    assert forall rule: ServerRule :: rule.Message() in r <==> rule in rules by {
      forall rule: ServerRule ensures rule.Message() in r <==> rule in rules {
        if rule.Message() in r {
          var k :| 0 <= k < |r| && r[k] == rule.Message();
          MessageIdentifiesRule(rules[k], rule);
        }
        if rule in rules {
          var k :| 0 <= k < |rules| && rules[k] == rule;
          assert r[k] == rule.Message();
        }
      }
    }
    r
  }

  /** No two rules share a message: the four messages have different lengths. */
  lemma MessageIdentifiesRule(a: ServerRule, b: ServerRule)
    requires a.Message() == b.Message()
    ensures a == b
  {
    var lengths := [27, 42, 45, 53];
    assert |a.Message()| == lengths[a.Index()];
    assert |b.Message()| == lengths[b.Index()];
  }

  /** What the server accepts, rule by rule. */
  predicate ServerAccepts(fields: PromptFields) {
    && (fields.name.None? || (!IsBlank(fields.name.value) && |fields.name.value| <= NameLimit))
    && (fields.openingLine.None? || |fields.openingLine.value| <= OpeningLineLimit)
    && (fields.customPrompt.None? || |fields.customPrompt.value| <= CustomPromptLimit)
  }

  /** The server reports nothing exactly when every rule holds. */
  lemma ValidatePromptDataEmptyIff(fields: PromptFields)
    ensures ValidatePromptData(fields) == [] <==> ServerAccepts(fields)
  {
    assert |ValidatePromptData(fields)| == |BrokenRules(fields)|;
    AcceptsIffNothingBroken(fields);
  }

  lemma AcceptsIffNothingBroken(fields: PromptFields)
    ensures BrokenRules(fields) == [] <==> ServerAccepts(fields)
  {
    var rules := BrokenRules(fields);
    if rules == [] {
      assert NameEmpty !in rules && NameTooLong !in rules;
      assert OpeningLineTooLong !in rules && CustomPromptTooLong !in rules;
    } else {
      assert Broken(fields, rules[0]);
    }
  }

  /** A name of more than 100 white-space characters breaks both name rules, and
      nothing else is reported for it. */
  lemma BlankLongNameBreaksBothRules(name: string)
    requires |name| > NameLimit
    requires forall i :: 0 <= i < |name| ==> IsSpace(name[i])
    ensures ValidatePromptData(PromptFields(Some(name), None, None))
      == [NameEmpty.Message(), NameTooLong.Message()]
  {
    TrimmedEmptyIffBlank(name);
    var fields := PromptFields(Some(name), None, None);
    assert SelectBroken(fields, AllRules[2..]) == [] by {
      assert SelectBroken(fields, AllRules[3..]) == [] by {
        assert AllRules[3..][1..] == [];
      }
      assert AllRules[2..][1..] == AllRules[3..];
    }
    assert AllRules[1..][1..] == AllRules[2..];
    assert AllRules[1..] == [NameTooLong] + AllRules[2..];
    assert SelectBroken(fields, AllRules[1..]) == [NameTooLong];
    assert BrokenRules(fields) == [NameEmpty, NameTooLong];
  }

  /* ---------------- response builders ---------------- */

  /** The JSON bodies the routes send. */
  datatype Body =
    | ErrorBody(error: string)
    | PromptsBody(prompts: seq<Prompt>)
    | PromptBody(prompt: Prompt)
    | MessageBody(message: string)

  /** A route reply: status, JSON body and headers. */
  datatype HttpResponse = HttpResponse(status: int, body: Body, headers: map<string, string>)

  const JsonContentType := map["Content-Type" := "application/json"]
  const PrivateOneMinute := "private, max-age=60"

  /** `createErrorResponse`: `{ error }` with the JSON content type only. */
  function CreateErrorResponse(message: string, status: int): (r: HttpResponse)
    ensures r.status == status && r.body == ErrorBody(message)
    ensures r.headers.Keys == {"Content-Type"} && r.headers["Content-Type"] == "application/json"
  {
    HttpResponse(status, ErrorBody(message), JsonContentType)
  }

  /** `createSuccessResponse`: the body as given, cacheable privately for a minute
      (the `private` and `max-age` directives of section 5.2.2 of RFC 9111). */
  function CreateSuccessResponse(data: Body, status: int): (r: HttpResponse)
    ensures r.status == status && r.body == data
    ensures r.headers.Keys == {"Content-Type", "Cache-Control"}
    ensures r.headers["Content-Type"] == "application/json" && r.headers["Cache-Control"] == PrivateOneMinute
  {
    HttpResponse(status, data, JsonContentType["Cache-Control" := PrivateOneMinute])
  }

  predicate Cacheable(r: HttpResponse) {
    "Cache-Control" in r.headers && r.headers["Cache-Control"] == PrivateOneMinute
  }

  /** Success replies carry the private one-minute cache header and error replies
      carry no cache header at all; both are JSON. */
  lemma CacheHeaderOnlyOnSuccess(data: Body, message: string, status: int)
    ensures Cacheable(CreateSuccessResponse(data, status))
    ensures "Cache-Control" !in CreateErrorResponse(message, status).headers
    ensures CreateSuccessResponse(data, status).headers["Content-Type"] == "application/json"
    ensures CreateErrorResponse(message, status).headers["Content-Type"] == "application/json"
  {
  }
}
