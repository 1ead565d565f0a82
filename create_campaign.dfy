/**
 * The campaign-creation form: the ordered list of segment rules and how it
 * is edited, the operator choices offered for a field, the audience preview,
 * the audience description sent to message generation, and the submit
 * handler's validation cascade and create payload.
 */
module CreateCampaign {
  import opened Base
  import opened Text
  import opened Js

  /** One segment rule; every part is the text the rule's form controls hold. */
  datatype Rule = Rule(field: string, operator: string, value: string, logicOperator: string)

  /** The four keys `handleRuleChange` is called with. */
  datatype RuleKey = FieldKey | OperatorKey | ValueKey | LogicOperatorKey

  /** The rule the form starts with. */
  const InitialRule := Rule("tags", "equals", "", "AND")

  /** The rule "Add Rule" appends; its field is `name`, which the field select does not offer. */
  const AddedRule := Rule("name", "equals", "", "AND")

  /** `{ ...rule, [key]: text }`. */
  function SetKey(rule: Rule, key: RuleKey, text: string): (r: Rule)
    ensures r.field == (if key == FieldKey then text else rule.field)
    ensures r.operator == (if key == OperatorKey then text else rule.operator)
    ensures r.value == (if key == ValueKey then text else rule.value)
    ensures r.logicOperator == (if key == LogicOperatorKey then text else rule.logicOperator)
  {
    match key
    case FieldKey => rule.(field := text)
    case OperatorKey => rule.(operator := text)
    case ValueKey => rule.(value := text)
    case LogicOperatorKey => rule.(logicOperator := text)
  }

  /** The rule list after `handleRuleChange(index, key, text)`. */
  function ChangeRule(rules: seq<Rule>, index: nat, key: RuleKey, text: string): (r: seq<Rule>)
    requires index < |rules|
    ensures |r| == |rules|
    ensures r[index] == SetKey(rules[index], key, text)
    ensures forall j :: 0 <= j < |rules| && j != index ==> r[j] == rules[j]
  {
    rules[index := SetKey(rules[index], key, text)]
  }

  /** The rule list after `addRule`. */
  function WithAddedRule(rules: seq<Rule>): (r: seq<Rule>)
    ensures |r| == |rules| + 1
    ensures r[..|rules|] == rules
    ensures r[|rules|] == AddedRule
  {
    rules + [AddedRule]
  }

  /** The rule list after `removeRule(index)`: `splice(index, 1)`, which ignores an index past the end. */
  function RemoveAt(rules: seq<Rule>, index: nat): (r: seq<Rule>)
    ensures index < |rules| ==> |r| == |rules| - 1
    ensures index >= |rules| ==> r == rules
    ensures forall j :: 0 <= j < index && j < |r| ==> r[j] == rules[j]
    ensures index < |rules| ==> forall j :: index <= j < |r| ==> r[j] == rules[j + 1]
    ensures index < |rules| ==> multiset(r) + multiset{rules[index]} == multiset(rules)
  {
    if index < |rules| then
      assert rules == rules[..index] + [rules[index]] + rules[index + 1..];
      rules[..index] + rules[index + 1..]
    else rules
  }

  /** Changing a rule's field keeps its operator, even one the new field does not offer. */
  lemma FieldChangeKeepsOperator(rules: seq<Rule>, index: nat, text: string)
    requires index < |rules|
    ensures ChangeRule(rules, index, FieldKey, text)[index].operator == rules[index].operator
  {
  }

  lemma FieldChangeLeavesForeignOperator()
    ensures var r := ChangeRule([Rule("totalSpendings", "greaterThan", "100", "AND")], 0, FieldKey, "tags");
            r[0].operator == "greaterThan" && "greaterThan" !in Values(OperatorOptions(r[0].field))
  {
  }

  /** One entry of a select: the option's value and its caption. */
  datatype Choice = Choice(value: string, caption: string)

  function Values(options: seq<Choice>): (r: seq<string>)
    ensures |r| == |options|
    ensures forall i :: 0 <= i < |options| ==> r[i] == options[i].value
  {
    seq(|options|, i requires 0 <= i < |options| => options[i].value)
  }

  /** The fields the rule's field select offers. */
  function FieldOptions(): (r: seq<Choice>)
    ensures Values(r) == ["tags", "totalSpendings", "location"]
  {
    [Choice("tags", "Tags"), Choice("totalSpendings", "Total Spendings"), Choice("location", "Location")]
  }

  /** The rule a new rule gets has a field the select does not list. */
  lemma AddedRuleFieldNotOffered()
    ensures AddedRule.field !in Values(FieldOptions())
    ensures InitialRule.field in Values(FieldOptions())
  {
  }

  /** The operators offered for a field: numeric ones for `totalSpendings`, text ones for any other field. */
  function OperatorOptions(field: string): (r: seq<Choice>)
    ensures field == "totalSpendings" ==> Values(r) == ["equals", "greaterThan", "lessThan"]
    ensures field != "totalSpendings" ==> Values(r) == ["equals", "contains", "startsWith", "endsWith"]
  {
    if field == "totalSpendings" then
      [Choice("equals", "Equals"), Choice("greaterThan", "Greater Than"), Choice("lessThan", "Less Than")]
    else
      [Choice("equals", "Equals"), Choice("contains", "Contains"),
       Choice("startsWith", "Starts With"), Choice("endsWith", "Ends With")]
  }

  /** `equals` is the only operator both sets share. */
  lemma OperatorSetsOverlapInEquals(op: string)
    ensures (op in Values(OperatorOptions("totalSpendings")) && op in Values(OperatorOptions("tags")))
            <==> op == "equals"
  {
    assert Values(OperatorOptions("totalSpendings")) == ["equals", "greaterThan", "lessThan"];
    assert Values(OperatorOptions("tags")) == ["equals", "contains", "startsWith", "endsWith"];
  }

  // ---------------------------------------------------------------------
  // What the rule editor lets a user do.

  /** A click on a control of the rule editor. */
  datatype RuleAction = Edit(index: nat, key: RuleKey, text: string) | Add | Remove(index: nat)

  /**
   * Whether the control for the action is on screen: every rule row has
   * its field and operator selects and its value input, the logic select
   * only from the second row on, "Add Rule" is always there, and the
   * remove button is rendered only while there is more than one rule.
   */
  predicate Offered(rules: seq<Rule>, action: RuleAction) {
    match action
    case Edit(i, k, _) => i < |rules| && (k == LogicOperatorKey ==> i > 0)
    case Add => true
    case Remove(i) => |rules| > 1 && i < |rules|
  }

  /** One action; a control that is not on screen cannot be clicked, so its action does nothing. */
  function Step(rules: seq<Rule>, action: RuleAction): seq<Rule> {
    if !Offered(rules, action) then rules
    else match action
      case Edit(i, k, t) => ChangeRule(rules, i, k, t)
      case Add => WithAddedRule(rules)
      case Remove(i) => RemoveAt(rules, i)
  }

  function Run(rules: seq<Rule>, actions: seq<RuleAction>): seq<Rule>
    decreases |actions|
  {
    if actions == [] then rules else Run(Step(rules, actions[0]), actions[1..])
  }

  /** No sequence of clicks empties the rule list: the minimum of one rule holds through the UI alone. */
  lemma {:induction false} RunKeepsARule(rules: seq<Rule>, actions: seq<RuleAction>)
    requires |rules| >= 1
    ensures |Run(rules, actions)| >= 1
    decreases |actions|
  {
    if actions != [] {
      RunKeepsARule(Step(rules, actions[0]), actions[1..]);
    }
  }

  lemma FromInitialFormAlwaysARule(actions: seq<RuleAction>)
    ensures |Run([InitialRule], actions)| >= 1
  {
    RunKeepsARule([InitialRule], actions);
  }

  // ---------------------------------------------------------------------
  // Audience preview.

  const SampleSize: nat := 5

  /** What the preview stores: the sample of customers and the count. */
  datatype Preview = Preview(sample: seq<Value>, count: int)

  predicate IsPrefix(a: seq<Value>, b: seq<Value>) { |a| <= |b| && a == b[..|a|] }

  /**
   * The preview's reading of the response body `response`:
   * `const { count, audience } = response.data || {}`; a non-array audience
   * stores no sample and a non-number count stores 0. Reading `data` from a
   * null or undefined body throws (None).
   */
  function NormalizePreview(response: Value): (r: Option<Preview>)
    ensures r.None? <==> IsNullish(response)
    ensures r.Some? ==> |r.value.sample| <= SampleSize
    ensures r.Some? ==>
      var d := Or(Get(response, "data"), Obj(map[]));
      var audience := Get(d, "audience");
      var count := Get(d, "count");
      && (audience.Arr? ==>
            IsPrefix(r.value.sample, audience.items) && |r.value.sample| == Min(SampleSize, |audience.items|))
      && (!audience.Arr? ==> r.value.sample == [])
      && (count.Num? ==> r.value.count == count.n)
      && (!count.Num? ==> r.value.count == 0)
  {
    if IsNullish(response) then None
    else
      var d := Or(Get(response, "data"), Obj(map[]));
      var audience := Get(d, "audience");
      var count := Get(d, "count");
      Some(Preview(
        if audience.Arr? then audience.items[..Min(SampleSize, |audience.items|)] else [],
        if count.Num? then count.n else 0))
  }

  /** A well-formed answer is stored as its first five customers and its count. */
  lemma NormalizeWellFormed(audience: seq<Value>, count: int)
    ensures NormalizePreview(Obj(map["data" := Obj(map["count" := Num(count), "audience" := Arr(audience)])]))
            == Some(Preview(audience[..Min(SampleSize, |audience|)], count))
  {
  }

  /** A body without usable data is treated as no matches. */
  lemma NormalizeEmptyBody()
    ensures NormalizePreview(Obj(map[])) == Some(Preview([], 0))
    ensures NormalizePreview(Str("")) == Some(Preview([], 0))
  {
  }

  /**
   * The "... and N more customers" note: the preview panel is rendered only
   * when the sample is non-empty, and the note inside it only when the count
   * exceeds 5.
   */
  function MoreNote(p: Preview): (n: Option<int>)
    ensures n.Some? <==> |p.sample| > 0 && p.count > SampleSize
    ensures n.Some? ==> n.value == p.count - SampleSize && n.value > 0
  {
    if |p.sample| > 0 && p.count > SampleSize then Some(p.count - SampleSize) else None
  }

  // ---------------------------------------------------------------------
  // Message generation.

  /** `${rule.field} ${rule.operator} ${rule.value}`. */
  function RuleText(rule: Rule): string {
    rule.field + " " + rule.operator + " " + rule.value
  }

  function RuleTexts(rules: seq<Rule>): (r: seq<string>)
    ensures |r| == |rules|
    ensures forall i :: 0 <= i < |rules| ==> r[i] == RuleText(rules[i])
  {
    seq(|rules|, i requires 0 <= i < |rules| => RuleText(rules[i]))
  }

  /** The audience text sent with the prompt: rule texts joined by " AND ", whatever the rules' logic operators. */
  function AudienceDescription(rules: seq<Rule>): string {
    Join(RuleTexts(rules), " AND ")
  }

  lemma {:induction false} AudienceDescriptionAppend(rules: seq<Rule>, rule: Rule)
    requires |rules| >= 1
    ensures AudienceDescription(rules + [rule]) == AudienceDescription(rules) + " AND " + RuleText(rule)
  {
    assert RuleTexts(rules + [rule]) == RuleTexts(rules) + [RuleText(rule)];
    JoinAppend(RuleTexts(rules), RuleText(rule), " AND ");
  }

  lemma AudienceDescriptionSingle(rule: Rule)
    ensures AudienceDescription([rule]) == RuleText(rule)
  {
  }

  /** Rules that differ only in their logic operators are described alike. */
  lemma AudienceDescriptionIgnoresLogic(rules: seq<Rule>, logic: seq<string>)
    requires |logic| == |rules|
    ensures AudienceDescription(seq(|rules|, i requires 0 <= i < |rules| => rules[i].(logicOperator := logic[i])))
            == AudienceDescription(rules)
  {
    var other := seq(|rules|, i requires 0 <= i < |rules| => rules[i].(logicOperator := logic[i]));
    assert RuleTexts(other) == RuleTexts(rules);
  }

  // ---------------------------------------------------------------------
  // Submitting.

  datatype SubmitError = MissingRequired | MessageTooShort | IncompleteRules

  function ErrorText(e: SubmitError): string {
    match e
    case MissingRequired => "Please fill in all required fields"
    case MessageTooShort => "Message must be at least 10 characters long"
    case IncompleteRules => "Please complete all segment rules"
  }

  const MinMessageLength: nat := 10

  predicate RulesComplete(rules: seq<Rule>) {
    rules != [] && forall i :: 0 <= i < |rules| ==> rules[i].value != ""
  }

  /** The checks of the submit handler, in order; the first that fails is reported. */
  function Validate(name: string, message: string, subject: string, rules: seq<Rule>): (r: Option<SubmitError>)
    ensures r == Some(MissingRequired) <==> name == "" || message == "" || subject == ""
    ensures r == Some(MessageTooShort) <==>
      name != "" && message != "" && subject != "" && |message| < MinMessageLength
    ensures r == Some(IncompleteRules) <==>
      name != "" && subject != "" && |message| >= MinMessageLength && !RulesComplete(rules)
    ensures r == None <==>
      name != "" && subject != "" && |message| >= MinMessageLength && RulesComplete(rules)
  {
    if name == "" || message == "" || subject == "" then Some(MissingRequired)
    else if |message| < MinMessageLength then Some(MessageTooShort)
    else if !RulesComplete(rules) then Some(IncompleteRules)
    else None
  }

  /** The form keeps no subject and renders no input for one, so every submission is rejected as incomplete. */
  lemma SubjectlessFormRejected(name: string, message: string, rules: seq<Rule>)
    ensures Validate(name, message, "", rules) == Some(MissingRequired)
  {
  }

  /** A rule value in the payload: text, or `Number(text)` for `totalSpendings` (the conversion itself is not modelled). */
  datatype RuleValue = Text(text: string) | Numeric(source: string)

  datatype PayloadRule = PayloadRule(field: string, operator: string, value: RuleValue, logicOperator: string)

  /** The create request; `scheduledFor` is None when the key is left undefined. */
  datatype Payload = Payload(
    name: string, description: string, subject: string,
    segmentRules: seq<PayloadRule>, message: string, scheduledFor: Option<string>)

  function SerializeRule(rule: Rule): PayloadRule {
    PayloadRule(rule.field, rule.operator,
                if rule.field == "totalSpendings" then Numeric(rule.value) else Text(rule.value),
                rule.logicOperator)
  }

  /** The payload's rules: same order and length, every part copied, the value converted iff the field is `totalSpendings`. */
  function SerializeRules(rules: seq<Rule>): (r: seq<PayloadRule>)
    ensures |r| == |rules|
    ensures forall i :: 0 <= i < |rules| ==>
      && r[i].field == rules[i].field
      && r[i].operator == rules[i].operator
      && r[i].logicOperator == rules[i].logicOperator
      && (r[i].value.Numeric? <==> rules[i].field == "totalSpendings")
      && SourceText(r[i].value) == rules[i].value
  {
    seq(|rules|, i requires 0 <= i < |rules| => SerializeRule(rules[i]))
  }

  function SourceText(v: RuleValue): string {
    match v
    case Text(t) => t
    case Numeric(s) => s
  }

  /** Reading a payload rule back as form text. */
  function FormRule(p: PayloadRule): Rule {
    Rule(p.field, p.operator, SourceText(p.value), p.logicOperator)
  }

  function FormRules(ps: seq<PayloadRule>): (r: seq<Rule>)
    ensures |r| == |ps|
    ensures forall i :: 0 <= i < |ps| ==> r[i] == FormRule(ps[i])
  {
    seq(|ps|, i requires 0 <= i < |ps| => FormRule(ps[i]))
  }

  /**
   * The payload keeps each rule's field, operator and logic operator and
   * the text its value comes from, so the form's rules can be read back.
   * For `totalSpendings` that text is the argument of `Number`, which the
   * tag stands for; the number sent does not determine it.
   */
  lemma SerializeRoundTrip(rules: seq<Rule>)
    ensures FormRules(SerializeRules(rules)) == rules
  {
  }

  /** Serialisation works rule by rule, so it commutes with concatenation. */
  lemma SerializeConcat(a: seq<Rule>, b: seq<Rule>)
    ensures SerializeRules(a + b) == SerializeRules(a) + SerializeRules(b)
  {
  }

  /** The create payload built from the form. */
  function BuildPayload(name: string, description: string, subject: string, rules: seq<Rule>,
                        message: string, scheduledFor: string): (p: Payload)
    ensures p.name == name && p.subject == subject && p.message == message
    ensures p.description == description
    ensures p.segmentRules == SerializeRules(rules)
    ensures scheduledFor == "" <==> p.scheduledFor.None?
    ensures scheduledFor != "" ==> p.scheduledFor == Some(scheduledFor)
  {
    Payload(name, if description != "" then description else "", subject,
            SerializeRules(rules), message, if scheduledFor != "" then Some(scheduledFor) else None)
  }

  /** The text inputs the form renders, each bound by name to one form field. */
  datatype FormInput = NameInput | DescriptionInput | ScheduledForInput | MessageInput

  /** How the create request ended: a truthy `success`, a falsy one, or a thrown error. */
  datatype CreateOutcome = Created | NotCreated | RequestFailed

  const PreviewFailedText := "Failed to preview audience"
  const CreateFailedText := "Failed to create campaign"

  /** The state of the campaign-creation page. */
  class CampaignForm {
    var name: string
    var description: string
    /** `formData.subject`: never assigned, read as undefined (modelled as the empty string). */
    var subject: string
    var message: string
    var scheduledFor: string
    var rules: seq<Rule>
    var aiPrompt: string
    var targetAudience: seq<Value>
    var audienceCount: int
    var error: Option<string>
    var loading: bool
    var previewing: bool
    var generating: bool
    /** Set when the page navigates to the campaign list. */
    var navigatedAway: bool

    constructor ()
      ensures name == "" && description == "" && subject == "" && message == "" && scheduledFor == ""
      ensures rules == [InitialRule]
      ensures aiPrompt == "" && targetAudience == [] && audienceCount == 0
      ensures error == None && !loading && !previewing && !generating && !navigatedAway
    {
      name, description, subject, message, scheduledFor := "", "", "", "", "";
      rules := [InitialRule];
      aiPrompt := "";
      targetAudience, audienceCount := [], 0;
      error := None;
      loading, previewing, generating, navigatedAway := false, false, false, false;
    }

    /** `handleInputChange` for one of the rendered inputs. */
    method InputChange(input: FormInput, text: string)
      modifies this`name, this`description, this`scheduledFor, this`message
      ensures name == (if input == NameInput then text else old(name))
      ensures description == (if input == DescriptionInput then text else old(description))
      ensures scheduledFor == (if input == ScheduledForInput then text else old(scheduledFor))
      ensures message == (if input == MessageInput then text else old(message))
    {
      match input
      case NameInput => name := text;
      case DescriptionInput => description := text;
      case ScheduledForInput => scheduledFor := text;
      case MessageInput => message := text;
    }

    method PromptChange(text: string)
      modifies this`aiPrompt
      ensures aiPrompt == text
    {
      aiPrompt := text;
    }

    /**
     * `handleRuleChange(index, key, text)`. Every change of the rule list
     * also clears the preview (the effect on `formData.segmentRules`).
     */
    method RuleChange(index: nat, key: RuleKey, text: string)
      requires index < |rules|
      modifies this`rules, this`targetAudience, this`audienceCount
      ensures rules == ChangeRule(old(rules), index, key, text)
      ensures targetAudience == [] && audienceCount == 0
    {
      var updated := rules;
      updated := updated[index := SetKey(updated[index], key, text)];
      rules := updated;
      targetAudience, audienceCount := [], 0;
    }

    /** `addRule`. */
    method AddRule()
      modifies this`rules, this`targetAudience, this`audienceCount
      ensures rules == WithAddedRule(old(rules))
      ensures targetAudience == [] && audienceCount == 0
    {
      rules := rules + [AddedRule];
      targetAudience, audienceCount := [], 0;
    }

    /** `removeRule(index)`; it does not check the length itself. */
    method RemoveRule(index: nat)
      modifies this`rules, this`targetAudience, this`audienceCount
      ensures rules == RemoveAt(old(rules), index)
      ensures old(|rules|) > 1 ==> |rules| >= 1
      ensures targetAudience == [] && audienceCount == 0
    {
      if index < |rules| {
        rules := rules[..index] + rules[index + 1..];
      }
      targetAudience, audienceCount := [], 0;
    }

    /**
     * `previewAudience`, given the response body (None when the request
     * failed). A failure of either kind shows one error and keeps the rules
     * and the previous preview.
     */
    method PreviewAudience(response: Option<Value>)
      modifies this`targetAudience, this`audienceCount, this`error, this`previewing
      ensures !previewing
      ensures response.Some? && NormalizePreview(response.value).Some? ==>
        var p := NormalizePreview(response.value).value;
        targetAudience == p.sample && audienceCount == p.count && error == old(error)
      ensures response.None? || NormalizePreview(response.value).None? ==>
        targetAudience == old(targetAudience) && audienceCount == old(audienceCount)
        && error == Some(PreviewFailedText)
      ensures |targetAudience| <= SampleSize || targetAudience == old(targetAudience)
    {
      previewing := true;
      var p := if response.Some? then NormalizePreview(response.value) else None;
      if p.Some? {
        targetAudience := p.value.sample;
        audienceCount := p.value.count;
      } else {
        error := Some(PreviewFailedText);
      }
      previewing := false;
    }

    /**
     * `generateMessage`, given the message of a successful reply (None for
     * any other reply). The button is disabled while the prompt is empty.
     * Returns the audience description sent with the prompt, if sent.
     */
    method GenerateMessage(reply: Option<string>) returns (sentDescription: Option<string>)
      modifies this`message, this`generating
      ensures aiPrompt == "" ==> sentDescription == None && message == old(message)
                                 && generating == old(generating)
      ensures aiPrompt != "" ==> sentDescription == Some(AudienceDescription(rules))
      ensures aiPrompt != "" ==> message == (if reply.Some? then reply.value else old(message))
      ensures aiPrompt != "" ==> !generating
    {
      if aiPrompt == "" {
        return None;
      }
      generating := true;
      sentDescription := Some(AudienceDescription(rules));
      if reply.Some? {
        message := reply.value;
      }
      generating := false;
    }

    /**
     * Pressing the submit button. The name and message inputs are marked
     * `required`, so while either is empty the browser stops the submission
     * before `handleSubmit` runs. In `handleSubmit` the first failing check
     * sets its error and sends nothing; otherwise the payload is sent and
     * the outcome decides the rest. After a falsy `success` the page keeps
     * `loading` set, and the submit button stays disabled.
     */
    method Submit(outcome: CreateOutcome) returns (sent: Option<Payload>)
      modifies this`error, this`loading, this`navigatedAway
      ensures old(loading) || name == "" || message == "" ==>
        sent == None && error == old(error) && loading == old(loading) && navigatedAway == old(navigatedAway)
      ensures !old(loading) && name != "" && message != "" ==> var v := Validate(name, message, subject, rules);
        && (v.Some? ==> sent == None && error == Some(ErrorText(v.value)) && !loading
                        && navigatedAway == old(navigatedAway))
        && (v.None? ==> sent == Some(BuildPayload(name, description, subject, rules, message, scheduledFor)))
        && (v.None? && outcome == Created ==> navigatedAway && loading && error == None)
        && (v.None? && outcome == NotCreated ==> error == Some(CreateFailedText) && loading
                                                 && navigatedAway == old(navigatedAway))
        && (v.None? && outcome == RequestFailed ==> error == None && !loading
                                                    && navigatedAway == old(navigatedAway))
    {
      if loading || name == "" || message == "" {
        return None;
      }
      loading := true;
      error := None;
      if name == "" || message == "" || subject == "" {
        error := Some(ErrorText(MissingRequired));
        loading := false;
        return None;
      }
      if |message| < MinMessageLength {
        error := Some(ErrorText(MessageTooShort));
        loading := false;
        return None;
      }
      if !RulesComplete(rules) {
        error := Some(ErrorText(IncompleteRules));
        loading := false;
        return None;
      }
      sent := Some(BuildPayload(name, description, subject, rules, message, scheduledFor));
      match outcome
      case Created => navigatedAway := true;
      case NotCreated => error := Some(CreateFailedText);
      case RequestFailed => loading := false;
    }
  }

  /**
   * Once a create request comes back without `success`, no later submit
   * sends anything. This describes the handler's own logic: the page as it
   * stands never gets this far, since nothing gives the form a subject.
   */
  method SubmitAfterRejection(form: CampaignForm, later: seq<CreateOutcome>) returns (resent: seq<Option<Payload>>)
    requires !form.loading
    requires Validate(form.name, form.message, form.subject, form.rules).None?
    modifies form`error, form`loading, form`navigatedAway
    ensures |resent| == |later|
    ensures forall i :: 0 <= i < |later| ==> resent[i] == None
    ensures form.error == Some(CreateFailedText)
  {
    var first := form.Submit(NotCreated);
    resent := [];
    var i := 0;
    while i < |later|
      invariant 0 <= i <= |later|
      invariant |resent| == i
      invariant forall j :: 0 <= j < i ==> resent[j] == None
      invariant form.loading && form.error == Some(CreateFailedText)
    {
      var sent := form.Submit(later[i]);
      resent := resent + [sent];
      i := i + 1;
    }
  }

  /** A freshly opened form can never be submitted: no method gives it a subject. */
  method SubmitFreshForm(events: seq<(FormInput, string)>, outcome: CreateOutcome) returns (sent: Option<Payload>)
    ensures sent == None
  {
    var form := new CampaignForm();
    var i := 0;
    while i < |events|
      invariant 0 <= i <= |events|
      invariant form.subject == ""
    {
      form.InputChange(events[i].0, events[i].1);
      i := i + 1;
    }
    sent := form.Submit(outcome);
  }
}
