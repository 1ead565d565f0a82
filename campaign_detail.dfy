/**
 * The campaign detail page's presentation rules: which header actions a
 * status allows, the status badge, the date panels, and how each segment
 * rule is phrased.
 */
module CampaignDetail {
  import opened Base
  import opened Text
  import opened Js
  import CreateCampaign

  datatype HeaderAction = EditAction | SendAction | DeleteAction

  /** Edit, Send Now and Delete are all rendered for a draft and none for any other status. */
  function HeaderActions(status: string): (r: set<HeaderAction>)
    ensures status == "draft" ==> r == {EditAction, SendAction, DeleteAction}
    ensures status != "draft" ==> r == {}
  {
    if status == "draft" then {EditAction, SendAction, DeleteAction} else {}
  }

  datatype Badge = DraftBadge | ScheduledBadge | SentBadge | FailedBadge

  /** The badges rendered: four independent conditions, one per status. */
  function Badges(status: string): seq<Badge> {
    (if status == "draft" then [DraftBadge] else [])
    + (if status == "scheduled" then [ScheduledBadge] else [])
    + (if status == "sent" then [SentBadge] else [])
    + (if status == "failed" then [FailedBadge] else [])
  }

  /** Exactly one badge for each of the four statuses, and none for any other. */
  lemma BadgesShown(status: string)
    ensures status == "draft" ==> Badges(status) == [DraftBadge]
    ensures status == "scheduled" ==> Badges(status) == [ScheduledBadge]
    ensures status == "sent" ==> Badges(status) == [SentBadge]
    ensures status == "failed" ==> Badges(status) == [FailedBadge]
    ensures |Badges(status)| <= 1
    ensures Badges(status) == [] <==> status !in {"draft", "scheduled", "sent", "failed"}
  {
  }

  datatype DatePanel = ScheduledForPanel | SentAtPanel

  /**
   * The date panels beside "Created": "Scheduled For" for a scheduled
   * campaign and "Sent At" for a sent one, each only when its date is truthy.
   */
  function DatePanels(status: string, scheduledFor: Value, sentAt: Value): (panels: set<DatePanel>)
    ensures ScheduledForPanel in panels <==> status == "scheduled" && Truthy(scheduledFor)
    ensures SentAtPanel in panels <==> status == "sent" && Truthy(sentAt)
    ensures IsNullish(scheduledFor) ==> ScheduledForPanel !in panels
    ensures IsNullish(sentAt) ==> SentAtPanel !in panels
  {
    (if status == "scheduled" && Truthy(scheduledFor) then {ScheduledForPanel} else {})
    + (if status == "sent" && Truthy(sentAt) then {SentAtPanel} else {})
  }

  /** The two date panels never both appear. */
  lemma DatePanelsExclusive(status: string, scheduledFor: Value, sentAt: Value)
    ensures !(ScheduledForPanel in DatePanels(status, scheduledFor, sentAt)
              && SentAtPanel in DatePanels(status, scheduledFor, sentAt))
  {
  }

  /** The operator as rule text; an operator outside the six is shown as it is. */
  function OperatorPhrase(op: string): (phrase: string)
    ensures op == "equals" ==> phrase == "is"
    ensures op == "contains" ==> phrase == "contains"
    ensures op == "startsWith" ==> phrase == "starts with"
    ensures op == "endsWith" ==> phrase == "ends with"
    ensures op == "greaterThan" ==> phrase == "greater than"
    ensures op == "lessThan" ==> phrase == "less than"
    ensures op !in KnownOperators ==> phrase == op
  {
    if op == "equals" then "is"
    else if op == "contains" then "contains"
    else if op == "startsWith" then "starts with"
    else if op == "endsWith" then "ends with"
    else if op == "greaterThan" then "greater than"
    else if op == "lessThan" then "less than"
    else op
  }

  const KnownOperators: set<string> := {"equals", "contains", "startsWith", "endsWith", "greaterThan", "lessThan"}

  /** The six operators get six different phrases. */
  lemma PhrasesDistinct(a: string, b: string)
    requires a in KnownOperators && b in KnownOperators
    requires OperatorPhrase(a) == OperatorPhrase(b)
    ensures a == b
  {
  }

  /** Every operator the creation form offers, for any field, has its own phrase. */
  lemma OfferedOperatorsArePhrased(field: string, op: string)
    requires op in CreateCampaign.Values(CreateCampaign.OperatorOptions(field))
    ensures op in KnownOperators
    ensures op != "contains" ==> OperatorPhrase(op) != op
  {
  }

  /**
   * What one rule line shows: the logic badge (from the second rule on),
   * the field with its first character upper-cased, the phrase and the value.
   */
  datatype RuleLine = RuleLine(logic: Option<string>, fieldLabel: string, phrase: string, value: string)

  function RuleLineAt(index: nat, rule: CreateCampaign.Rule): (line: RuleLine)
    ensures line.logic.Some? <==> index > 0
    ensures index > 0 ==> line.logic.value == rule.logicOperator
    ensures line.fieldLabel == Capitalize(rule.field)
    ensures line.phrase == OperatorPhrase(rule.operator)
    ensures line.value == rule.value
  {
    RuleLine(if index > 0 then Some(rule.logicOperator) else None,
             Capitalize(rule.field), OperatorPhrase(rule.operator), rule.value)
  }

  /** The rule lines of a campaign, in order; the first never shows a logic operator. */
  function RuleLines(rules: seq<CreateCampaign.Rule>): (lines: seq<RuleLine>)
    ensures |lines| == |rules|
    ensures forall i :: 0 <= i < |rules| ==> lines[i] == RuleLineAt(i, rules[i])
    ensures |lines| > 0 ==> lines[0].logic.None?
  {
    seq(|rules|, i requires 0 <= i < |rules| => RuleLineAt(i, rules[i]))
  }

  /** The performance block is rendered for sent campaigns only. */
  function PerformanceShown(status: string): bool {
    status == "sent"
  }

  lemma SentCampaignHasNoActions(status: string)
    requires PerformanceShown(status)
    ensures HeaderActions(status) == {}
  {
  }
}
