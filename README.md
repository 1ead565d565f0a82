# Mini CRM front end: client-side logic in Dafny

This project models the client-side decision logic of the mini CRM's React front end and proves properties of it. The front end lists customers, orders and campaigns, and creates campaigns from audience-segment rules. Most of the application renders server data. The part modelled here is the logic the pages run themselves:

- **Campaign creation** (`CreateCampaign`). This covers:
  - the ordered list of segment rules: edit one key of one rule, append a rule, remove a rule;
  - the operator choices offered for a field;
  - the normalisation of the audience-preview response;
  - the audience description sent to message generation;
  - the validation cascade of the submit handler;
  - the create payload.
  The page state is a class, `CreateCampaign.CampaignForm`. The rule editing, the validation and the payload are functions that its methods are specified by.
- **Paging** (`Pagination`, plus the `OrdersView`, `CustomersView` and `CampaignsView` classes). Previous and Next are clamped or guarded steps. A search resets the page to 1. The model covers the page-number buttons and the "Showing X to Y of Z" bounds.
- **Record lists kept by `_id`** (`Records`): delete by filter and replace by map. A created order is prepended by `Orders.OrdersView.Submit`.
- **The order form's items text** (`Orders.SplitItems` / `Orders.JoinItems`). Items are split on commas and trimmed, and joined with ", " when an order is edited.
- **Dashboard revenue and defaults** (`Dashboard`). Revenue is a left fold of `parseInt(totalSpendings, 10)` over the customers, with NaN counting 0. Missing counts show as 0 and missing recent lists as `[]`.
- **Status and rule presentation** (`Campaigns`, `CampaignDetail`). This covers:
  - the status badge class and label;
  - draft-only send, edit and delete;
  - the operator phrases;
  - the capitalised field label;
  - the logic badge from the second rule on;
  - the date-panel conditions.

API bodies are modelled as JavaScript values (`Js.Value`). The few language operations the pages use are written out:
- truthiness and `||`;
- property reads, where a read from `null` or `undefined` throws;
- optional chaining;
- `String(v)` and `parseInt(s, 10)`;
- `trim`, `split`, `join`;
- the `charAt(0).toUpperCase() + slice(1)` idiom.

Network calls are not modelled. Each request's outcome is an input to the model: a response body, or None when the request failed. `window.confirm` is a boolean parameter. A pager button, search input or form control that is disabled or not rendered cannot be used, so the page-class method for it does nothing in that state. There are two exceptions, where the methods are the handlers as written and what is on screen is stated elsewhere. `CreateCampaign.CampaignForm.RuleChange` and `RemoveRule` are `handleRuleChange` and `removeRule`, which check neither the index of the logic select nor the rule count. `CreateCampaign.Offered` and `CreateCampaign.Step` say which rule edits the page renders. `Orders.OrdersView.AddOrder`, `EditOrder` and `DeleteOrder` are handlers that no control on the page runs, and they do not look at the error.

### Behaviour of the code worth knowing

- Changing a rule's field keeps its operator, even one the new field does not offer (`CreateCampaign.FieldChangeKeepsOperator`, `CreateCampaign.FieldChangeLeavesForeignOperator`).
- `addRule` creates a rule with field `name`, which the field select does not offer (`CreateCampaign.AddedRuleFieldNotOffered`).
- The name and message inputs are `required`, so while either is empty the browser stops the submission and the handler does not run. The handler also requires `formData.subject`, but the form never sets it and renders no input for it. Every submission that reaches the handler therefore fails with "Please fill in all required fields" (`CreateCampaign.SubjectlessFormRejected`, `CreateCampaign.SubmitFreshForm`).
- In the handler's own logic, after a create response without `success`, `loading` stays set and the submit button stays disabled (`CreateCampaign.SubmitAfterRejection`). The page as it stands never gets that far, since no input sets a subject.
- The audience description joins the rules with " AND " whatever their logic operators (`CreateCampaign.AudienceDescriptionIgnoresLogic`).
- The customers page renders its pager even for an empty list. With `totalPages == 0`, Next moves to page 0 (`Customers.NextWithNoPages`).
- The orders and campaigns pages render their pager only for a non-empty list.
- The orders page renders no control that runs `handleAddOrder`, `handleEditOrder` or `handleDeleteOrder`. The icons for them are imported but never rendered. So the order form never opens, and its items input and submit button are never on screen (`Orders.NoFormWithoutOpening`). This holds after any sequence of loads, failed loads, searches, Previous, Next, page buttons, typing into the items field and Cancel. `Orders.OrdersView.AddOrder`, `EditOrder` and `DeleteOrder` describe handler logic the page cannot reach. `ItemsChange`, `CloseForm` and `Submit` act only while the form is shown.
- A failed list fetch sets an error that nothing clears. The orders and campaigns pages then render only the error. The order handlers do not check the error, so `handleAddOrder` run after a failure still opens the modal. The modal is part of the page that renders only without an error, so the form is not shown and nothing is sent (`Orders.FailedPageIgnoresActions`). The customers page keeps its search input, but a later successful fetch does not bring the table or the pager back (`Customers.SearchAfterFailure`).
- The detail page's date panels are gated on truthy `scheduledFor` and `sentAt`, not merely non-null ones.

## Model

| member | source | states |
|---|---|---|
| CreateCampaign.SetKey | src/pages/CreateCampaign.jsx:38-42 | `{...rule, [key]: text}` sets exactly the named key and leaves the other three as they were |
| CreateCampaign.ChangeRule | src/pages/CreateCampaign.jsx:38-42 | the rule list keeps its length; rule `index` gets the key set and every other rule is unchanged |
| CreateCampaign.FieldChangeKeepsOperator | src/pages/CreateCampaign.jsx:38-42 | changing a rule's field never changes its operator |
| CreateCampaign.FieldChangeLeavesForeignOperator | src/pages/CreateCampaign.jsx:38-42 | switching a `totalSpendings`/`greaterThan` rule to `tags` keeps `greaterThan`, an operator `tags` is not offered |
| CreateCampaign.WithAddedRule | src/pages/CreateCampaign.jsx:44-52 | adding appends exactly one `{name, equals, '', AND}` and keeps the existing rules as a prefix |
| CreateCampaign.AddedRuleFieldNotOffered | src/pages/CreateCampaign.jsx:156-160 | the added rule's field `name` is not among the select's fields, while the initial `tags` is |
| CreateCampaign.RemoveAt | src/pages/CreateCampaign.jsx:54-58 | `splice(index, 1)`: one fewer rule, the rules before kept, the rules after shifted down by one, the multiset loses exactly the removed rule; an index past the end changes nothing |
| CreateCampaign.RunKeepsARule | src/pages/CreateCampaign.jsx:313-321 | because the remove button is rendered only with more than one rule, no sequence of clicks empties a non-empty rule list |
| CreateCampaign.FromInitialFormAlwaysARule | src/pages/CreateCampaign.jsx:313-321 | from the initial single rule, every sequence of clicks leaves at least one rule |
| CreateCampaign.FieldOptions | src/pages/CreateCampaign.jsx:156-160 | the field select offers `tags`, `totalSpendings` and `location`, in that order |
| CreateCampaign.OperatorOptions | src/pages/CreateCampaign.jsx:162-177 | `totalSpendings` gets exactly equals, greaterThan, lessThan; every other field gets exactly equals, contains, startsWith, endsWith |
| CreateCampaign.OperatorSetsOverlapInEquals | src/pages/CreateCampaign.jsx:162-177 | an operator is offered for both kinds of field iff it is `equals` |
| CreateCampaign.NormalizePreview | src/pages/CreateCampaign.jsx:64-66 | a null/undefined body throws; otherwise the sample is a prefix of an array audience of length min(5, its length), `[]` for a non-array, and the count is a numeric count or 0 |
| CreateCampaign.NormalizeWellFormed | src/pages/CreateCampaign.jsx:64-66 | a well-formed answer is stored as its first five customers and its count |
| CreateCampaign.NormalizeEmptyBody | src/pages/CreateCampaign.jsx:64-66 | a body without `data`, or a falsy one, is stored as an empty sample with count 0 |
| CreateCampaign.MoreNote | src/pages/CreateCampaign.jsx:347-371 | the "and N more" note appears iff the sample is non-empty and the count exceeds 5, with N = count − 5 > 0 |
| CreateCampaign.RuleTexts | src/pages/CreateCampaign.jsx:79-81 | one `field operator value` text per rule, in order |
| CreateCampaign.AudienceDescriptionAppend | src/pages/CreateCampaign.jsx:79-81 | one more rule adds " AND " and its text at the end of the description |
| CreateCampaign.AudienceDescriptionSingle | src/pages/CreateCampaign.jsx:79-81 | a single rule is described by its own text, with no separator |
| CreateCampaign.AudienceDescriptionIgnoresLogic | src/pages/CreateCampaign.jsx:79-81 | rules differing only in logic operators get the same description |
| CreateCampaign.Validate | src/pages/CreateCampaign.jsx:107-126 | the three checks in order, each error iff the earlier checks pass and its own fails, and no error iff all pass |
| CreateCampaign.SubjectlessFormRejected | src/pages/CreateCampaign.jsx:108-112 | with no subject every form is rejected with the missing-fields error |
| CreateCampaign.SerializeRules | src/pages/CreateCampaign.jsx:133-138 | same length and order; field, operator and logic operator copied; the value converted iff the field is `totalSpendings`, from the rule's own text |
| CreateCampaign.SerializeRoundTrip | src/pages/CreateCampaign.jsx:133-138 | the payload keeps each rule's field, operator and logic operator, and the text its value comes from (the `Numeric` tag stands for `Number(text)`), so the form's rules can be recovered from it |
| CreateCampaign.SerializeConcat | src/pages/CreateCampaign.jsx:133-138 | serialisation is rule by rule: it commutes with concatenation |
| CreateCampaign.BuildPayload | src/pages/CreateCampaign.jsx:129-141 | name, subject and message copied, description `description \|\| ''`, rules serialised, `scheduledFor` absent iff empty |
| CreateCampaign.CampaignForm.constructor | src/pages/CreateCampaign.jsx:17-25 | empty form with exactly one rule `{tags, equals, '', AND}`, no preview, no error |
| CreateCampaign.CampaignForm.InputChange | src/pages/CreateCampaign.jsx:33-36 | the named input's field takes the text, the others are unchanged |
| CreateCampaign.CampaignForm.PromptChange | src/pages/CreateCampaign.jsx:391-398 | the prompt takes the text |
| CreateCampaign.CampaignForm.RuleChange | src/pages/CreateCampaign.jsx:38-42 | the rules become `ChangeRule(old rules, …)` and the preview is cleared |
| CreateCampaign.CampaignForm.AddRule | src/pages/CreateCampaign.jsx:44-52 | the rules become `WithAddedRule(old rules)` and the preview is cleared |
| CreateCampaign.CampaignForm.RemoveRule | src/pages/CreateCampaign.jsx:54-58 | the rules become `RemoveAt(old rules, index)`, a list of more than one stays non-empty, and the preview is cleared |
| CreateCampaign.CampaignForm.PreviewAudience | src/pages/CreateCampaign.jsx:60-73 | a readable body stores the normalised preview; a failed request or a throwing read sets "Failed to preview audience" and keeps the old preview |
| CreateCampaign.CampaignForm.GenerateMessage | src/pages/CreateCampaign.jsx:75-99 | with an empty prompt nothing is sent and nothing changes; otherwise the audience description is sent, and a successful reply replaces the message while any other reply keeps it |
| CreateCampaign.CampaignForm.Submit | src/pages/CreateCampaign.jsx:101-154 | nothing happens while loading (button disabled) or while the `required` name or message is empty (the browser blocks the submission, :219, :420); otherwise the first failing check sets its error and sends nothing; otherwise the payload is sent, and success navigates away, a falsy `success` sets "Failed to create campaign" and keeps loading, a thrown error clears loading |
| CreateCampaign.SubmitAfterRejection | src/pages/CreateCampaign.jsx:144-148 | in the handler's logic, after one create without `success`, every further submit sends nothing (unreachable on the page as it stands: no input sets a subject) |
| CreateCampaign.SubmitFreshForm | src/pages/CreateCampaign.jsx:108-112 | whatever the user types into the rendered inputs, a fresh form's submit sends nothing |
| Pagination.ClampedPrev | src/pages/Orders.jsx:241 | `max(1, page - 1)`: one page back above page 1, else page 1 |
| Pagination.ClampedNext | src/pages/Orders.jsx:250 | `min(totalPages, page + 1)`: one page on below the last page, else the last page |
| Pagination.ClampedStepsStayInRange | src/pages/Orders.jsx:241-251 | from a page in 1..totalPages both steps stay in 1..totalPages |
| Pagination.PageButtons | src/pages/Orders.jsx:278-290 | `Array.from({length: n}, (_, i) => i + 1)`: max(0, n) buttons labelled 1..n |
| Pagination.PageButtonsInRange | src/pages/Orders.jsx:278-290 | with at most `totalPages` buttons, every button leads to a page in range |
| Pagination.ShowingStart | src/pages/Orders.jsx:262 | 0 iff the list is empty, otherwise `(page - 1) * 10 + 1` |
| Pagination.ShowingEnd | src/pages/Orders.jsx:263 | `min(page * 10, len)`: the smaller of the two bounds |
| Pagination.ShowingEndBeforeStart | src/pages/Orders.jsx:262-263 | from page 2 on, a non-empty page of at most 10 rows shows an end below its start |
| Pagination.ShowingEndExample | src/pages/Orders.jsx:262-263 | page 2 with 3 rows reads "Showing 11 to 3" |
| Pagination.IntendedShowingRange | src/pages/Orders.jsx:262-264 | the corrected end `(page - 1) * 10 + len` is at least the start, spans exactly `len` rows, stays within the page, and agrees with the source on page 1 |
| Orders.ButtonCount | src/pages/Orders.jsx:278 | `min(5, totalPages)`: at most 5 and at most `totalPages`, and equal to one of them |
| Orders.SplitItems | src/pages/Orders.jsx:109 | one item per comma-separated piece, in order, each that piece trimmed; so one item more than there are commas, every item trimmed and comma-free |
| Orders.SplitJoinedItems | src/pages/Orders.jsx:85 | splitting the ", "-joined items on commas gives the first item and each later one with its leading blank |
| Orders.EditSubmitRoundTrip | src/pages/Orders.jsx:85-109 | for at least one trimmed, comma-free item, editing and submitting unchanged gives back the same items |
| Orders.EmptyItemsRoundTrip | src/pages/Orders.jsx:85-109 | an order without items comes back with one empty item |
| Orders.OrdersView.constructor | src/pages/Orders.jsx:15-32 | no orders, page 1 of 1, empty search, a closed form in create mode |
| Orders.OrdersView.ReceivePage | src/pages/Orders.jsx:39-51 | a response sets the list and the page count; a failed request keeps them and marks the page failed, for good |
| Orders.OrdersView.SearchChange | src/pages/Orders.jsx:62-65 | the search takes the text and the page resets to 1; nothing changes on a failed page, which shows only the error (:147-149) |
| Orders.OrdersView.ClickPrev | src/pages/Orders.jsx:237-247 | no effect on a failed page or with an empty list (no pager) or on page 1; otherwise the clamped step back; keeps the page in range |
| Orders.OrdersView.ClickNext | src/pages/Orders.jsx:237-256 | no effect on a failed page or with an empty list or on the last page; otherwise the clamped step on; keeps the page in range |
| Orders.OrdersView.ClickPageButton | src/pages/Orders.jsx:278-290 | button `i` of the min(5, totalPages) buttons selects page `i + 1`, which is in range; no effect on a failed page or with an empty list (no pager) |
| Orders.OrdersView.AddOrder | src/pages/Orders.jsx:67-77 | handler logic that no control runs: opens an empty form in create mode, whether or not the fetch failed |
| Orders.OrdersView.EditOrder | src/pages/Orders.jsx:79-90 | handler logic that no control runs: opens the form in edit mode for the order's `_id`, with the items joined by ", ", whether or not the fetch failed |
| Orders.OrdersView.ItemsChange | src/pages/Orders.jsx:130-133 | the items text takes the input while the form is shown (modal open, :309, on a page that has not failed), and is kept otherwise |
| Orders.OrdersView.CloseForm | src/pages/Orders.jsx:422-427 | Cancel closes a shown form and keeps what was typed; no effect otherwise |
| Orders.OrdersView.DeleteOrder | src/pages/Orders.jsx:92-102 | handler logic that no control runs: after confirmation and a successful delete, exactly the orders with that `_id` leave the list, whether or not the fetch failed; otherwise nothing changes |
| Orders.OrdersView.Submit | src/pages/Orders.jsx:104-128 | while the form is shown, sends the split items, and a saved record replaces the edited `_id` or is prepended and closes the form, while a failed request changes nothing; with no form shown, sends nothing and changes nothing |
| Orders.FailedPageIgnoresActions | src/pages/Orders.jsx:147-149 | after a failed fetch, `handleAddOrder` still opens the modal, but the form is not shown: typing changes nothing, no submit sends anything and the list stays as it was |
| Orders.NoFormWithoutOpening | src/pages/Orders.jsx:237-309 | after any sequence of the actions the page offers (a load, a failed load, a search, Previous, Next, an existing page button, typing into the items field, Cancel), the form is still closed and no submit sends anything |
| Records.RemoveById | src/pages/Orders.jsx:96 | no kept record has the id, every record without it is kept, order preserved (a subsequence), and the length drops by the number of records with the id |
| Records.RemoveAbsent | src/pages/Orders.jsx:96 | deleting an id no record has changes nothing |
| Records.RemoveIdempotent | src/pages/Campaigns.jsx:57 | deleting the same id twice is deleting it once |
| Records.ReplaceById | src/pages/Orders.jsx:115-117 | same length; every record with the id becomes the new one, every other record is unchanged |
| Records.ReplaceThenRemove | src/pages/Campaigns.jsx:43-57 | replacing by a record with the same id and then deleting that id equals deleting it |
| Records.ReplaceAbsent | src/pages/Campaigns.jsx:43-45 | replacing an id no record has changes nothing |
| Customers.CustomersView.constructor | src/pages/Customers.jsx:8-13 | no customers, page 1 of 1, empty search |
| Customers.CustomersView.ReceivePage | src/pages/Customers.jsx:29-41 | a response sets the list and the page count; a failed request keeps them and marks the page failed, which a later response does not undo |
| Customers.CustomersView.SearchChange | src/pages/Customers.jsx:44-47 | the search takes the text and the page resets to 1, also after a failure (the input is outside the error branch, :82-94) |
| Customers.CustomersView.ClickPrev | src/pages/Customers.jsx:169-170 | no effect after a failure (the error replaces the pager, :102-103); disabled on page 1, otherwise the clamped step back; keeps the page in range |
| Customers.CustomersView.ClickNext | src/pages/Customers.jsx:178-179 | no effect after a failure; disabled on the last page, otherwise the clamped step on; keeps the page in range |
| Customers.CustomersView.ClickPageButton | src/pages/Customers.jsx:206-218 | button `i` of the `totalPages` buttons (no cap of 5) selects page `i + 1`, which is in range; no effect after a failure |
| Customers.NextWithNoPages | src/pages/Customers.jsx:220-221 | with 0 pages reported, Next on page 1 moves to page 0 |
| Customers.SearchAfterFailure | src/pages/Customers.jsx:37-41 | after a failed fetch, a search and a successful fetch leave the page failed, and Next does nothing |
| Campaigns.StatusClass | src/pages/Campaigns.jsx:154-158 | sent, scheduled and failed each get their own class, each iff that status; every other status gets the default class |
| Campaigns.StatusLabels | src/pages/Campaigns.jsx:160 | the badge text, the status capitalised, reads Draft, Sent, Scheduled, Failed for the four statuses |
| Campaigns.RowActions | src/pages/Campaigns.jsx:190-209 | send iff the status is draft; view and delete for every status |
| Campaigns.CampaignsView.constructor | src/pages/Campaigns.jsx:9-14 | no campaigns, page 1 of 1, empty search |
| Campaigns.CampaignsView.ReceivePage | src/pages/Campaigns.jsx:20-32 | a response sets the list and the page count; a failed request keeps them and marks the page failed, for good |
| Campaigns.CampaignsView.SearchChange | src/pages/Campaigns.jsx:34-37 | the search takes the text and the page resets to 1; nothing changes on a failed page, which shows only the error (:77-79) |
| Campaigns.CampaignsView.ClickPrev | src/pages/Campaigns.jsx:221-222 | no effect on a failed page, with an empty list or on page 1; otherwise exactly one page back; keeps the page in range |
| Campaigns.CampaignsView.ClickNext | src/pages/Campaigns.jsx:228-229 | no effect on a failed page, with an empty list or on the last page; otherwise exactly one page on; keeps the page in range |
| Campaigns.CampaignsView.SendCampaign | src/pages/Campaigns.jsx:39-51 | after confirmation and a successful send on a page that has not failed, the campaign with the id is replaced by the response and the length is kept; otherwise nothing changes |
| Campaigns.CampaignsView.DeleteCampaign | src/pages/Campaigns.jsx:53-63 | after confirmation and a successful delete on a page that has not failed, exactly the campaigns with the id leave the list; otherwise nothing changes |
| Campaigns.NextOnLastPage | src/pages/Campaigns.jsx:252-253 | on the last of three pages, Next clicks leave the page at 3 |
| CampaignDetail.HeaderActions | src/pages/CampaignDetail.jsx:166-191 | edit, send and delete are all shown for a draft and none for any other status |
| CampaignDetail.BadgesShown | src/pages/CampaignDetail.jsx:205-228 | exactly one badge for each of draft, scheduled, sent and failed, and none otherwise |
| CampaignDetail.DatePanels | src/pages/CampaignDetail.jsx:244-266 | "Scheduled For" iff the status is scheduled and `scheduledFor` is truthy, "Sent At" iff the status is sent and `sentAt` is truthy; neither for a null date |
| CampaignDetail.DatePanelsExclusive | src/pages/CampaignDetail.jsx:244-266 | the two date panels never both appear |
| CampaignDetail.OperatorPhrase | src/pages/CampaignDetail.jsx:288-293 | the six operators map to is, contains, starts with, ends with, greater than, less than; any other operator is shown as it is |
| CampaignDetail.PhrasesDistinct | src/pages/CampaignDetail.jsx:288-293 | the six known operators get six different phrases |
| CampaignDetail.OfferedOperatorsArePhrased | src/pages/CampaignDetail.jsx:288-293 | every operator the creation form offers is one of the six, and all but `contains` are rephrased |
| CampaignDetail.RuleLineAt | src/pages/CampaignDetail.jsx:279-296 | the logic badge iff the index is above 0, showing the rule's logic operator, then the capitalised field, the phrase and the value |
| CampaignDetail.RuleLines | src/pages/CampaignDetail.jsx:277-299 | one line per rule in order; the first never shows a logic operator |
| CampaignDetail.SentCampaignHasNoActions | src/pages/CampaignDetail.jsx:166-191 | a sent campaign, which shows its performance, offers no header actions |
| Dashboard.ReduceIsSum | src/pages/Dashboard.jsx:43-48 | a left fold from any start equals the start plus the plain sum |
| Dashboard.SumByAppend | src/pages/Dashboard.jsx:43-48 | the sum of `xs + [x]` is the sum of `xs` plus `x`'s term |
| Dashboard.SumByNonNegative | src/pages/Dashboard.jsx:43-48 | a sum of non-negative terms is non-negative |
| Dashboard.RevenueIsSum | src/pages/Dashboard.jsx:43-48 | the revenue fold equals the sum of the customers' contributions |
| Dashboard.RevenueAppend | src/pages/Dashboard.jsx:43-48 | one more customer adds exactly its contribution |
| Dashboard.RevenueNonNegative | src/pages/Dashboard.jsx:43-48 | revenue is non-negative when every contribution is |
| Dashboard.ContributionOfNumber | src/pages/Dashboard.jsx:44-45 | a numeric `totalSpendings` contributes itself |
| Dashboard.ContributionOfMissing | src/pages/Dashboard.jsx:44-45 | a missing or null `totalSpendings` parses to NaN and contributes 0 |
| Dashboard.RevenueOfList | src/pages/Dashboard.jsx:43-48 | a null/undefined list gives 0; a non-array throws; an array throws iff it holds a null/undefined customer, else gives the sum |
| Dashboard.RevenueIgnoresCustomerList | src/pages/Dashboard.jsx:43 | as written, whenever the body's `data` is the customer list the revenue is 0 |
| Dashboard.RevenueExample | src/pages/Dashboard.jsx:43 | one customer who spent 250: the source shows 0, the corrected reading 250 |
| Dashboard.IntendedRevenueSumsCustomers | src/pages/Dashboard.jsx:43-48 | reading `body.data` as the list, the revenue is the sum of contributions, and no list gives 0 |
| Dashboard.Load | src/pages/Dashboard.jsx:20-66 | the page as written: a failed request or a read from a null body fails the load; otherwise it loads iff `data?.data?.reduce` does not throw, with counts `count \|\| 0`, lists `data \|\| []` and that revenue |
| Dashboard.IntendedLoad | src/pages/Dashboard.jsx:20-66 | the same loader with the revenue read from the customer list: it loads iff that list's revenue does not throw |
| Dashboard.LoadOfCustomerList | src/pages/Dashboard.jsx:43-48 | for a customer body holding a list, the page as written always loads with revenue 0, even with a null entry; the corrected loader loads iff no entry is null, with the revenue the sum of the contributions |
| Dashboard.LoadsDifferOnlyInRevenue | src/pages/Dashboard.jsx:52-59 | when both loaders load, their statistics agree except for the revenue |
| Dashboard.LoadDefaults | src/pages/Dashboard.jsx:52-59 | missing or falsy counts show 0, and missing or falsy recent lists show `[]` |
| Dashboard.LoadedCountsNeverFalsy | src/pages/Dashboard.jsx:52-55 | every shown count is truthy or exactly 0 |
| Dashboard.LoadIgnoresRecentCampaigns | src/pages/Dashboard.jsx:25 | the recent-campaigns body has no effect on what is shown |
| Dashboard.MissingListGivesZeroRevenue | src/pages/Dashboard.jsx:43-48 | a readable customer body without a list loads with revenue 0 |
| Js.OrDefault | src/pages/Dashboard.jsx:52-58 | `a \|\| b` is `a` when it is truthy and `b` otherwise, in particular for null and undefined |
| Js.Read | src/pages/Dashboard.jsx:52-58 | `v.key` throws iff `v` is null or undefined, and otherwise yields the property |
| Js.OptRead | src/pages/Dashboard.jsx:43 | `v?.key` is undefined for a null or undefined `v`, and the property otherwise |
| Js.ParseInt | src/pages/Dashboard.jsx:44 | NaN iff no digit follows the leading white space and optional sign; otherwise the value of that digit run, negated after a leading minus |
| Js.ParseIntToString | src/pages/Dashboard.jsx:44 | `parseInt(String(n), 10) == n` for every integer |
| Js.ParseIntOfNonNumeric | src/pages/Dashboard.jsx:44 | a string opening with a character that is not white space, a sign or a digit parses to NaN |
| Text.Capitalize | src/pages/CampaignDetail.jsx:285 | the field label (and the status label of src/pages/Campaigns.jsx:160): same length, first character upper-cased, rest unchanged, and unchanged if already upper-case |
| Text.CapitalizeIdempotent | src/pages/CampaignDetail.jsx:285 | capitalising twice is capitalising once |
| Text.Trim | src/pages/Orders.jsx:109 | the result is the slice of the input left after dropping its white-space prefix and suffix: it has no leading or trailing space, and is empty iff the input is all white space |
| Text.TrimOfTrimmed | src/pages/Orders.jsx:109 | trimming a trimmed string changes nothing |
| Text.TrimAfterBlank | src/pages/Orders.jsx:109 | trimming a trimmed string with one leading blank gives the string back |
| Text.Split | src/pages/Orders.jsx:109 | one piece more than separators, no piece containing the separator |
| Text.JoinSplit | src/pages/Orders.jsx:109 | joining the pieces with the separator gives the string back |
| Text.SplitJoin | src/pages/Orders.jsx:109 | splitting the join of separator-free pieces gives the pieces back |
| Text.JoinAppend | src/pages/CreateCampaign.jsx:81 | joining one more element appends the separator and the element |

## Left out

- Network I/O: the axios service wrappers, their base URL and interceptors, and the awaits in every page. Each outcome is an input to the model.
- Sessions: the session check and logout in the auth context.
- `window.confirm` and `alert`: confirmation is a boolean parameter, and alerts show nothing the model tracks.
- Timing: loading flags around requests that are not modelled, and the interleaving of concurrent requests.
- Floating point. This covers:
  - the order price `parseFloat` and `toString`;
  - the delivery-rate percentage on the detail page.
  JavaScript numbers are integers here. Fractions, NaN values stored in state, the infinities and 53-bit precision are not modelled.
- `Number(rule.value)` for `totalSpendings`: kept as the tag `Numeric(text)`. The conversion itself is not modelled.
- CreateCampaign.SerializeRoundTrip: recovers the form text from the `Numeric` tag, not from the number sent. The real round trip does not survive `Number()`: " 12", "012" and "12.0" all become 12, and "abc" becomes NaN, which JSON sends as null.
- The detail page's mock send (timer, `Math.random`, `Math.round`), its edit alert and its delete navigation.
- Date and currency formatting: `toLocaleDateString` and `Intl.NumberFormat`, a locale library.
- Rendering, CSS classes, routing and bootstrap. The status and badge classes appear only as the choices they encode.
- The customer, order and campaign detail pages' fixed mock data, the campaign history page and the bulk-upload button: they hold no decision logic.
- Audience evaluation of segment rules: the client only forwards the rules to the server.
- Orders.OrdersView.EditOrder: takes the order's items as strings. The other order form fields (order id, customer id, price, notes) and the reads of `order.customerId._id` and `order.price` are not modelled, and neither is the list cell that shows `item.name` for each item.
- CreateCampaign.CampaignForm.GenerateMessage: takes the reply's message as given. The reply's shape, and a reply whose `data` is missing, are not modelled.
- Text.Capitalize: upper-cases ASCII letters only. Unicode case mapping is not modelled.
- String lengths count characters, not UTF-16 code units.
- Record ids are compared structurally. Object identity (`===` on two distinct objects) is not modelled.
- Orders.OrdersView.ReceivePage, Customers.CustomersView.ReceivePage, Campaigns.CampaignsView.ReceivePage: a response without `pagination` is treated as a failed request. The code would store its `data` before the read of `pagination.pages` throws; the error page then hides it. The loading spinner is not modelled.
- The "Showing" bounds and the page count are not stored in the view classes. They are functions of the page and the list (`Pagination.ShowingStart`, `Pagination.ShowingEnd`).

## Findings

| source | as written | input that shows it | evidently intended | confidence | as-written member | corrected member |
|---|---|---|---|---|---|---|
| src/pages/Orders.jsx:262-263 | the end of "Showing X to Y" is `Math.min(page * 10, len)`, with `len` the length of the current page's records only; src/pages/Customers.jsx:190-191 repeats it | page 2 with 3 records reads "Showing 11 to 3" | end `(page - 1) * 10 + len` | not executed | Pagination.ShowingEndBeforeStart | Pagination.IntendedShowingRange |
| src/pages/Dashboard.jsx:43 | revenue reads `totalCustomersRes.data?.data`, but the service returns the body, whose `data` is the customer list (src/pages/Customers.jsx:33) | one customer with `totalSpendings` 250: revenue shows 0 | sum over `totalCustomersRes.data` | not executed | Dashboard.RevenueIgnoresCustomerList | Dashboard.IntendedRevenueSumsCustomers |

The rest of the model uses the corrected definitions. The dashboard has both: `Dashboard.Load` is the page as written, `Dashboard.IntendedLoad` reads the revenue with `Dashboard.IntendedTotalRevenue`, and `Dashboard.LoadOfCustomerList` and `Dashboard.LoadsDifferOnlyInRevenue` relate the two.
