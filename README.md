# Mini CRM front-end: a Dafny model of its screens

The system is a small CRM web front-end for shopkeepers. Seven screens make up
its core, and this project models each of them:

- the **campaign builder**, where a marketer writes a message, builds an audience
  from groups of rules and saves the campaign;
- the **delivery-log tracker**, which starts a draft campaign and polls while it runs;
- the **campaign history**, which lists campaigns and deletes them behind a confirmation dialog;
- the **order form** with its line items and running total;
- the **new-customer form** and its validation;
- the **customer list** and the **order list**, with their status chips and
  their classification of fetch errors.

Each screen is a Dafny module (`CampaignBuilder`, `CampaignLogs`, `CampaignHistory`,
`AddOrder`, `AddCustomer`, `CustomerList`, `OrderList`). Two shared modules hold
common definitions. `Common` has optional values, chip colours, the shape of an
HTTP client error and the outcome of one network call. `Text` models the
JavaScript string operations the screens use: `toLowerCase`/`toUpperCase`, `trim`,
`includes`, and `replace` with a string pattern, together with the first-occurrence
search that `replace` performs.

Some screens keep state that their handlers update. Each of those is a `class`
whose fields are the component's state variables, and each event handler is a
method. A method's `modifies` clause names the state it may set, field by field.
The delivery-log tracker is the exception: its methods modify the whole object
and state the whole new state through its `State()` function. Each method's
`ensures` clause ties the new state to pure functions of the old state. Those
functions carry the properties. The order list only ever sets its state from a
fetch result, so it is modelled on values.

Every network call is a parameter of type `Reply<T>`: either the response body or
the error the call was rejected with. Each screen records the calls it issues, in
order, in a `requests` field. This is how the model states which calls a handler
makes, in what order, and when it makes none. Navigation is modelled as a
`navigatedTo` field holding the target path.

The campaign builder's save does not check that rules are complete. It checks only
that the three required properties are non-empty and that the first group has at
least one rule
(src/components/CampaignBuilder.js:219-230). `CampaignBuilder.GateIgnoresRuleCompleteness`
shows that an entirely empty rule, and a second group with no rules at all, both
pass that check.

## Model

| member | source | states |
|---|---|---|
| Common.Classify | src/components/CustomerList.js:50-57 | a failed fetch counts as a timeout exactly when its code is ECONNABORTED; otherwise as unreachable exactly when no response came; otherwise as a server-side failure |
| Common.ListFetchError | src/components/OrderList.js:44-50 | the timeout and network texts go with the first two classes; a server-side failure gets the screen's own text |
| Common.RemoveAt | src/components/CampaignBuilder.js:170-172 | dropping the element at index i leaves one element fewer, keeps the elements before i, and shifts the elements after i down by one |
| Text.ToLower | src/components/CampaignHistory.js:34 | the result has the same length and no capital letter; every character that is not a capital letter is unchanged; each character agrees with the input's up to case |
| Text.ToUpper | src/components/CampaignLogs.js:94 | the result has the same length and no lower-case letter; every character that is not a lower-case letter is unchanged; each character agrees with the input's up to case |
| Text.LowerIgnoresCase | src/components/CustomerList.js:85 | lower-casing forgets any earlier upper-casing and is idempotent |
| Text.UpperIgnoresCase | src/components/CampaignLogs.js:94 | upper-casing forgets any earlier lower-casing and is idempotent |
| Text.TrimStart | src/components/AddCustomer.js:47 | the result is a suffix of the input, everything removed is whitespace, and the result does not start with whitespace |
| Text.TrimEnd | src/components/AddCustomer.js:52 | the result is a prefix of the input, everything removed is whitespace, and the result does not end with whitespace |
| Text.Trim | src/components/AddCustomer.js:47 | `trim()`: the result is no longer than the input and neither starts nor ends with whitespace; TrimEmptyIffBlank shows it is empty exactly when the input is all whitespace (see also line 52) |
| Text.TrimEmptyIffBlank | src/components/AddCustomer.js:47-56 | `trim()` gives the empty string exactly when every character is whitespace |
| Text.IndexFrom | src/components/CampaignBuilder.js:117-118 | the result is the first occurrence at or after k, and None is returned exactly when there is no occurrence from k on |
| Text.IndexOf | src/components/CampaignBuilder.js:118 | the result is the first occurrence of the pattern, and None is returned exactly when the pattern does not occur anywhere |
| Text.Includes | src/components/AddCustomer.js:57 | true exactly when the pattern occurs at some index |
| Text.ReplaceFirst | src/components/CampaignBuilder.js:118 | only the first occurrence is replaced: the text before it and after it is kept, and a string without the pattern is unchanged |
| Text.IncludesNonWhitespace | src/components/AddCustomer.js:52-57 | a string that contains a visible character is not blank |
| CampaignBuilder.SetRuleProperty | src/components/CampaignBuilder.js:143-152 | the named property of the rule takes the value; the other two properties stay |
| CampaignBuilder.AppendGroup | src/components/CampaignBuilder.js:154-168 | a new AND group with one empty rule is added at the end; the existing groups and well-formedness are kept |
| CampaignBuilder.DeleteGroup | src/components/CampaignBuilder.js:170-172 | group i is removed, and the other groups keep their order |
| CampaignBuilder.SetCombinator | src/components/CampaignBuilder.js:132-141 | only group g's combinator changes; every rule and every other group stays |
| CampaignBuilder.SetRule | src/components/CampaignBuilder.js:143-152 | only rule k of group g changes, in the named property; everything else stays |
| CampaignBuilder.AppendRule | src/components/CampaignBuilder.js:174-184 | an empty rule is added at the end of group g; its earlier rules and the other groups stay |
| CampaignBuilder.DeleteRule | src/components/CampaignBuilder.js:186-194 | rule k is removed from group g, and the order is kept; with more than one rule left, well-formedness is kept |
| CampaignBuilder.FreshBuilderAddGroup | src/components/CampaignBuilder.js:75-86 | the builder starts with one AND group holding one empty rule; adding a group gives two such groups, and group 0's only rule cannot be deleted |
| CampaignBuilder.SaveGate | src/components/CampaignBuilder.js:219-230 | the save proceeds exactly when name, description and message are non-empty and the first group has a rule; the two error texts are given in that order |
| CampaignBuilder.WellFormedPassesGate | src/components/CampaignBuilder.js:219-230 | filled-in properties and a well-formed rule list always pass the gate |
| CampaignBuilder.GateIgnoresRuleCompleteness | src/components/CampaignBuilder.js:225-230 | an all-empty rule, and a later group with no rules, both pass the gate |
| CampaignBuilder.CreatedId | src/components/CampaignBuilder.js:233-253 | a create call yields an id exactly when it succeeded with a truthy `_id`; otherwise it throws the call's own error or "Failed to create …" |
| CampaignBuilder.SaveErrorMessage | src/components/CampaignBuilder.js:265 | the server's `error` text wins, then the error's message, then the fallback text; the result is never empty |
| CampaignBuilder.SavePlan | src/components/CampaignBuilder.js:212-270 | a failed gate issues no call; otherwise the segment is created first, named `<name> Segment`; the campaign call follows only when that yields an id; the save ends without error exactly when both produced ids |
| CampaignBuilder.FailedCampaignLeavesSegment | src/components/CampaignBuilder.js:233-265 | when the campaign call fails, an error is shown and the calls issued are exactly the segment create followed by the campaign create: nothing undoes the segment |
| CampaignBuilder.CleanMessage | src/components/CampaignBuilder.js:114-119 | the first doubled greeting becomes a single one; the text before and after it is kept, and text without a doubled greeting is unchanged |
| CampaignBuilder.CleanLeadingDouble | src/components/CampaignBuilder.js:114-119 | a message that starts with a doubled greeting loses exactly the second greeting |
| CampaignBuilder.CleanMessageKeepsLaterDuplicates | src/components/CampaignBuilder.js:302-307 | a tripled greeting comes out doubled, and cleaning that again gives the single greeting, so the clean-up is not idempotent |
| CampaignBuilder.AudienceType | src/components/CampaignBuilder.js:277-286 | the type depends only on the first rule's field: lastPurchase gives inactive customers, totalSpend gives high-value customers, anything else the general audience |
| CampaignBuilder.Builder.constructor | src/components/CampaignBuilder.js:63-86 | the initial draft, with the default template, status draft and zero stats, and one AND group with one empty rule |
| CampaignBuilder.Builder.FetchCampaign | src/components/CampaignBuilder.js:102-109 | in edit mode the draft is replaced by the fetched campaign, or the fetch error is shown |
| CampaignBuilder.Builder.HandleInputChange | src/components/CampaignBuilder.js:111-130 | message edits pass through CleanMessage; the other fields are stored as typed |
| CampaignBuilder.Builder.HandleConditionGroupChange | src/components/CampaignBuilder.js:132-141 | the conditions become SetCombinator of the old ones |
| CampaignBuilder.Builder.HandleRuleChange | src/components/CampaignBuilder.js:143-152 | the conditions become SetRule of the old ones |
| CampaignBuilder.Builder.AddConditionGroup | src/components/CampaignBuilder.js:154-168 | the conditions become AppendGroup of the old ones |
| CampaignBuilder.Builder.RemoveConditionGroup | src/components/CampaignBuilder.js:170-172 | only callable with two or more groups (the button is disabled otherwise); the conditions become DeleteGroup of the old ones (see also line 439) |
| CampaignBuilder.Builder.AddRule | src/components/CampaignBuilder.js:174-184 | the conditions become AppendRule of the old ones |
| CampaignBuilder.Builder.RemoveRule | src/components/CampaignBuilder.js:186-194 | only callable with two or more rules in the group; the conditions become DeleteRule of the old ones (see also line 492) |
| CampaignBuilder.Builder.PreviewAudience | src/components/CampaignBuilder.js:196-210 | posts the current conditions; stores the audience size, or shows the preview error; the spinner ends either way |
| CampaignBuilder.Builder.HandleSave | src/components/CampaignBuilder.js:212-270 | the issued calls and the final error are those of SavePlan; after a full success the screen shows the saved message and goes to the history (see also line 614) |
| CampaignBuilder.Builder.SetCampaignObjective | src/components/CampaignBuilder.js:552-553 | stores the objective text |
| CampaignBuilder.Builder.SetNaturalLanguageInput | src/components/CampaignBuilder.js:398 | stores the natural-language rule text |
| CampaignBuilder.Builder.GenerateMessageSuggestions | src/components/CampaignBuilder.js:272-300 | sends the objective with AudienceType of the conditions; stores the suggestions, or shows the error |
| CampaignBuilder.Builder.HandleSuggestionClick | src/components/CampaignBuilder.js:302-314 | the message becomes CleanMessage of the suggestion, and the suggestion list is emptied |
| CampaignBuilder.Builder.HandleNaturalLanguageConvert | src/components/CampaignBuilder.js:316-337 | converted rules replace the conditions as returned, and the success text is shown; a reply without rules, or a failed call, shows the conversion error |
| CampaignLogs.Percentage | src/components/CampaignLogs.js:119-124 | (c / t) * 100 times t is c * 100; it lies in [0, 100] when 0 <= c <= t, and equals 100 when c = t |
| CampaignLogs.Progress | src/components/CampaignLogs.js:119-124 | progress is 0 when the audience size is 0 or absent; otherwise it is completed * 100 / total, where completed counts sent plus failed; it stays within [0, 100] while completed <= total |
| CampaignLogs.ProgressMonotone | src/components/CampaignLogs.js:119-124 | more completed messages never lower the progress when the total is the same |
| CampaignLogs.LogStatusColor | src/components/CampaignLogs.js:93-104 | SENT, FAILED and PENDING, compared upper-cased, give success, error and warning; an absent or unknown status gives default |
| CampaignLogs.LogStatusColorIgnoresCase | src/components/CampaignLogs.js:93-104 | the log colour does not depend on letter case |
| CampaignLogs.CampaignStatusColor | src/components/CampaignLogs.js:106-117 | completed, running and failed, compared lower-cased, give success, info and error; anything else gives default |
| CampaignLogs.CampaignStatusColorIgnoresCase | src/components/CampaignLogs.js:106-117 | the campaign colour does not depend on letter case |
| CampaignLogs.AfterFetch | src/components/CampaignLogs.js:38-64 | `fetchLogs` as a step of the screen's state; FetchWithoutId, FetchReplacesSnapshot, FailedFetch and RepollIffRunning state what it does: nothing without an id, the response replaces the snapshot, a failure empties the logs and sets the error, and a poll is armed exactly after a successful fetch of a running campaign |
| CampaignLogs.AfterPoll | src/components/CampaignLogs.js:52-56 | an armed timer fires, `retryCount` goes up and the effect fetches again (see also lines 66-68); PollingStops shows that when the last armed poll fires and its fetch fails or finds the campaign not running, `retryCount` has gone up by one and no poll remains armed |
| CampaignLogs.AfterStart | src/components/CampaignLogs.js:70-91 | `handleStartCampaign` as a step; StartOrder shows the status patch, the send and the refresh are issued in that order, each only after the one before succeeded, with the start error otherwise; DispatchFailureKeepsDraft shows a failed send leaves the Start button showing |
| CampaignLogs.ShowsStartButton | src/components/CampaignLogs.js:171 | the Start button is drawn for a draft campaign once loading is over; StartAndProgressExclusive shows it never appears together with the progress bar |
| CampaignLogs.ShowsProgress | src/components/CampaignLogs.js:190 | the progress bar is drawn for a running campaign once loading is over; StartAndProgressExclusive shows it never appears together with the Start button |
| CampaignLogs.FetchWithoutId | src/components/CampaignLogs.js:38-39 | with no route id a fetch changes nothing, not even the loading flag |
| CampaignLogs.FetchReplacesSnapshot | src/components/CampaignLogs.js:41-50 | a successful fetch replaces logs, status and stats with the response, whatever was there before; absent logs become [] and absent stats become zeros |
| CampaignLogs.FailedFetch | src/components/CampaignLogs.js:56-62 | a failed fetch empties the logs, shows the error, ends loading, and keeps the last status and stats |
| CampaignLogs.RepollIffRunning | src/components/CampaignLogs.js:52-56 | a fetch arms one more poll exactly when it succeeds with status running (see also lines 66-68) |
| CampaignLogs.PollingStops | src/components/CampaignLogs.js:52-56 | once the last armed poll sees a status other than running, or fails, no poll is left (see also lines 66-68) |
| CampaignLogs.StartOrder | src/components/CampaignLogs.js:70-91 | the status update always goes first; the send follows only a successful update, and the refresh only a successful send; either failure shows the start error |
| CampaignLogs.DispatchFailureKeepsDraft | src/components/CampaignLogs.js:70-91 | if the send fails after a successful update, the screen still shows the draft's Start button (see also lines 171-177) |
| CampaignLogs.StartAndProgressExclusive | src/components/CampaignLogs.js:171-177 | the Start button and the progress bar are never shown together (see also line 190) |
| CampaignLogs.RunningThenCompleted | src/components/CampaignLogs.js:52-56 | a running campaign at 100/40/10 shows 50% and arms a poll, and a completed poll arms none (see also lines 119-124) |
| CampaignLogs.Tracker.constructor | src/components/CampaignLogs.js:26-36 | the initial state: loading, no logs, zero stats |
| CampaignLogs.Tracker.FetchLogs | src/components/CampaignLogs.js:38-64 | the new state is AfterFetch of the old one |
| CampaignLogs.Tracker.PollElapsed | src/components/CampaignLogs.js:52-56 | an armed timer fires: the retry count goes up and the logs are fetched again (see also lines 66-68) |
| CampaignLogs.Tracker.HandleStartCampaign | src/components/CampaignLogs.js:70-91 | only callable while the Start button shows and is enabled; the new state is AfterStart of the old one (see also lines 171-177) |
| CampaignHistory.StatusColor | src/components/CampaignHistory.js:33-48 | scheduled, running, completed and failed, compared lower-cased, give info, warning, success and error; draft, absent and unknown give default |
| CampaignHistory.StatusColorIgnoresCase | src/components/CampaignHistory.js:33-48 | the colour does not depend on letter case |
| CampaignHistory.Progress | src/components/CampaignHistory.js:237 | the list's progress as written: sent * 100 / audienceSize, with no guard; NaN or Infinity when the audience size is 0 (see also line 242) |
| CampaignHistory.EmptyAudienceProgress | src/components/CampaignHistory.js:237 | an empty audience gives NaN with nothing sent, and +Infinity with messages sent (see also line 242) |
| CampaignHistory.GuardedProgress | src/components/CampaignHistory.js:237 | the intended progress: equal to the written one for a positive audience, 0 otherwise, and within [0, 100] while sent <= audience (see also line 242) |
| CampaignHistory.ListProgressIgnoresFailed | src/components/CampaignHistory.js:237 | unlike the tracker, the list counts only sent messages; both agree exactly when nothing failed |
| CampaignHistory.History.constructor | src/components/CampaignHistory.js:52-56 | no campaigns, loading, dialog closed |
| CampaignHistory.History.FetchCampaigns | src/components/CampaignHistory.js:58-70 | stores the campaigns and clears the error, or shows the fetch error; loading ends either way |
| CampaignHistory.History.HandleDeleteClick | src/components/CampaignHistory.js:84-87 | opens the dialog for that campaign |
| CampaignHistory.History.HandleDeleteConfirm | src/components/CampaignHistory.js:89-100 | issues the delete of the selected campaign; after success the dialog closes, the selection is cleared and the list is fetched again; after failure the dialog stays open on the same campaign and the delete error is set |
| CampaignHistory.History.HandleDeleteCancel | src/components/CampaignHistory.js:102-105 | closes the dialog and forgets the target |
| AddOrder.Fold | src/components/AddOrder.js:103-105 | the `reduce` that adds each line's quantity times price to the accumulator, left to right; FoldIsSum shows it equals the accumulator plus the reference Sum |
| AddOrder.CalculateTotal | src/components/AddOrder.js:102-106 | `calculateTotal`, the reduction from 0; TotalIsSum shows it equals the reference Sum of the subtotals |
| AddOrder.FoldIsSum | src/components/AddOrder.js:102-106 | the reduction from acc equals acc plus the sum of the line subtotals |
| AddOrder.TotalIsSum | src/components/AddOrder.js:102-106 | the order total is the sum of quantity * price over the lines |
| AddOrder.SumAppend | src/components/AddOrder.js:102-106 | the sum of two lists joined is the sum of their sums |
| AddOrder.SplitAt | src/components/AddOrder.js:102-106 | the total splits into the lines before i, line i and the lines after i |
| AddOrder.TotalOfEmpty | src/components/AddOrder.js:30-42 | no lines, and the single blank starting line, both total 0 (see also lines 102-106) |
| AddOrder.TotalNonNegative | src/components/AddOrder.js:102-106 | lines with no negative quantity or price give a total that is not negative |
| AddOrder.SumNonNegative | src/components/AddOrder.js:102-106 | the same for the reference sum |
| AddOrder.ApplyEdit | src/components/AddOrder.js:76-86 | an edit changes the named property of the line and keeps the others |
| AddOrder.ChangeItem | src/components/AddOrder.js:76-86 | only line i changes, and the total moves by the change in that line's subtotal |
| AddOrder.AppendItem | src/components/AddOrder.js:88-93 | a blank line (quantity 1, price 0) is added at the end; the earlier lines and the total are unchanged |
| AddOrder.DeleteItem | src/components/AddOrder.js:95-100 | line i is removed and the order is kept; the total drops by that line's subtotal |
| AddOrder.SetAddressField | src/components/AddOrder.js:65-74 | only the named address field changes |
| AddOrder.SetFormField | src/components/AddOrder.js:57-63 | only the named field changes; the lines and the address stay |
| AddOrder.BuildOrder | src/components/AddOrder.js:114-119 | the posted order is the whole form, with the sum of the subtotals as its total and both statuses pending |
| AddOrder.OrderEntry.constructor | src/components/AddOrder.js:25-42 | the initial form: no customer, one blank line, empty address, cash; its total is 0 |
| AddOrder.OrderEntry.FetchCustomers | src/components/AddOrder.js:44-55 | stores the customers, or shows the customer fetch error |
| AddOrder.OrderEntry.HandleInputChange | src/components/AddOrder.js:57-63 | the form becomes SetFormField of the old one |
| AddOrder.OrderEntry.HandleShippingAddressChange | src/components/AddOrder.js:65-74 | the address becomes SetAddressField of the old one |
| AddOrder.OrderEntry.HandleItemChange | src/components/AddOrder.js:76-86 | the lines become ChangeItem of the old ones (see also lines 189, 200) |
| AddOrder.OrderEntry.AddItem | src/components/AddOrder.js:88-93 | the lines become AppendItem of the old ones |
| AddOrder.OrderEntry.RemoveItem | src/components/AddOrder.js:95-100 | only callable with two or more lines; the lines become DeleteItem of the old ones, so at least one line is always left (see also line 209) |
| AddOrder.OrderEntry.HandleSubmit | src/components/AddOrder.js:108-129 | posts BuildOrder of the form; on success goes to /orders, on failure shows the create error; loading ends either way |
| AddCustomer.Change | src/components/AddCustomer.js:33-39 | the checkbox stores its checked flag, and each text input stores its value; the other fields stay |
| AddCustomer.Validate | src/components/AddCustomer.js:46-61 | the name check comes first, then the blank-email check, then the "@" check; the form passes exactly when the name is not blank and the email contains "@" |
| AddCustomer.AtSignNotBlank | src/components/AddCustomer.js:51-57 | an email containing "@" is never blank |
| AddCustomer.ValidateTrims | src/components/AddCustomer.js:46-61 | the outcomes stated with `trim()` as the code writes them |
| AddCustomer.VisibleNameAndAtSignPass | src/components/AddCustomer.js:46-61 | any name with one visible character and any email with an "@" pass |
| AddCustomer.SubmitErrorMessage | src/components/AddCustomer.js:70 | the server's non-empty message, otherwise the fallback text; never empty |
| AddCustomer.SubmitPlan | src/components/AddCustomer.js:41-74 | the form is posted exactly when it validates; a failed check shows its own text; the screen goes home exactly when the post succeeded with a body; a failed post shows SubmitErrorMessage |
| AddCustomer.CustomerEntry.constructor | src/components/AddCustomer.js:24-31 | the initial form: empty texts, active |
| AddCustomer.CustomerEntry.HandleChange | src/components/AddCustomer.js:33-39 | the form becomes Change of the old one |
| AddCustomer.CustomerEntry.HandleSubmit | src/components/AddCustomer.js:41-74 | the requests, error and navigation follow SubmitPlan; the unmodified form is posted; loading ends either way |
| CustomerList.StatusColor | src/components/CustomerList.js:84-97 | pending, processing, completed and cancelled, compared lower-cased, give warning, info, success and error; absent and unknown give default |
| CustomerList.StatusColorIgnoresCase | src/components/CustomerList.js:84-97 | the colour does not depend on letter case |
| CustomerList.FetchErrorMessage | src/components/CustomerList.js:50-57 | timeout text, network text or the customers' generic text, by Classify |
| CustomerList.TimeoutWins | src/components/CustomerList.js:50-53 | a timeout is reported as a timeout even when a response is present |
| CustomerList.PaymentColor | src/components/CustomerList.js:275 | success exactly for "paid", warning otherwise |
| CustomerList.PhoneLabel | src/components/CustomerList.js:221 | the phone when it is present and non-empty, otherwise "N/A" |
| CustomerList.ActiveChip | src/components/CustomerList.js:224-225 | the label and the colour both follow the active flag |
| CustomerList.Toggle | src/components/CustomerList.js:80-82 | nothing is expanded exactly when the toggled row was the expanded one; otherwise that row is the single expanded row |
| CustomerList.ToggleTwice | src/components/CustomerList.js:80-82 | toggling a row twice restores the previous state unless a different row was expanded |
| CustomerList.CustomerListView.constructor | src/components/CustomerList.js:35-38 | loading, with no customers and no row expanded |
| CustomerList.CustomerListView.FetchCustomers | src/components/CustomerList.js:40-61 | requests with a 5000 ms timeout; stores the customers and clears the error, or shows FetchErrorMessage; loading ends either way |
| CustomerList.CustomerListView.ToggleCustomerExpansion | src/components/CustomerList.js:80-82 | the expanded row becomes Toggle of the old one |
| CustomerList.CustomerListView.HandleViewCustomer | src/components/CustomerList.js:67-70 | goes to the customer's page |
| CustomerList.CustomerListView.HandleAddCustomer | src/components/CustomerList.js:72-74 | goes to the new-customer form |
| CustomerList.CustomerListView.HandleAddOrder | src/components/CustomerList.js:76-78 | goes to the order form with the customer in the query string |
| OrderList.StatusColor | src/components/OrderList.js:68-81 | an absent status throws while rendering, because nothing guards against null; a present one is coloured exactly as the customer list colours it |
| OrderList.RowRenders | src/components/OrderList.js:68-81 | the status chip can be computed exactly when the status is present, and it is coloured exactly for the four known statuses (see also lines 195-200) |
| OrderList.FetchErrorMessage | src/components/OrderList.js:44-50 | timeout text, network text or the orders' generic text, by Classify |
| OrderList.SameClassificationAsCustomers | src/components/OrderList.js:44-50 | the two lists report an error in the same words exactly when it is not a server-side failure |
| OrderList.PaymentColor | src/components/OrderList.js:205 | success exactly for "paid", warning otherwise; the same as the customer list's chip |
| OrderList.AfterFetch | src/components/OrderList.js:33-54 | success stores the orders and clears the error; failure keeps the orders and shows FetchErrorMessage; loading is off after either |
| OrderList.RetryClearsError | src/components/OrderList.js:40-41 | a successful fetch after a failure clears the error and shows the new orders |

## Left out

- Rendering, styling, icons and everything Material UI draws are not modelled. Only
  the values the screens compute for display are: chip colours and labels, the
  progress value, and the phone label.
- HTTP transport, JSON encoding, the API base URL and axios itself are not modelled. Each call
  is a parameter that holds its outcome. Console logging is left out.
- React scheduling is not modelled. State updates are applied in order, at once, and
  without batching. The order form's item edit copies `formData.items` from the render
  instead of the pending state; under this model those two are the same.
- The 2000 ms poll delay in the delivery-log tracker is not modelled as time. An armed
  poll is a counter that a `PollElapsed` step consumes. The refresh that a start
  triggers is not awaited, and it is modelled as finishing before the start ends.
- Case mapping covers ASCII letters only. JavaScript's full Unicode mappings (for example
  U+017F, U+0131 and U+212A) are not modelled.
- Numbers are mathematical reals and integers. `parseInt`/`parseFloat` of the quantity and
  price inputs (NaN on bad input), `toFixed`, `Math.round` and `toLocaleString` are left out.
  The as-written list progress models NaN and ±Infinity explicitly.
- The campaign builder's delivery dialog state is not modelled, because no handler in
  that file ever opens it.
- Disabled buttons become method preconditions only where the handler depends on them
  to keep the rule list or the line list non-empty: group, rule and line deletion, and
  the Start button. The disabled states of the preview, suggestion, convert, save and
  submit buttons are not preconditions. Those handlers are modelled on any state,
  because their code does not check these conditions itself.
- The order form does not read the `?customer=` query parameter that the customer
  list's "add order" button puts in the link. The form starts with no customer.
- The refresh after a successful campaign delete is not awaited
  (src/components/CampaignHistory.js:95). It is modelled as finishing inside the handler.
- The campaign builder's rule handlers change the nested rule arrays of the previous
  state in place (src/components/CampaignBuilder.js:146, 177 and 189). The model works on
  values, so this sharing between old and new state is not captured.
- While the history's error is set, the screen draws only the error and a Retry button
  (src/components/CampaignHistory.js:117-142). After a failed delete the dialog is still
  open in the model's state, but it is hidden until a retry succeeds; the model keeps
  the state and does not describe what is drawn.
- A campaign whose `stats` is null makes the history table throw while it renders
  (src/components/CampaignHistory.js:230). Rows in the model always carry their stats.
- A row of the order list also throws when its `customer` is null or its `totalAmount`
  is missing (src/components/OrderList.js:193-194). `OrderList.OrderRow` has no customer
  field, and its total is always a number. No error boundary catches such a throw, so it
  takes down the whole screen; the model does not describe that.
- `CampaignBuilder.Builder.HandleNaturalLanguageConvert`: it stores converted rules as
  returned. An empty group list, or a group without rules, is accepted and can break the
  rule-list invariant. The model states this rather than ruling it out.

## Findings

| source | as written | input that shows it | evidently intended | confidence | as-written member | corrected member |
|---|---|---|---|---|---|---|
| src/components/CampaignHistory.js:237-242 | progress is `sent / audienceSize * 100`, with no zero check | a campaign with audienceSize 0: sent 0 gives NaN, and sent 5 gives Infinity | 0% for an empty audience, as the delivery-log tracker does (src/components/CampaignLogs.js:123) | high; not executed | CampaignHistory.Progress, CampaignHistory.EmptyAudienceProgress | CampaignHistory.GuardedProgress |
