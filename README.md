# CRM frontend: segment rules, audience preview, order form, campaign creation

A Dafny model of the logic in the CRM frontend's React components.

**Segment rule tree (`RuleTree`).** The rule builder edits this tree. A rule object is a group when its `operator` is truthy. A group holds its children in a `rules` array; a condition holds `field`, `condition` and `value`.

The three edit operations, `updateRule`, `addRule` and `removeRule`, copy only the root object. They then change nested objects and arrays in place. So the model is a heap model:
- `Node` and `RuleList` are classes.
- The path walk is a `while` loop.
- Each operation's `modifies` clause covers at most the objects the JavaScript may change. For `addRule` that is the target's array and `rules` slot; for `removeRule` it is the parent's array; for `updateRule` it is the attributes of the node on the path.
- The contracts state what the input tree sees of the edit.

**Field rules (`RuleFields`).** The field table, the conditions each field type offers, the input kind a condition row shows, and the coercion of a typed value to a number.

**Audience preview (`AudiencePreview`).** The rule builder component as a state machine. Its events:
- an edit (`handleRuleChange`);
- the 500 ms debounce timer firing (`fetchAudiencePreview`);
- time passing;
- the preview request being answered.

**Order form (`OrderForm`).** The order page's item list editor, the two ways the form is opened, the payload and the create-or-update choice on submit, and the result modal.

**Campaign creation (`CampaignCreate`).** The page's validation gate in front of the create call, the trimmed-query check and the rule replacement of the AI rule generation, and the modals of every outcome.

**Helpers (`Helpers`).** `capitalizeFirstLetter`.

**How effects are modelled.**
- The server calls (`getAudiencePreview`, `createCampaign`, `generateSegmentRulesFromAI`, `createOrder`, `updateOrder`) are recorded in outbox fields.
- Their answers are separate events that take the reply as a parameter.
- The time of an event is a parameter.
- The current day and the day of an order's timestamp are parameters too.
- `Number(text)` is kept symbolic: a `NumberOf(text)` value.

Three behaviours of the code matter throughout:
- The edit operations change the tree they are given. They keep no copy of it.
- A path that does not lead to a node makes `updateRule` and `addRule` throw a `TypeError`. The same happens in `removeRule` when the path without its last index does not lead to a node with a `rules` array. The code has no error result for "path not found" or "not a group".
- A last index past the end of the parent's array is not an error: `splice` then removes nothing. The empty path removes the root's first child, because `path[-1]` is `undefined` and `splice` reads it as 0.

The model follows the code on all three.

Further behaviours the model follows:
- Only the top-level `rules` length is checked, by both the preview and the campaign gate. So a tree whose only child is an empty group or a blank draft condition is sent.
- A missing `rules` array makes the checks throw, but under different conditions, because each guard is evaluated left to right. The preview throws for a group without an array, before any state changes. The campaign gate never reads `operator`: it throws for any tree without an array once the name and template are non-empty, and refuses first when one of them is empty. It throws after `loading` was set, which leaves it set.
- A preview answer is applied whichever request it answers.
- The sample list is not capped.
- Changing a condition's field keeps its old `condition` and `value`: `Assign` changes only the named key.

## Model

| member | source | states |
|---|---|---|
| Common.ToNumber | src/components/RuleBuilder.jsx:208 | `Number(v)` always gives a number, spelled by the same text; a number stays itself |
| Common.OrDefault | src/pages/CampaignCreatePage.jsx:66-67 | `message \|\| fallback`: the message when it is present and non-empty, else the fallback |
| RuleTree.Assign | src/components/RuleBuilder.jsx:63 | `target[key] = value` sets the named key and keeps every other key |
| RuleTree.Node.Group | src/components/RuleBuilder.jsx:75 | a new group `{operator, rules: []}` has a fresh empty array, and renders as a group exactly when its operator is non-empty |
| RuleTree.RuleList.Empty | src/components/RuleBuilder.jsx:72-75 | a new array `[]` has no elements |
| RuleTree.Node.Draft | src/components/RuleBuilder.jsx:77 | a new draft condition `{field: '', condition: '', value: ''}` has no array and renders as a condition |
| RuleTree.IsGroup | src/components/RuleBuilder.jsx:165 | a rule renders as a group when its `operator` is truthy, that is non-empty |
| RuleTree.Node.CopyOf | src/components/RuleBuilder.jsx:58 | the shallow copy `{ ...currentRules }` shares the original's `rules` array |
| RuleTree.Resolve | src/components/RuleBuilder.jsx:59-62 | the node the walk `target = target.rules[path[i]]` reaches is the start or a node of the tree |
| RuleTree.ParentPath | src/components/RuleBuilder.jsx:84-87 | the prefix walked by `removeRule` is the path without its last index |
| RuleTree.RemovedIndex | src/components/RuleBuilder.jsx:87-88 | `path[path.length - 1]`: a non-empty path is its parent path followed by this index; the empty path gives `undefined`, which `splice` reads as 0 |
| RuleTree.Splice | src/components/RuleBuilder.jsx:88 | `splice(k, 1)` removes exactly element `k`: one shorter, the same elements before and after it shifted by one, and the same multiset less that element; an index past the end changes nothing |
| RuleTree.TopLevel | src/components/RuleBuilder.jsx:97 | `rules.length` is known exactly when the node has an array, and is then that array's length |
| RuleTree.PrefixResolves | src/components/RuleBuilder.jsx:59-62 | when a walk reaches a node, every prefix of the path reaches one too |
| RuleTree.SharedRulesResolveAlike | src/components/RuleBuilder.jsx:58-62 | two objects sharing one array reach the same node along every non-empty path, so the copied root leads into the input's own subtree |
| RuleTree.StepResolve | src/components/RuleBuilder.jsx:60-61 | each loop round performs one in-range array step of the walk |
| RuleTree.Descend | src/components/RuleBuilder.jsx:59-62 | after `steps` rounds the loop's target is the copy (no steps) or the input's node at that prefix |
| RuleTree.CopyAndDescend | src/components/RuleBuilder.jsx:58-62 | a fresh root copy with the same attributes and array, and the node the walk reaches from it; the tree stays closed and well formed |
| RuleTree.UpdateRule | src/components/RuleBuilder.jsx:57-65 | path `[]` edits only the copy; a deeper path edits the shared node, which the input and the result both reach; setting an operator only where there is an array keeps every group with an array |
| RuleTree.AssignAt | src/components/RuleBuilder.jsx:63 | one node's attributes take the assignment, and nothing else changes |
| RuleTree.AppendChild | src/components/RuleBuilder.jsx:72-78 | a target without an array gets a fresh one; exactly one fresh node is pushed at the end: an empty AND group or a blank draft |
| RuleTree.AddRule | src/components/RuleBuilder.jsx:66-80 | the target's array ends as its old contents plus one fresh node; an existing array is extended in place, so even at the root the input sees the new element; the tree stays well formed |
| RuleTree.RemoveRule | src/components/RuleBuilder.jsx:81-90 | the array of the node at the path prefix, which the input shares, becomes its `splice` at the last index; it is the only thing changed besides the fresh root copy |
| RuleTree.SpliceUndoesAppend | src/components/RuleBuilder.jsx:66-90 | `splice` at the index an appended element got removes that element and restores the array's old contents |
| RuleFields.Code | src/components/RuleBuilder.jsx:23-45 | the `value` string of each condition option |
| RuleFields.ConditionOf | src/components/RuleBuilder.jsx:194 | the condition a selected `value` string names, or none for any other text (the empty "Select Condition" option included) |
| RuleFields.CodeRoundTrip | src/components/RuleBuilder.jsx:23-45 | selecting a condition's own `value` string gives that condition back |
| RuleFields.ConditionsForField | src/components/RuleBuilder.jsx:23-48 | every field type offers some conditions; EQ for number and string, GT only for number, CONTAINS only for string, INACTIVE_DAYS only for date |
| RuleFields.FindFrom | src/components/RuleBuilder.jsx:174 | `find` returns an entry with the searched value, and returns nothing exactly when no entry has it |
| RuleFields.FindFromIsFirst | src/components/RuleBuilder.jsx:174 | `find` returns the first entry with the searched value: no earlier entry has it |
| RuleFields.SelectedField | src/components/RuleBuilder.jsx:174 | the selected field is a table entry with the rule's `field`, or none exactly when the table has no such entry |
| RuleFields.ConditionsOfRow | src/components/RuleBuilder.jsx:175 | a row offers some condition exactly when its field is in the table |
| RuleFields.RowConditionsByField | src/components/RuleBuilder.jsx:12-48 | totalSpend and totalVisits rows offer EQ, NE, GT, LT, GTE, LTE; lastActivity rows offer INACTIVE_DAYS, ACTIVE_DAYS; email, name, address and phone rows offer EQ, NE, CONTAINS, NOCONTAINS |
| RuleFields.SelectedAt | src/components/RuleBuilder.jsx:174 | looking up the value of any table entry selects that very entry |
| RuleFields.IsNumeric | src/components/RuleBuilder.jsx:208 | a row holds a number when its field is in the table and is date- or number-typed |
| RuleFields.RowOptions | src/components/RuleBuilder.jsx:198-201 | a row's dropdown has the empty entry first and then one entry per offered condition |
| RuleFields.RowOptionsNameConditions | src/components/RuleBuilder.jsx:192-201 | the string a dropdown entry stores names exactly the condition the entry shows, and the empty entry names none |
| RuleFields.InputType | src/components/RuleBuilder.jsx:206 | the input is `number` or `text`, and `number` exactly when the field is number- or date-typed |
| RuleFields.CoerceValue | src/components/RuleBuilder.jsx:206-208 | the stored value keeps the typed text, and is a number exactly when the field is number- or date-typed |
| RuleFields.ConditionsByType | src/components/RuleBuilder.jsx:23-45 | number offers EQ, NE, GT, LT, GTE, LTE; string offers EQ, NE, CONTAINS, NOCONTAINS; date offers INACTIVE_DAYS, ACTIVE_DAYS |
| RuleFields.OnlyListedNumeric | src/components/RuleBuilder.jsx:12-20 | only totalSpend, totalVisits and lastActivity store numbers |
| RuleFields.ListedNumeric | src/components/RuleBuilder.jsx:12-20 | totalSpend, totalVisits and lastActivity all store numbers |
| RuleFields.NumericFieldsExactly | src/components/RuleBuilder.jsx:12-20 | a field stores numbers exactly when it is totalSpend, totalVisits or lastActivity |
| AudiencePreview.StartFor | src/components/RuleBuilder.jsx:97 | the request is sent exactly when the tree is present, has an operator and a non-empty top-level array; a missing array with an operator throws |
| AudiencePreview.StartOf | src/components/RuleBuilder.jsx:97 | on the builder's tree: sent exactly when the tree is present, is a group and has a non-empty array; throws exactly when it is a group without an array |
| AudiencePreview.Preview.Mount | src/components/RuleBuilder.jsx:6-10 | the initial state, with the first timer due 500 ms after mounting |
| AudiencePreview.Preview.Fire | src/components/RuleBuilder.jsx:96-107 | an empty or missing tree clears size, samples and error and sends nothing; a group without an array changes nothing; otherwise the current tree is sent, loading is set and the error cleared; the tree is never changed |
| AudiencePreview.Preview.Tick | src/components/RuleBuilder.jsx:123-131 | time passing before the deadline changes nothing but the clock |
| AudiencePreview.Preview.Edit | src/components/RuleBuilder.jsx:91-131 | the edited tree is taken and reported upward; a changed tree cancels the pending timer and schedules one 500 ms later; no request is sent |
| AudiencePreview.Preview.Respond | src/components/RuleBuilder.jsx:107-120 | a success sets size and samples and reports the size; a failure sets only the error, with its fallback text; loading ends false |
| AudiencePreview.Preview.EditRun | src/components/RuleBuilder.jsx:123-131 | a run of edits each under 500 ms apart sends nothing and leaves one timer due 500 ms after the last edit |
| AudiencePreview.DebounceScenario | src/components/RuleBuilder.jsx:123-131 | edits at 0, 100 and 200 ms give exactly one request, at 700 ms, with the last tree |
| OrderForm.SetItemField | src/pages/OrderListPage.jsx:52-55 | the named item field takes the typed text and the others are kept |
| OrderForm.SetFormField | src/pages/OrderListPage.jsx:46-48 | the named form field takes the typed text and the items and other fields are kept |
| OrderForm.ChangeItem | src/pages/OrderListPage.jsx:50-57 | the list keeps its length, the item at `index` gets the field changed and every other item is kept |
| OrderForm.AddBlank | src/pages/OrderListPage.jsx:59-64 | one blank item is appended and the earlier items are kept |
| OrderForm.KeepOthers | src/pages/OrderListPage.jsx:67 | `filter((_, i) => i !== index)` over a part of the list never lengthens it |
| OrderForm.KeepOthersSkips | src/pages/OrderListPage.jsx:67 | the filter drops exactly the element at `index` when it is inside the part filtered, and nothing otherwise |
| OrderForm.RemoveAt | src/pages/OrderListPage.jsx:66-69 | removing drops exactly the item at `index` and keeps the others in order; an out-of-range index removes nothing |
| OrderForm.RemoveUndoesAdd | src/pages/OrderListPage.jsx:59-69 | removing the last item after adding a blank one restores the list |
| OrderForm.ConvertItem | src/pages/OrderListPage.jsx:104-108 | an item keeps its product fields, with quantity and price converted to numbers |
| OrderForm.ConvertItems | src/pages/OrderListPage.jsx:104-108 | the items keep their count and order, each converted |
| OrderForm.Payload | src/pages/OrderListPage.jsx:110-114 | `totalAmount` is the only converted top-level field; the items are converted element by element |
| OrderForm.PayloadIdempotent | src/pages/OrderListPage.jsx:104-114 | converting an already converted form changes nothing |
| OrderForm.NewForm | src/pages/OrderListPage.jsx:73-80 | the "Add Order" form is blank, dated today, with one blank item and status `completed` |
| OrderForm.EditForm | src/pages/OrderListPage.jsx:86-93 | the "Edit" form copies the order's fields and items, with one blank item when the order has none, so it always has an item |
| OrderForm.CallFor | src/pages/OrderListPage.jsx:116-121 | an update keyed by the edited order's id exactly when an order is being edited, else a create, both carrying the payload |
| OrderForm.OutcomeModal | src/pages/OrderListPage.jsx:123-134 | the success or error modal, with the message's fallback naming update or create |
| OrderForm.OrderPage.Open | src/pages/OrderListPage.jsx:7-22 | the page's initial state |
| OrderForm.OrderPage.FormChange | src/pages/OrderListPage.jsx:46-48 | the form takes the field's new text and keeps at least one item |
| OrderForm.OrderPage.ItemChange | src/pages/OrderListPage.jsx:50-57 | the form's items take the change and the other fields are kept |
| OrderForm.OrderPage.AddItem | src/pages/OrderListPage.jsx:59-64 | the form's items get one blank item appended |
| OrderForm.OrderPage.RemoveItem | src/pages/OrderListPage.jsx:66-69 | with the remove button shown only for more than one row (line 422), the row is dropped and at least one item stays |
| OrderForm.OrderPage.AddOrderClick | src/pages/OrderListPage.jsx:71-82 | no order is being edited and the form is reset and shown |
| OrderForm.OrderPage.EditOrderClick | src/pages/OrderListPage.jsx:84-95 | the order is being edited and its form is shown |
| OrderForm.OrderPage.Submit | src/pages/OrderListPage.jsx:97-121 | the form is hidden, loading is set and exactly one create or update call is made |
| OrderForm.OrderPage.Responded | src/pages/OrderListPage.jsx:123-137 | the outcome modal for the call is shown, the orders are fetched again after a success, and loading ends false |
| CampaignCreate.IsSpace | src/pages/CampaignCreatePage.jsx:81 | the white space `trim` removes; within ASCII it is exactly the space and tab through carriage return |
| CampaignCreate.TrimStart | src/pages/CampaignCreatePage.jsx:81 | the text without its leading white space (its properties are TrimStartDropsSpace) |
| CampaignCreate.TrimEnd | src/pages/CampaignCreatePage.jsx:81 | the text without its trailing white space (its properties are TrimEndDropsSpace) |
| CampaignCreate.Trim | src/pages/CampaignCreatePage.jsx:81 | `trim()`: both ends stripped (its properties are TrimKeepsMiddle and TrimEmptyIffBlank) |
| CampaignCreate.TrimStartDropsSpace | src/pages/CampaignCreatePage.jsx:81 | the start of `trim` drops a white-space prefix up to the first other character |
| CampaignCreate.TrimEndDropsSpace | src/pages/CampaignCreatePage.jsx:81 | the end of `trim` drops a white-space suffix back to the last other character |
| CampaignCreate.TrimKeepsMiddle | src/pages/CampaignCreatePage.jsx:81 | `trim` keeps one contiguous slice of the text, cut only through white space, and the slice neither starts nor ends with white space |
| CampaignCreate.TrimEmptyIffBlank | src/pages/CampaignCreatePage.jsx:81 | a query trims to nothing exactly when it is empty or all white space |
| CampaignCreate.CreateGate | src/pages/CampaignCreatePage.jsx:39 | accepted exactly when name and template are non-empty and the top-level array is non-empty; refused when one of them is empty; throws when name and template are non-empty and the array is missing |
| CampaignCreate.CreateFailure | src/pages/CampaignCreatePage.jsx:66-73 | the error text of a refused or failed create call, with its fallback |
| CampaignCreate.Adopted | src/pages/CampaignCreatePage.jsx:91 | a generation answer is adopted only when the call returned, reported success and carries a tree |
| CampaignCreate.AIFailure | src/pages/CampaignCreatePage.jsx:97-104 | the error text of an unusable or failed generation call, with its fallback |
| CampaignCreate.CampaignPage.Open | src/pages/CampaignCreatePage.jsx:14-26 | empty fields and the tree `{operator: 'AND', rules: []}` |
| CampaignCreate.CampaignPage.RulesChanged | src/pages/CampaignCreatePage.jsx:209-211 | the builder's edited tree replaces the page's tree |
| CampaignCreate.CampaignPage.AudienceSizeChanged | src/pages/CampaignCreatePage.jsx:212 | the builder's reported size replaces the page's size |
| CampaignCreate.CampaignPage.CreateCampaign | src/pages/CampaignCreatePage.jsx:33-56 | a refusal shows the validation modal, resets loading and makes no call; an acceptance sends name, description, template, the current tree and status `sent` |
| CampaignCreate.CampaignPage.CreateResponded | src/pages/CampaignCreatePage.jsx:58-77 | a success shows its modal and schedules the move to the campaign list; a failure sets the error and its modal; loading ends false |
| CampaignCreate.CampaignPage.GenerateRules | src/pages/CampaignCreatePage.jsx:80-90 | a query that trims to nothing shows the input modal and sends nothing; otherwise generation starts, the error is cleared and the query is sent |
| CampaignCreate.CampaignPage.AIResponded | src/pages/CampaignCreatePage.jsx:91-108 | only a success carrying a tree replaces the tree and the size; otherwise the tree and size are kept and the error is set; generation ends in every case |
| CampaignCreate.ShallowValidation | src/pages/CampaignCreatePage.jsx:39 | a tree whose one child is an empty group or a blank draft passes the gate, and the call records that very child: an empty AND group or a draft with no array |
| Helpers.UpperCase | src/utils/helpers.js:11 | one character comes out as one character that is no longer lower-case ASCII |
| Helpers.CapitalizeFirstLetter | src/utils/helpers.js:9-12 | a missing or empty input gives `''`; otherwise the length is kept, the first character is upper-cased and the rest is unchanged |
| Helpers.UpperCaseIdempotent | src/utils/helpers.js:11 | upper-casing an upper-cased character changes nothing |
| Helpers.CapitalizeIdempotent | src/utils/helpers.js:11 | capitalising twice is the same as capitalising once |

## Left out

- Server calls: `crmApi` is a set of HTTP wrappers. Each call is an outbox entry, and its answer is an event that takes the reply as a parameter.
- `Number(text)`, `Date`, `toISOString` and `toLocaleString`: the conversions are not modelled, because they are floating-point and locale work. A number is named by its text; the days are parameters.
- Timers and `async`/`await`: they are discrete events with explicit times. Events that overlap in real time are interleaved one at a time.
- Rendering, captions and CSS are not modelled. Neither are the `required` attributes of the inputs: the browser checks those before a submit event exists.
- The props-sync effect of the rule builder (`JSON.stringify` comparison) is not modelled. It only re-reads the parent's tree.
- A change of the `onAudienceSizeChange` callback re-running the debounce effect is not modelled. The page passes a stable setter.
- The order list fetch, order deletion and the page's `error` display are not modelled. They are display of server data.
- RuleTree.UpdateRule and RuleTree.AddRule: require a path that leads to a node. The JavaScript throws a `TypeError` on any other path and changes nothing further; the UI only passes paths of rendered rows.
- RuleTree.RemoveRule: requires only that the path without its last index lead to a node with a `rules` array, where the JavaScript would otherwise throw. Any last index is allowed; one past the end removes nothing.
- RuleTree.UpdateRule: a rule's `field`, `condition` and `value` are three separate string-or-value slots. A key the object lacks is held as the empty string, so assigning a key that did not exist is not told apart from overwriting an empty one.
- AudiencePreview.Preview.Fire: records a reference to the tree sent, not a snapshot. Because edits mutate shared objects, a later edit can change what an earlier entry shows; the serialisation at call time is not modelled.
- CampaignCreate.CampaignPage.CreateCampaign: the same holds for the `segmentRules` of a recorded create call. It is a reference to the page's tree, which a later edit can change.
- AudiencePreview.Preview.Respond: every answer is taken as belonging to some request in flight. Which request it answers is not tracked, because the source does not track it either.
- OrderForm.OrderPage.ItemChange: requires an index of a rendered row. An index past the end would make the JavaScript grow the array with holes.
- OrderForm.Item: extra keys of an item from the server (kept by `...item`) are not modelled.
- CampaignCreate.AIReply: an `audienceSize` missing from a successful answer (which would set `undefined`) is not modelled.
- The `default` branch of `getConditionsForField` is not reachable: field types are an enumeration here. An unknown field is modelled, and offers no condition (`RuleFields.ConditionsOfRow`).
- Helpers.UpperCase: only ASCII letters are upper-cased. The full Unicode mapping of `toUpperCase` is not modelled, including mappings that change length such as `ß` to `SS`.
- `formatDateTime` is not modelled, because it is locale formatting.
