# NexusCollab resources panel and chat assistant, modelled in Dafny

This project models the two pieces of state logic in the NexusCollab dashboard.

**The resources panel** (`components/resources-panel.tsx`) is modelled as the class
`ResourcesPanel.Panel`. Its fields are the component's state variables. Its methods are
the component's event handlers:
- the three-step request wizard: open, Continue/Submit, Back/Cancel, close;
- the form change handlers;
- the add-resource form: open, close, change, submit;
- card selection;
- dismissing the success alerts.

The queries the panel renders from are pure functions: the lookup by id, whether a
resource is requested and its request status, the per-type tabs, and tag parsing.

**The chat assistant** (`components/ai-assistant.tsx`) is modelled as the class
`AIAssistant.Assistant`:
- The send handler rejects blank input. Otherwise it appends the user's message and
  starts a reply timer.
- The timer's later firing is the explicit step `DeliverReply`. It appends the canned
  answer chosen by `Classify`, the keyword classifier, from the text that was sent.

`JsString` models the JavaScript string built-ins both components use:
- `trim`, using the ECMAScript WhiteSpace and LineTerminator code points;
- `split` on a one-character separator;
- `toLowerCase`, on ASCII letters;
- `includes`.

`Wrappers` holds `Option`, which stands for JavaScript's `undefined`/`null` results.

Pending reply timers are stored in the state as a queue (`pending`). Each entry records
what the timer's closure captured: the sent text, and the conversation length the send
saw. Every timer waits the same 1.5 seconds, so they fire in the order they were started.
`DeliverReply` therefore serves the oldest one.

`Resource.type` is named `resourceType`, because `type` is a Dafny keyword.

## Model

| member | source | states |
|---|---|---|
| JsString.Trim | components/ai-assistant.tsx:49 | the trimmed text is empty exactly when every character of the input is ECMAScript whitespace |
| JsString.TrimShape | components/resources-panel.tsx:212 | the trimmed text neither starts nor ends with whitespace, and it is the slice of the input with only whitespace before and after it |
| JsString.TrimPadded | components/resources-panel.tsx:212 | trimming a piece without outer whitespace, padded by blank text on both sides, gives back exactly that piece |
| JsString.TrimStartShape | components/resources-panel.tsx:212 | trimming the start keeps a suffix, cuts only whitespace, and keeps no leading whitespace |
| JsString.TrimEndShape | components/resources-panel.tsx:212 | trimming the end keeps a prefix, cuts only whitespace, and keeps no trailing whitespace |
| JsString.Split | components/resources-panel.tsx:212 | splitting always yields at least one piece |
| JsString.SplitCount | components/resources-panel.tsx:212 | splitting yields one piece more than there are separators in the input |
| JsString.SplitPiecesFree | components/resources-panel.tsx:212 | no piece holds the separator |
| JsString.SplitNoSeparator | components/resources-panel.tsx:212 | a string without the separator splits into itself alone |
| JsString.SplitFirst | components/resources-panel.tsx:212 | the first piece runs up to the first separator, and splitting then continues after it |
| JsString.SplitJoin | components/resources-panel.tsx:212 | joining the pieces with the separator gives back the input (split loses nothing) |
| JsString.ToLower | components/ai-assistant.tsx:67 | lower-casing keeps the length and lowers each character in place |
| JsString.IncludesAt | components/ai-assistant.tsx:67 | an occurrence at some position makes `includes` true |
| JsString.IncludesWitness | components/ai-assistant.tsx:67 | whenever `includes` is true there is a position where the substring occurs |
| JsString.IncludesTransitive | components/ai-assistant.tsx:67-70 | a text that contains `t` contains everything `t` contains |
| ResourcesPanel.IconFor | components/resources-panel.tsx:199-208 | hardware gets the laptop icon, computing the server, software the database; every other type, venue included, gets the users icon; each in both directions |
| ResourcesPanel.ApplyRequestEdit | components/resources-panel.tsx:152-158 | a request-form change sets the field it names to the new value, keeps each of the other five fields, and never changes the resource id |
| ResourcesPanel.ApplyAddResourceEdit | components/resources-panel.tsx:175-181 | an add-form input change sets the field it names to the new value, keeps each of the other four inputs, and never changes the type, which has its own handler |
| ResourcesPanel.GetResourceById | components/resources-panel.tsx:236-238 | the result is none exactly when no resource has that id; otherwise it is the first resource with that id |
| ResourcesPanel.IsResourceRequested | components/resources-panel.tsx:240-242 | a resource is requested exactly when some request carries its id |
| ResourcesPanel.GetResourceRequestStatus | components/resources-panel.tsx:244-247 | the result is none exactly when the resource is not requested; otherwise it is the status of the first request for that id |
| ResourcesPanel.OfType | components/resources-panel.tsx:738-808 | a type tab lists exactly the resources of that type, and never more resources than the full list |
| ResourcesPanel.TabContents | components/resources-panel.tsx:722-808 | the "all" tab lists the whole list unchanged; any other tab lists exactly the resources of that type |
| ResourcesPanel.OfTypeAppend | components/resources-panel.tsx:738-808 | filtering by type distributes over concatenation, so list order is preserved |
| ResourcesPanel.TabAfterAdd | components/resources-panel.tsx:722-808 | after an append, the new resource ends the "all" tab and its own type's tab, and every other tab is unchanged |
| ResourcesPanel.TrimEach | components/resources-panel.tsx:212 | trimming each tag keeps the count and trims every piece in place |
| ResourcesPanel.ParseTags | components/resources-panel.tsx:212 | the tags are the input's pieces, trimmed one for one: the pieces hold no comma and, joined with commas, give back the input. There is one tag per comma plus one; no tag holds a comma; no tag starts or ends with whitespace |
| ResourcesPanel.TrimAllEnds | components/resources-panel.tsx:212 | no trimmed piece starts or ends with whitespace |
| ResourcesPanel.TrimKeepsOut | components/resources-panel.tsx:212 | trimming brings in no character the piece did not have |
| ResourcesPanel.EmptyTagsInput | components/resources-panel.tsx:212 | an empty tags input gives one empty tag |
| ResourcesPanel.TagsAroundComma | components/resources-panel.tsx:212 | two comma-free pieces around one comma give exactly the two trimmed pieces |
| ResourcesPanel.GpuResearchTags | components/resources-panel.tsx:212 | "GPU, Research" gives the tags "GPU" and "Research" |
| ResourcesPanel.ResourceById | components/resources-panel.tsx:236-238 | when every id equals its position plus one: ids are unique; the lookup of k in 1..length is the element at index k-1; any other k finds nothing |
| ResourcesPanel.AppendKeepsIds | components/resources-panel.tsx:195 | appending a resource with id length + 1 keeps every id equal to its position plus one |
| ResourcesPanel.StatusAfterRequest | components/resources-panel.tsx:166 | after a request is appended, the status query changes only for that id, and only if it was not requested before (the first match wins) |
| ResourcesPanel.RequestedIsPending | components/resources-panel.tsx:244-247 | while all requests are pending, every requested resource shows the pending status |
| ResourcesPanel.Panel.constructor | components/resources-panel.tsx:117-141 | the four initial resources with ids 1 to 4; empty forms with type "hardware"; wizard closed at step 1; no requests |
| ResourcesPanel.Panel.RequestResource | components/resources-panel.tsx:143-150 | sets the form's resource id and keeps every other form field; opens the wizard at step 1 |
| ResourcesPanel.Panel.ChangeRequestForm | components/resources-panel.tsx:152-158 | the form becomes the edited form; nothing else changes |
| ResourcesPanel.Panel.SubmitRequestForm | components/resources-panel.tsx:160-173 | before step 3: the step goes up by exactly one, nothing is appended, the wizard stays open. At step 3: exactly one pending request for the form's resource is appended after the old ones, the resource is then requested, the wizard closes and the alert shows. The step stays in 1..3 |
| ResourcesPanel.Panel.SecondaryButtonShown | components/resources-panel.tsx:514-532 | Back is shown exactly when the step is above 1; otherwise Cancel |
| ResourcesPanel.Panel.PressSecondaryButton | components/resources-panel.tsx:514-532 | Back lowers the step by one and keeps the wizard open; Cancel at step 1 only closes the wizard; the step stays in 1..3 |
| ResourcesPanel.Panel.CloseRequestForm | components/resources-panel.tsx:314 | hides the wizard and keeps everything entered and the step |
| ResourcesPanel.Panel.DismissSuccessAlert | components/resources-panel.tsx:169-171 | hides the request alert and changes nothing else |
| ResourcesPanel.Panel.ToggleSelected | components/resources-panel.tsx:731 | selects the card, or clears the selection when that card was selected |
| ResourcesPanel.Panel.OpenAddResourceForm | components/resources-panel.tsx:705 | shows the add form and changes nothing else |
| ResourcesPanel.Panel.CloseAddResourceForm | components/resources-panel.tsx:575 | hides the add form and keeps what was entered (the Cancel button at line 680 does the same) |
| ResourcesPanel.Panel.ChangeAddResourceForm | components/resources-panel.tsx:175-181 | the add form becomes the edited form; nothing else changes |
| ResourcesPanel.Panel.ChangeAddResourceType | components/resources-panel.tsx:183-188 | only the form's type changes |
| ResourcesPanel.Panel.SubmitAddResourceForm | components/resources-panel.tsx:190-234 | appends exactly one resource and leaves the old ones unchanged. The new resource has id length + 1, the form's fields, the icon for its type, nothing used, and the parsed tags, and the lookup by its id finds it. The form resets and closes, the alert shows, and ids stay equal to position plus one |
| ResourcesPanel.Panel.DismissAddSuccessAlert | components/resources-panel.tsx:231-233 | hides the add alert and changes nothing else |
| ResourcesPanel.RequestWalkthrough | components/resources-panel.tsx:160-173 | open, Continue, Back, then Continue twice and Submit, on a fresh panel: exactly one pending request for the resource, the wizard closed, the status pending |
| ResourcesPanel.AddResourceWalkthrough | components/resources-panel.tsx:190-234 | adding a computing resource to a fresh panel: it gets id 5, the server icon, nothing used, and the parsed tags, and the lookup by id 5 finds it |
| AIAssistant.Classify | components/ai-assistant.tsx:67-79 | each of the four replies is chosen exactly when its keyword group matches the lower-cased text and no earlier group does (resource, then partner, then event, then the fallback) |
| AIAssistant.ReplyMessage | components/ai-assistant.tsx:81-86 | the appended reply is an assistant message, with id two past the length its send saw, carrying the answer classified from the sent text |
| AIAssistant.ClassifyIgnoresCase | components/ai-assistant.tsx:67-79 | two texts that lower-case alike get the same reply |
| AIAssistant.CollaboratorContainsLab | components/ai-assistant.tsx:67-70 | "collaborator" contains "lab" |
| AIAssistant.CollaboratorGetsResourceReply | components/ai-assistant.tsx:67-72 | any text that mentions "collaborator", in any case, gets the resource reply |
| AIAssistant.PartnerReplyNeedsPartner | components/ai-assistant.tsx:70-72 | the partner reply means the text has "partner", and has neither "collaborator" nor any resource keyword |
| AIAssistant.Assistant.constructor | components/ai-assistant.tsx:20-37 | the conversation starts as the single greeting with id 1; the input is empty and nothing is being typed |
| AIAssistant.Assistant.ChangeInput | components/ai-assistant.tsx:202 | only the input changes |
| AIAssistant.Assistant.SendMessage | components/ai-assistant.tsx:48-62 | blank input changes nothing. Otherwise: the user message is appended with id length + 1 and the untrimmed text; a reply is queued that captures the text and the length the send saw; the input clears; typing shows. Consecutive ids with nothing pending become consecutive with one reply pending |
| AIAssistant.Assistant.DeliverReply | components/ai-assistant.tsx:64-90 | appends an assistant message whose id is two past the length its send saw, and whose text is the reply chosen from the sent text (not the current input); the reply is removed from the queue and typing hides. A single pending reply with consecutive ids leaves the ids consecutive |
| AIAssistant.Assistant.SendDisabled | components/ai-assistant.tsx:209 | the Send button is disabled exactly when the input is blank or a reply is being typed |
| AIAssistant.Assistant.ClickSend | components/ai-assistant.tsx:207-209 | while the input is blank or a reply is being typed, nothing changes; otherwise it does exactly what the send handler does |
| AIAssistant.Assistant.PressKey | components/ai-assistant.tsx:93-98 | Enter without Shift runs the send handler even while a reply is being typed; any other key changes nothing |
| AIAssistant.EnterWhileTyping | components/ai-assistant.tsx:93-98 | pressing Enter a second time before the first reply arrives gives ids 1, 2, 3, 3, 4 |
| AIAssistant.AskForCollaborators | components/ai-assistant.tsx:48-90 | asking about collaborators with the Send button gives ids 1, 2, 3, and the resource reply |

The classes' invariants (`Valid`) state the following, and every method preserves them.
- **Panel**: the wizard step stays in 1..3, every resource's id is its position plus one, and every request is pending.
- **Assistant**: the conversation is never empty, and no user message is blank. Every queued reply saw a conversation shorter than the present one and came from a non-blank send.

## Left out

- Rendering is not modelled: JSX layout, framer-motion animation, class names and the alert banners' looks. Icons are kept only as the `Icon` tag.
- Timers are modelled as explicit events, not as time:
  - the 1.5-second chat reply is `DeliverReply`;
  - the 5-second alert dismissals are `DismissSuccessAlert` and `DismissAddSuccessAlert`.
  - A timer still firing after the panel unmounts is a lifecycle matter, and it is not modelled.
- The two progress bars are floating-point arithmetic and not modelled: used-capacity percentage (`components/resources-panel.tsx:955`) and wizard progress (`components/resources-panel.tsx:346`).
- The browser's `required` checks on form inputs are not modelled, since the browser runs them and the code does not.
- The numeric form fields are modelled as given integers. The change handlers actually store raw input strings, even into `capacity` and `participants`.
- JsString.ToLower: lowers ASCII letters only; full Unicode case mapping is not modelled.
- Scrolling the chat to its newest message (`scrollToBottom` and its effect) is not modelled.
- Closing the request wizard keeps the entered data. This follows the code, where only the resource id is replaced when the wizard is opened again.
- Not part of this model: `components/analytics-panel.tsx`, `components/collaborators-panel.tsx`, `components/collaboration-dashboard.tsx`, `components/ui/chart.tsx`, `components/ui/glassmorphic-card.tsx` and `app/page.tsx`. They hold static data and view code only.
- ResourcesPanel.AddResourceWalkthrough: states the tags as the parsed input. The concrete tag list for "GPU, Research" is stated separately, by `GpuResearchTags`.
