# Apt Assist AI — a Dafny model of the tenant assistant's decision logic

This project models three pieces of the Apt Assist AI tenant assistant and proves properties about them:

- **The property assistant** (`src/components/PropertyAssistant.tsx`), in `intake.dfy`. It greets the tenant and answers frequent questions from a keyword table. It walks the tenant through a maintenance report: name, unit, contact, then description. It flags the report as urgent when the description holds an urgent keyword, renders the notification e-mail and starts over.
  - `Intake.Advance` is the assistant's transition on one input.
  - The class `Intake.PropertyAssistant` has the component's state as fields: `messages`, `input`, `flow`, `step` and `data`. Its methods update those fields in place and are proved to follow `Advance`.
- **The rent chat** (`src/components/Chat.tsx`), in `rent_chat.dfy`. "rent" starts a dialogue that asks for the tenant's name and unit and then shows the rent status notice. "maintenance" gets a fixed prompt. Anything else gets an apology.
  - `RentChat.Respond` is the dialogue's transition.
  - The class `RentChat.RentChat` holds `messages`, `input`, `isLoading`, `conversationState` and `tenantInfo`, and is proved to follow `Respond`.
- **The triage endpoint** (`supabase/functions/triage-request/index.ts`), in `triage.dfy`. It classifies a complaint by specialty and priority, stores it as a maintenance request, and dispatches High or Urgent requests to the first vendor of the matching specialty.
  - The classification comes from the text-generation service, or from a fixed fallback when the service's answer does not parse.
  - `Triage.HandleTriage` is the handler. It takes the outcome of every external call as an `Environment` value and changes no state. It returns the HTTP response together with the writes it attempted: the inserted row, the vendor lookup and the dispatch update.

`text.dfy` models the JavaScript string operations these decisions rest on: `toLowerCase`, `includes` and `trim`. `wrappers.dfy` holds the `Option`, `Result` and `Outcome` datatypes.

## Model

| member | source | states |
|---|---|---|
| `Text.ToLower` | src/components/PropertyAssistant.tsx:90 | `toLowerCase`: maps A-Z to a-z and keeps every other character. Its properties are stated by the two lemmas below. |
| `Text.ToLowerIdempotent` | src/components/PropertyAssistant.tsx:90 | Lower-casing twice gives the same text as lower-casing once. |
| `Text.ToLowerAppend` | src/components/PropertyAssistant.tsx:111-113 | Lower-casing a concatenation lower-cases each part. |
| `Text.Contains` | src/components/PropertyAssistant.tsx:92-106 | `includes`, as a scan from the left. Tied to its reference meaning by `ContainsIffOccurs`. |
| `Text.ContainsIffOccurs` | src/components/PropertyAssistant.tsx:92-106 | `includes` holds exactly when the key is the slice of the text at some position. |
| `Text.Trim` | src/components/PropertyAssistant.tsx:253 | `trim`: drops leading and then trailing ECMAScript whitespace and line terminators. Characterised by `TrimEmptyIffBlank`. |
| `Text.TrimEmptyIffBlank` | src/components/PropertyAssistant.tsx:253 | `trim` gives the empty string exactly when every character is whitespace. Otherwise the result starts and ends with a non-whitespace character. |
| `Intake.CompletedReportEmailMatchesAck` | src/components/PropertyAssistant.tsx:156-173 | A report completed by its description is whole. Its e-mail is tagged "[URGENT]" exactly when the assistant acknowledged it as urgent. |
| `Intake.CheckForFAQ` | src/components/PropertyAssistant.tsx:89-109 | The keyword chain of `checkForFAQ`, branch for branch. Proved equal to the rule table by `CheckForFAQFollowsRuleTable`. |
| `Intake.FirstMatch` | src/components/PropertyAssistant.tsx:89-109 | Against an ordered rule table: no answer exactly when no rule fires. Otherwise the answer is that of a firing rule with no firing rule before it. |
| `Intake.CheckForFAQFollowsRuleTable` | src/components/PropertyAssistant.tsx:89-109 | `checkForFAQ`'s keyword chain is the first-match rule table over the lower-cased input: pay+rent, pet, emergency or urgent, office+hours, maintenance+request. |
| `Intake.CheckForFAQIgnoresCase` | src/components/PropertyAssistant.tsx:90 | The answer to a question does not depend on letter case. |
| `Intake.AnswerOrForward` | src/components/PropertyAssistant.tsx:208-218 | A question that matches gets exactly its canned answer. The assistant promises to forward a question exactly when none matches. |
| `Intake.AnyKeyword` | src/components/PropertyAssistant.tsx:113 | The `some` over the keyword list holds exactly when some keyword occurs in the text. |
| `Intake.IsUrgentMaintenance` | src/components/PropertyAssistant.tsx:111-114 | Some urgent keyword occurs in the lower-cased description. Its properties are stated by the three lemmas below. |
| `Intake.UrgencyIgnoresCase` | src/components/PropertyAssistant.tsx:111-114 | Urgency does not depend on letter case. |
| `Intake.UrgencySurvivesMoreText` | src/components/PropertyAssistant.tsx:111-114 | An urgent description stays urgent when text is added before or after it. |
| `Intake.KeywordMakesUrgent` | src/components/PropertyAssistant.tsx:32 | Any of the ten keywords, in any case, makes a description urgent. |
| `Intake.GenerateMaintenanceEmail` | src/components/PropertyAssistant.tsx:116-131 | The trimmed e-mail template, with the submission time as a parameter. Its properties are stated by the three lemmas below. |
| `Intake.EmailShape` | src/components/PropertyAssistant.tsx:116-131 | Trimming the e-mail template removes only the leading line break and the whitespace after the submission time. |
| `Intake.EmailSubjectTellsUrgency` | src/components/PropertyAssistant.tsx:117-119 | The e-mail opens with "Subject: [URGENT]" exactly for an urgent report, and with "Subject: [NON-URGENT]" otherwise. |
| `Intake.EmailCarriesReport` | src/components/PropertyAssistant.tsx:118-128 | The e-mail holds the unit, contact, priority and description lines of the report. |
| `Intake.MaintenanceStep` | src/components/PropertyAssistant.tsx:133-193 | One report step: store the answer, ask the next question, or complete the report and start over. Its properties are stated by `CollectionStepStoresOneField` and `DescriptionCompletesReport`. |
| `Intake.Advance` | src/components/PropertyAssistant.tsx:195-245 | The assistant's transition on one input. Its properties are stated by the lemmas below. |
| `Intake.AdvanceKeepsConsistent` | src/components/PropertyAssistant.tsx:133-245 | Every input keeps the invariant. Outside a report the step is 0 and nothing is collected. At report step k, exactly the first k fields are present. |
| `Intake.CollectingInfoNeverEntered` | src/components/PropertyAssistant.tsx:198-244 | No input leads into the `collecting_info` flow. |
| `Intake.CollectingInfoIsInert` | src/components/PropertyAssistant.tsx:198-244 | In `collecting_info`, an input gets no reply and changes nothing. |
| `Intake.InitialRouting` | src/components/PropertyAssistant.tsx:198-226 | From the initial flow, "question" (any case) leads to the question flow and wins over "maintenance"/"issue". Those two start a report at step 0 by asking for the name. Anything else is answered or forwarded and the state stays the same. |
| `Intake.FaqAnswersOnceThenReturns` | src/components/PropertyAssistant.tsx:227-241 | In the question flow, an input gets the canned answer or the forward text, then the follow-up options entry, and the flow is initial again. |
| `Intake.CollectionStepStoresOneField` | src/components/PropertyAssistant.tsx:133-154 | Name, unit and contact: each step stores the input verbatim in its own field, leaves the other fields alone and moves on by one step. |
| `Intake.DescriptionCompletesReport` | src/components/PropertyAssistant.tsx:156-191 | The description completes the report: name, unit and contact are kept, the urgency comes from the description's keywords, the acknowledgement speaks of urgency exactly when the report is urgent, and the assistant starts over. |
| `Intake.ReportFromStart` | src/components/PropertyAssistant.tsx:133-245 | An opening that asks for maintenance, then a name, unit, contact and description, hands on exactly one report holding those answers and returns the assistant to its start. |
| `Intake.PropertyAssistant.constructor` | src/components/PropertyAssistant.tsx:35-58 | Mounting shows the greeting and its options entry with two options, in the initial flow with nothing collected. |
| `Intake.PropertyAssistant.Edit` | src/components/PropertyAssistant.tsx:293 | Typing replaces the text box. |
| `Intake.PropertyAssistant.AddAssistantMessage` | src/components/PropertyAssistant.tsx:70-87 | Appends the reply, then its options entry when there are options. |
| `Intake.PropertyAssistant.HandleMaintenanceFlow` | src/components/PropertyAssistant.tsx:133-193 | Updates flow, step, report and messages as `MaintenanceStep` says and keeps the invariant. |
| `Intake.PropertyAssistant.HandleUserInput` | src/components/PropertyAssistant.tsx:195-245 | Appends the user's bubble, then updates the state and messages as `Advance` says, keeping the invariant. |
| `Intake.PropertyAssistant.ClickOption` | src/components/PropertyAssistant.tsx:247-249 | The option-click handler behaves exactly as if the option's text were entered, with no blank check. |
| `Intake.PropertyAssistant.Submit` | src/components/PropertyAssistant.tsx:251-257 | A text box that is blank after trimming changes nothing. Otherwise the untrimmed text is handled and the box is cleared. |
| `RentChat.SendText` | src/components/Chat.tsx:45 | The text a send works on: the button's text when it is given and non-empty, else the text box, trimmed. |
| `RentChat.Respond` | src/components/Chat.tsx:53-73 | The dialogue's transition on a sent text. Its properties are stated by the lemmas below. |
| `RentChat.NameIsCaptured` | src/components/Chat.tsx:53-56 | While the name is awaited, the text becomes the name, the unit is kept and the unit is asked for. |
| `RentChat.UnitIsCapturedThenIdle` | src/components/Chat.tsx:57-61 | While the unit is awaited, the text becomes the unit, the name is kept, the status notice with its "Pay Rent" button is shown and the dialogue is idle. |
| `RentChat.OtherTextRouting` | src/components/Chat.tsx:62-73 | Otherwise there is one reply. "maintenance" anywhere (any case) gets the prompt. Exactly "rent" (any case) starts the rent questions. Anything else gets the apology. Only "rent" changes the state, and the tenant is kept. |
| `RentChat.NeverRestsInFetching` | src/components/Chat.tsx:57-61 | A send never leaves the dialogue in `fetching_rent`. |
| `RentChat.MaintenanceButtonPrompts` | src/components/Chat.tsx:149 | Outside the rent questions, the "New Maintenance Request" button gets the maintenance prompt and changes nothing else. |
| `RentChat.RentInquiryDialogue` | src/components/Chat.tsx:44-85 | "rent", a name and a unit leave the dialogue idle, knowing exactly that name and unit, after the two questions and the status notice. |
| `RentChat.RentChat.constructor` | src/components/Chat.tsx:22-37 | Mounting shows the welcome, with an idle dialogue and an unknown tenant. |
| `RentChat.RentChat.Edit` | src/components/Chat.tsx:171 | Typing replaces the text box. |
| `RentChat.RentChat.FetchRentStatus` | src/components/Chat.tsx:78-85 | Appends the status notice, clears the loading flag and makes the dialogue idle. |
| `RentChat.RentChat.Send` | src/components/Chat.tsx:44-76 | The button's text, or the text box when none is given, is trimmed. A blank result changes nothing. Otherwise the user's bubble and the replies are appended as `Respond` says, the box is cleared, and the loading flag is false afterwards. |
| `RentChat.RentChat.Deliver` | src/components/Chat.tsx:48-75 | The non-blank part of a send: the user's bubble, a cleared box, the step of `Respond`, and nothing left loading. |
| `RentChat.RentChat.Reply` | src/components/Chat.tsx:53-73 | The branch on the dialogue state follows `Respond`. |
| `RentChat.RentChat.RentInquiry` | src/components/Chat.tsx:92-96 | The Rent button appends "Rent" and the name question and awaits the name, whatever the state. |
| `RentChat.RentChat.PayRent` | src/components/Chat.tsx:98-100 | The "Pay Rent" option appends the payment placeholder. |
| `Triage.Fallback` | supabase/functions/triage-request/index.ts:85-88 | The deterministic triage. Characterised by `FallbackClassification`. |
| `Triage.Triaged` | supabase/functions/triage-request/index.ts:79-89 | The parsed answer as it is, else the fallback. |
| `Triage.FallbackClassification` | supabase/functions/triage-request/index.ts:84-88 | The fallback is General. Its priority is High exactly for "high" and Low exactly for "low", compared case-sensitively, and Medium otherwise. It is never Urgent. |
| `Triage.FallbackDispatchesOnlyHigh` | supabase/functions/triage-request/index.ts:87-122 | With an unparseable answer, a request is dispatched exactly when the tenant's urgency is "high". |
| `Triage.NewRecord` | supabase/functions/triage-request/index.ts:94-110 | The inserted row. Characterised by `RecordFields`. |
| `Triage.RecordFields` | supabase/functions/triage-request/index.ts:96-110 | The row is titled "SPECIALTY Issue", typed by the specialty, has the triage's priority, status New and the description. It has an image list exactly for a non-empty `media_url`. Its notes end with "Permission to enter: Yes." or "... No." according to the permission. |
| `Triage.VendorQuery` | supabase/functions/triage-request/index.ts:126-130 | The lookup returns at most one vendor. |
| `Triage.MatchingIsFilter` | supabase/functions/triage-request/index.ts:129 | The specialty filter keeps exactly the registry's vendors of that specialty. |
| `Triage.VendorQueryFindsFirst` | supabase/functions/triage-request/index.ts:126-133 | The lookup finds nothing exactly when no vendor has the specialty. Otherwise it finds the first such vendor in registry order. |
| `Triage.DispatchNotes` | supabase/functions/triage-request/index.ts:142 | The notes written on dispatch. Characterised by `DispatchNotesExtend`. |
| `Triage.DispatchNotesExtend` | supabase/functions/triage-request/index.ts:142 | Dispatch notes keep the stored notes in front and append exactly " Auto-dispatched to NAME (EMAIL)." |
| `Triage.ErrorResponse` | supabase/functions/triage-request/index.ts:170-181 | A thrown error becomes a 500 with a non-empty message: its own message, or "Internal server error" when that is empty. |
| `Triage.HandleTriage` | supabase/functions/triage-request/index.ts:23-182 | A preflight writes nothing. The row is inserted exactly when the triage is reached, from the parsed answer or the fallback. Each earlier failure gives its own 500. Success comes exactly when the insert succeeds and echoes the stored id, specialty and priority. Vendors are looked up exactly for High or Urgent. The first vendor is assigned when one is found. The status is Scheduled exactly when that update passes, and New otherwise. |

In more detail, `Triage.HandleTriage` states the following:
- A preflight gets the empty answer and writes nothing.
- The row is inserted exactly when the body reads, the key is set and non-empty, the service replies ok and its answer can be read. The row is built from the parsed triage, or from the fallback.
- Each earlier failure gives its own 500 message.
- Success comes exactly when the insert succeeds. It echoes the stored id, specialty and priority.
- Vendors are looked up exactly for a stored High or Urgent request.
- An update is tried exactly when the lookup works and finds a vendor. It assigns the first vendor and appends to the notes.
- The status is Scheduled exactly when that update passes, and New otherwise.
- A failure never looks up or dispatches.

## Left out

- Timers: the `setTimeout` delays, the typing indicator and the loading bubble are collapsed. Replies are appended in the order they appear, and only the state between two user actions is modelled. An input arriving during a delay is not modelled.
- Identity and display data: message ids and timestamps from `Date.now()`/`new Date()`, toasts, `console` logging, scrolling and all rendering are left out.
- `Text.ToLower`: lower-cases ASCII letters only. JavaScript's full Unicode case mapping is not modelled.
- `Intake.PropertyAssistant.ClickOption`: the assistant's options entry is a message whose content is the options list as JSON text. The message view draws buttons only from a message's own `options` field, which no assistant message has. So the options show as a raw JSON bubble, no on-screen control calls `handleOptionClick`, and `ClickOption` models the handler as written even though nothing can trigger it.
- `Intake.GenerateMaintenanceEmail`: the local time text from `toLocaleString()` is a parameter. The e-mail is built and logged but never sent, so it is not part of a transition.
- `RentChat`: the bot id read from the URL path is not modelled. The "Test Component" button, which appends a placeholder component, is not modelled either. The rent lookup has no database query in the source; it shows a fixed notice.
- `Triage.HandleTriage`: the outcomes of the external calls are inputs:
  - the secret store, the text-generation HTTP call, the database insert, the vendor query and the update;
  - the outcomes of reading the request body and the reply body.
- `Triage.HandleTriage`: a parsed answer that is not an object with two string fields is not a separate case. A `null` answer makes reading `aiTriage.specialty` throw, so nothing is inserted and the reply is a 500; the model expresses that outcome as a failed read of the answer. Missing fields would be stored as `undefined`, and fields that are not strings would be stored as given. The model has no value for either.
- `Triage.HandleTriage`: the prompt text, the model name and the temperature are not modelled.
- `Triage.HandleTriage`: the stored row's notes are taken to be the notes as inserted. The source reads them back from the database.
- `Triage.HandleTriage`: the CORS and content-type headers are not modelled.
- `Triage.HandleTriage`: the model assumes `SUPABASE_URL` and the service-role key are set. If either is missing, creating the database client throws before the API key is read, and the reply is a 500; that case is not modelled.
- Concurrency: the dispatch update is a plain unconditional write. There is no claim or compare-and-set, so concurrent dispatch of the same request is not modelled.
- What the code does not do, so the model does not either:
  - the code keeps no memory of earlier answers across reports;
  - it does not check the service's specialty and priority against the four allowed values;
  - a failed vendor lookup leaves the request New; no error is reported;
  - the assistant asks no urgency question, because urgency comes from the description's keywords;
  - `collecting_info` is declared but never entered.
