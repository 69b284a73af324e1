# Widget gateway model

A Dafny model of the anonymous-visitor widget gateway of the erxes API
(`src/data/resolvers/mutations/widgets.ts`). The widget is the embeddable
chat and lead-capture client used by unauthenticated visitors. The model
covers five handlers:

- **Lead-form submission** (`widgetsSaveLead`). A missing form throws
  "Form not found", and validation errors are returned instead of thrown.
  The contact fields are pulled out of the submission list, last match
  wins. The customer is found or created, and only its missing fields are
  filled in. One conversation and one message are created, and the form's
  contacts-gathered counter goes up by one.
- **Company linking on messenger connect** (the company block of
  `widgetsMessengerConnect`). A company is found by name or alias, or
  created with that name, and then linked to the customer by a
  conformity record.
- **Inbound visitor message** (`widgetsInsertMessage`). The conversation
  is reopened and marked unread, and its preview is cut to 100
  characters. A per-customer `left`/`joined` flag fires the "connected"
  notification only on the left-to-joined edge.
- **Mark agent messages as read by the customer**
  (`widgetsReadConversationMessages`).
- **Messenger data** (`getMessengerData`). It picks the messages for the
  integration's language, `en` by default. It also takes the topic id of
  the first knowledge-base app, the form code of the first lead app and
  the whole credentials of the first website app. An app counts only when
  its credentials name the integration.

Layout, one module per concern:

- `wrappers.dfy` (`Wrappers`): `Option` and `Result`.
- `types.dfy` (`WidgetTypes`): the documents, JavaScript truthiness, and
  the pub/sub events.
- `lead.dfy` (`LeadSubmission`): the submission scan, a loop proved
  against the last-match function, and the fill-missing merge.
- `company.dfy` (`CompanyLinking`): find-or-create of a company.
- `visitor.dfy` (`VisitorMessages`): the preview, reopening a
  conversation, the session edge and the events a message publishes.
- `read.dfy` (`ReadReceipts`): the filtered read-marking update.
- `messenger.dfy` (`MessengerData`): the language pick and the app lookups.
- `gateway.dfy` (`WidgetGateway`): the class `Store`. It holds maps and
  sequences of customers, companies, conformities, conversations,
  messages, form submissions, per-form counters and the session-status
  cache. A ghost log records published events. Each handler is a method
  whose `ensures` gives the whole new state, the id counter included, in
  terms of the old state and the pure rules above.

Calls into model methods defined outside widgets.ts become method parameters:

- `knownCustomer` is the answer of the customer lookup.
- `validationErrors` is the answer of form validation.
- `strip` is the HTML stripper.
- `statusChangeMessages` is what the customer status change returns.

Ids come from a counter in the store. `Store.Valid` keeps every generated
id below that counter and every message inside a stored conversation.

A missing `customer_last_status_<id>` entry reads as `'left'`, so a new
customer's first message already counts as a left-to-joined edge.

## Model

| member | source | states |
|---|---|---|
| LeadSubmission.LastValueOfIsLastMatch | src/data/resolvers/mutations/widgets.ts:157-173 | for a field type, the scan yields nothing exactly when no submission has that type, and otherwise the value of the last submission of that type |
| LeadSubmission.ContactOfTakesLastMatch | src/data/resolvers/mutations/widgets.ts:152-173 | email, phone, firstName and lastName are each the value of the last submission with that type; email and phone stay absent and the names default to "" when none has it |
| LeadSubmission.ScanSubmissions | src/data/resolvers/mutations/widgets.ts:152-173 | the forEach loop over the submissions computes exactly the last-match contact |
| LeadSubmission.FillMissingKeepsPresentFields | src/data/resolvers/mutations/widgets.ts:189-210 | a truthy firstName, lastName, primaryEmail (with emails) or primaryPhone (with phones) already on the customer is never overwritten |
| LeadSubmission.FillMissingFillsGaps | src/data/resolvers/mutations/widgets.ts:189-210 | location is always replaced by the browser info; a falsy name is set from the submission; a falsy email or phone is set from the submission, with emails/phones set to the one-element list |
| LeadSubmission.FillMissingMonotone | src/data/resolvers/mutations/widgets.ts:189-210 | after the merge, email, phone and names are truthy whenever the customer or the submission had a truthy value |
| LeadSubmission.FillMissingIdempotent | src/data/resolvers/mutations/widgets.ts:189-210 | applying the merge twice with the same submission equals applying it once |
| WidgetGateway.Store.SaveLead | src/data/resolvers/mutations/widgets.ts:136-247 | a missing form throws "Form not found"; non-empty validation errors return them; in both cases nothing is created or changed; otherwise the customer is merged, and exactly one conversation (the form title, for that customer) and one message (formWidgetData = submissions) are added, the counter goes up by one, two message events are published, and the answer is "ok" with the message id |
| WidgetGateway.Store.RecordLead | src/data/resolvers/mutations/widgets.ts:175-247 | the success path: the known customer is merged, or a fresh one is created and merged; the form submission is recorded; fresh conversation and message ids; counter + 1; nothing else changes |
| CompanyLinking.LinkName | src/data/resolvers/mutations/widgets.ts:320 | a company is linked only when company data with a non-empty name is given |
| CompanyLinking.FindCompany | src/data/resolvers/mutations/widgets.ts:321-323 | the query result is the first company whose names contain the name or whose primaryName equals it, and is absent exactly when none matches |
| CompanyLinking.FindOrCreateCompany | src/data/resolvers/mutations/widgets.ts:320-330 | the collection is unchanged exactly when a matching company exists; otherwise exactly one company with primaryName = name and names = [name] is added; the linked company always matches the name |
| CompanyLinking.ConnectTwiceReusesCompany | src/data/resolvers/mutations/widgets.ts:320-339 | a second connect with the same name creates no company and links the same company as the first |
| WidgetGateway.Store.ConnectCompany | src/data/resolvers/mutations/widgets.ts:319-339 | without a name nothing changes; with one, the companies become the find-or-create result and one customer→company conformity is appended |
| VisitorMessages.Preview | src/data/resolvers/mutations/widgets.ts:381 | the preview is a prefix of the stripped message of at most 100 characters, the whole message when it is that short and exactly 100 characters otherwise |
| VisitorMessages.PreviewIdempotent | src/data/resolvers/mutations/widgets.ts:381 | cutting a preview again changes nothing |
| VisitorMessages.ReopenForgetsPriorState | src/data/resolvers/mutations/widgets.ts:387-431 | a reopened conversation is open, has no readers and shows the preview whatever its prior status and readers; integration, customer and assignee are kept |
| VisitorMessages.Arrive | src/data/resolvers/mutations/widgets.ts:442-467 | the connection fires exactly when the cached status (default "left") is "left"; it then becomes "joined"; afterwards the customer is never "left"; other customers' statuses are unchanged |
| VisitorMessages.SecondArrivalIsSilent | src/data/resolvers/mutations/widgets.ts:442-467 | a later message while the customer is joined fires no connection and changes no status |
| VisitorMessages.Republished | src/data/resolvers/mutations/widgets.ts:454-458 | one message-inserted event per returned message, in order |
| VisitorMessages.ConnectionEventOnlyOnEdge | src/data/resolvers/mutations/widgets.ts:436-467 | the events of an inserted message contain customerConnectionChanged{connected} exactly when the customer's status was "left" |
| WidgetGateway.Store.PostToConversation | src/data/resolvers/mutations/widgets.ts:385-431 | the named conversation is reopened with the preview as content, or a new one is created for the customer and integration; one fresh message with the raw content is stored |
| WidgetGateway.Store.RecordArrival | src/data/resolvers/mutations/widgets.ts:442-467 | the status cache follows the session edge; on the edge the returned messages are republished and the connection event is logged |
| WidgetGateway.Store.PublishInsert | src/data/resolvers/mutations/widgets.ts:436-467 | clientMessageInserted, messageInserted and the typing reset are published for the new message, then the session edge decides the status and the connection events |
| WidgetGateway.Store.InsertMessage | src/data/resolvers/mutations/widgets.ts:379-477 | the target conversation ends open, unread and previewing the first ≤100 characters of the stripped message; one message is added; the status and events follow the session edge; customers, companies, forms and counters are unchanged |
| ReadReceipts.MarkCustomerRead | src/data/resolvers/mutations/widgets.ts:484-492 | every agent-written message of the conversation becomes read by the customer; customer-written messages, other conversations and all other fields are unchanged |
| ReadReceipts.MarkCustomerReadIdempotent | src/data/resolvers/mutations/widgets.ts:483-495 | marking twice equals marking once |
| ReadReceipts.MarkCustomerReadLeavesNoneAwaiting | src/data/resolvers/mutations/widgets.ts:484-492 | afterwards no message matches the update's filter |
| WidgetGateway.Store.ReadConversationMessages | src/data/resolvers/mutations/widgets.ts:483-495 | the messages become the read-marked collection and the given conversation id is returned |
| MessengerData.EffectiveLanguage | src/data/resolvers/mutations/widgets.ts:50 | the integration's language code when truthy, else "en" |
| MessengerData.MessagesByLanguage | src/data/resolvers/mutations/widgets.ts:44-56 | messages are present exactly when settings with a messages map hold the effective language, and are then that language's entry |
| MessengerData.MessagesDefaultToEnglish | src/data/resolvers/mutations/widgets.ts:50-55 | without a language code the English messages, or none, are sent |
| MessengerData.FindApp | src/data/resolvers/mutations/widgets.ts:59-75 | the query result is the first app of the kind whose credentials name the integration, and is absent exactly when no app matches; apps without credentials never match |
| MessengerData.GetMessengerData | src/data/resolvers/mutations/widgets.ts:43-86 | the view carries the settings and the messages of the effective language; the topic id and the form code are that field of the first matching knowledge-base or lead app's credentials, and the website data is the first website app's whole credentials; each is absent when no app of its kind matches |
| MessengerData.AppsWithoutCredentialsAreSkipped | src/data/resolvers/mutations/widgets.ts:67-69 | with a lead app without credentials stored before one whose credentials hold formCode "F", the form code sent is "F" |

## Left out

- The document database behind every model call is represented by maps and sequences. The customer lookup, form validation, the customer status change and the HTML stripper are given to the handlers as parameters.
- Conversations.createConversation is not part of this model: a created conversation is assumed to start with status New, no readers and no assignee. The insert handler sets it to open right after.
- Customers.createCustomer is not part of this model: a created lead customer holds only the fields the handler passes (empty emails and phones before the merge).
- Submission values are modelled as strings (the source types them as any), so a submission with an undefined value is not represented.
- The cache key `customer_last_status_<id>` is modelled as a map keyed by customer id. Redis get/set is read as get with default "left".
- Who sets a customer back to "left" (disconnect handling) is outside this file and not modelled.
- Pub/sub is a ghost log of events that carry message ids rather than whole message documents.
- WidgetGateway.Store.InsertMessage: a conversationId that names no conversation is excluded by a precondition. The source would crash on the null result there.
- WidgetGateway.Store.InsertMessage: the writes of Conversations.changeCustomerStatus, which is defined outside widgets.ts, are not modelled. Only the messages it returns are used, and they are republished. So "one message is added" covers only the handler's own writes. The status change may store messages of its own, such as a "customer has joined" notice.
- `message || ''`: the message is modelled as a string that is always present.
- JavaScript's substring counts UTF-16 code units; the model counts Dafny characters.
- The rest of widgetsMessengerConnect is glue over model methods defined outside widgets.ts: brand and integration lookups, customer get/create/update, the video-call usage call, onboarding history and the response object. So are widgetsLeadConnect and widgetsSaveBrowserInfo.
- Side-channel and I/O calls: registerOnboardHistory, sendEmail, sendMobileNotification, trackViewPageEvent, EngageMessages.createVisitorMessages, Customers.markCustomerAsActive, the integrations API, and timestamps (submittedAt).
- widgetsSendTypingInfo, widgetsSendEmail, widgetsSaveCustomerGetNotified, widgetsLeadIncreaseViewCount and widgetsKnowledgebaseIncReactionCount are one-line pass-throughs to model methods and helpers defined outside widgets.ts.
- Only the company name is modelled from the visitor's company data. Other fields that the source copies into the new company are not.
- The model is sequential. Concurrent requests and their last-write-wins races are not modelled.
