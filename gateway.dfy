/**
 * The anonymous-visitor widget handlers as operations on an in-memory
 * document store. Each collection is a field that the handlers reassign;
 * published notifications are recorded in a ghost log.
 */
module WidgetGateway {
  import opened Wrappers
  import opened WidgetTypes
  import opened LeadSubmission
  import opened CompanyLinking
  import opened VisitorMessages
  import opened ReadReceipts

  /** What a lead save answers when it does not throw. */
  datatype LeadResponse = Saved(messageId: Id) | Invalid(errors: seq<FieldError>)

  const FormNotFound := "Form not found"

  /** The per-form contacts-gathered counter, 0 for a form never counted. */
  function Gathered(counters: map<Id, nat>, formId: Id): nat
  {
    if formId in counters then counters[formId] else 0
  }

  /** Ids handed out so far are below `nextId`. */
  ghost predicate IdsBelow(customers: map<Id, Customer>, companies: seq<Company>, conversations: map<Id, Conversation>,
                           messages: map<Id, Message>, nextId: Id)
  {
    && (forall k :: k in customers ==> k < nextId)
    && (forall k :: k in conversations ==> k < nextId)
    && (forall k :: k in messages ==> k < nextId)
    && (forall i :: 0 <= i < |companies| ==> companies[i].id < nextId)
  }

  /** Every message belongs to a stored conversation. */
  ghost predicate MessagesAttached(messages: map<Id, Message>, conversations: map<Id, Conversation>)
  {
    forall k :: k in messages ==> messages[k].conversationId in conversations
  }

  ghost predicate Consistent(customers: map<Id, Customer>, companies: seq<Company>, conversations: map<Id, Conversation>,
                             messages: map<Id, Message>, nextId: Id)
  {
    IdsBelow(customers, companies, conversations, messages, nextId) && MessagesAttached(messages, conversations)
  }

  /**
   * Storing a conversation and a message under ids at or above the old
   * bound, with customers only added at such ids, keeps the store consistent.
   */
  lemma StoreKeepsConsistent(customers: map<Id, Customer>, customers': map<Id, Customer>, companies: seq<Company>,
                             conversations: map<Id, Conversation>, messages: map<Id, Message>, nextId: Id,
                             conversationId: Id, conversation: Conversation, messageId: Id, message: Message, nextId': Id)
    requires Consistent(customers, companies, conversations, messages, nextId)
    requires nextId <= nextId'
    requires forall k :: k in customers' ==> k in customers || nextId <= k < nextId'
    requires conversationId in conversations || nextId <= conversationId < nextId'
    requires nextId <= messageId < nextId'
    requires message.conversationId == conversationId
    ensures Consistent(customers', companies, conversations[conversationId := conversation],
                       messages[messageId := message], nextId')
  {
  }

  class Store {
    var forms: map<Id, Form>
    var customers: map<Id, Customer>
    var companies: seq<Company>
    var conformities: seq<Conformity>
    var conversations: map<Id, Conversation>
    var messages: map<Id, Message>
    var formSubmissions: seq<FormSubmission>
    var contactsGathered: map<Id, nat>
    /** The cache entries customer_last_status_<id>, keyed by customer id. */
    var lastStatus: map<Id, string>
    /** The next id handed to a created customer, company, conversation or message. */
    var nextId: Id
    ghost var events: seq<Event>

    /** Generated ids are below `nextId`, and every message belongs to a stored conversation. */
    ghost predicate Valid()
      reads this`customers, this`companies, this`conversations, this`messages, this`nextId
    {
      Consistent(customers, companies, conversations, messages, nextId)
    }

    constructor (forms: map<Id, Form>)
      ensures Valid()
      ensures this.forms == forms && customers == map[] && companies == [] && conformities == []
      ensures conversations == map[] && messages == map[] && formSubmissions == []
      ensures contactsGathered == map[] && lastStatus == map[] && events == []
    {
      this.forms := forms;
      customers, companies, conformities := map[], [], [];
      conversations, messages, formSubmissions := map[], map[], [];
      contactsGathered, lastStatus, nextId := map[], map[], 0;
      events := [];
    }

    /**
     * widgetsSaveLead. `validationErrors` is what form validation answers for
     * the submissions; `knownCustomer` is the customer the widget lookup finds
     * by cached id, email or phone.
     */
    method SaveLead(integrationId: Id, formId: Id, submissions: seq<Submission>, browserInfo: BrowserInfo,
                    validationErrors: seq<FieldError>, knownCustomer: Option<Id>)
      returns (res: Result<LeadResponse>, ghost customerId: Id, ghost conversationId: Id)
      requires Valid()
      requires knownCustomer.Some? ==> knownCustomer.value in customers
      modifies this
      ensures Valid()
      ensures forms == old(forms) && companies == old(companies) && conformities == old(conformities)
      ensures lastStatus == old(lastStatus)
      ensures formId !in old(forms) ==> res == Failure(FormNotFound)
      ensures formId in old(forms) && |validationErrors| > 0 ==> res == Success(Invalid(validationErrors))
      ensures res.Failure? || res.value.Invalid? ==>
        && customers == old(customers) && conversations == old(conversations) && messages == old(messages)
        && formSubmissions == old(formSubmissions) && contactsGathered == old(contactsGathered)
        && events == old(events) && nextId == old(nextId)
      ensures formId in old(forms) && |validationErrors| == 0 ==>
        var contact := ContactOf(submissions);
        var title := old(forms)[formId].title;
        && res.Success? && res.value.Saved?
        && (knownCustomer.Some? ==>
              && customerId == knownCustomer.value
              && customers == old(customers)[customerId := FillMissing(old(customers)[customerId], contact, browserInfo)])
        && (knownCustomer.None? ==>
              && customerId !in old(customers)
              && customers == old(customers)[customerId := FillMissing(NewLeadCustomer(integrationId, contact), contact, browserInfo)])
        && conversationId !in old(conversations)
        && conversations == old(conversations)[conversationId := StartConversation(integrationId, customerId, title)]
        && res.value.messageId !in old(messages)
        && messages == old(messages)[res.value.messageId :=
             Message(conversationId, Some(customerId), None, title, [], None, submissions, false)]
        && formSubmissions == old(formSubmissions) + [FormSubmission(formId, customerId)]
        && contactsGathered == old(contactsGathered)[formId := Gathered(old(contactsGathered), formId) + 1]
        && events == old(events) + [ClientMessageInserted(res.value.messageId), MessageInserted(res.value.messageId)]
        && nextId == old(nextId) + (if knownCustomer.Some? then 2 else 3)
    {
      customerId, conversationId := 0, 0;
      if formId !in forms {
        return Failure(FormNotFound), customerId, conversationId;
      }
      var form := forms[formId];
      if |validationErrors| > 0 {
        return Success(Invalid(validationErrors)), customerId, conversationId;
      }
      var content := form.title;
      var contact := ScanSubmissions(submissions);

      var messageId;
      messageId, customerId, conversationId := RecordLead(integrationId, formId, content, submissions, contact, browserInfo, knownCustomer);
      res := Success(Saved(messageId));
    }

    /** The success path of a lead save: customer, form submission, conversation, message, counter, events. */
    method RecordLead(integrationId: Id, formId: Id, title: string, submissions: seq<Submission>, contact: Contact,
                      browserInfo: BrowserInfo, knownCustomer: Option<Id>)
      returns (messageId: Id, ghost customerId: Id, ghost conversationId: Id)
      requires Valid()
      requires knownCustomer.Some? ==> knownCustomer.value in customers
      modifies this
      ensures Valid()
      ensures forms == old(forms) && companies == old(companies) && conformities == old(conformities)
      ensures lastStatus == old(lastStatus)
      ensures knownCustomer.Some? ==>
        && customerId == knownCustomer.value
        && customers == old(customers)[customerId := FillMissing(old(customers)[customerId], contact, browserInfo)]
      ensures knownCustomer.None? ==>
        && customerId !in old(customers)
        && customers == old(customers)[customerId := FillMissing(NewLeadCustomer(integrationId, contact), contact, browserInfo)]
      ensures conversationId !in old(conversations)
      ensures conversations == old(conversations)[conversationId := StartConversation(integrationId, customerId, title)]
      ensures messageId !in old(messages)
      ensures messages == old(messages)[messageId := Message(conversationId, Some(customerId), None, title, [], None, submissions, false)]
      ensures formSubmissions == old(formSubmissions) + [FormSubmission(formId, customerId)]
      ensures contactsGathered == old(contactsGathered)[formId := Gathered(old(contactsGathered), formId) + 1]
      ensures events == old(events) + [ClientMessageInserted(messageId), MessageInserted(messageId)]
      ensures nextId == old(nextId) + (if knownCustomer.Some? then 2 else 3)
    {
      var next := nextId;
      var custId: Id;
      var customer: Customer;
      if knownCustomer.Some? {
        custId := knownCustomer.value;
        customer := customers[custId];
      } else {
        custId, next := next, next + 1;
        customer := NewLeadCustomer(integrationId, contact);
      }
      var convId := next;
      messageId := next + 1;
      customers, nextId := customers[custId := FillMissing(customer, contact, browserInfo)], next + 2;
      formSubmissions := formSubmissions + [FormSubmission(formId, custId)];
      conversations := conversations[convId := StartConversation(integrationId, custId, title)];
      messages := messages[messageId := Message(convId, Some(custId), None, title, [], None, submissions, false)];
      contactsGathered := contactsGathered[formId := Gathered(contactsGathered, formId) + 1];
      events := events + [ClientMessageInserted(messageId), MessageInserted(messageId)];
      customerId, conversationId := custId, convId;
      StoreKeepsConsistent(old(customers), customers, companies, old(conversations), old(messages), old(nextId),
                           convId, conversations[convId], messageId, messages[messageId], nextId);
    }

    /** The company block of widgetsMessengerConnect, for the connected customer and the messenger's brand. */
    method ConnectCompany(customerId: Id, brandId: Id, companyData: Option<CompanyData>)
      returns (ghost companyId: Option<Id>)
      requires Valid()
      modifies this
      ensures Valid()
      ensures forms == old(forms) && customers == old(customers) && conversations == old(conversations)
      ensures messages == old(messages) && formSubmissions == old(formSubmissions)
      ensures contactsGathered == old(contactsGathered) && lastStatus == old(lastStatus) && events == old(events)
      ensures nextId + |old(companies)| == old(nextId) + |companies|
      ensures LinkName(companyData).None? ==>
        companyId.None? && companies == old(companies) && conformities == old(conformities)
      ensures LinkName(companyData).Some? ==>
        var link := FindOrCreateCompany(old(companies), LinkName(companyData).value, brandId, old(nextId));
        && companyId == Some(link.companyId)
        && companies == link.companies
        && conformities == old(conformities) + [CustomerCompany(customerId, link.companyId)]
    {
      companyId := None;
      var name := LinkName(companyData);
      if name.Some? {
        var found := FindCompany(companies, name.value);
        var id: Id;
        if found.Some? {
          id := companies[found.value].id;
        } else {
          id := nextId;
          companies, nextId := companies + [NewCompany(id, name.value, brandId)], nextId + 1;
        }
        conformities := conformities + [CustomerCompany(customerId, id)];
        companyId := Some(id);
      }
    }

    /** Reopen (or create) the message's conversation and store the message itself. */
    method PostToConversation(integrationId: Id, customerId: Id, conversationId: Option<Id>, message: string,
                              attachments: seq<Attachment>, contentType: Option<string>, preview: string)
      returns (messageId: Id, ghost targetId: Id)
      requires Valid()
      requires conversationId.Some? ==> conversationId.value in conversations
      modifies this`conversations, this`messages, this`nextId
      ensures Valid()
      ensures conversationId.Some? ==>
        && targetId == conversationId.value
        && conversations == old(conversations)[targetId := Reopen(old(conversations)[targetId], preview)]
      ensures conversationId.None? ==>
        && targetId !in old(conversations)
        && conversations == old(conversations)[targetId := Reopen(StartConversation(integrationId, customerId, preview), preview)]
      ensures targetId in conversations && conversations[targetId].status == Open && conversations[targetId].readUserIds == []
      ensures messageId !in old(messages)
      ensures messages == old(messages)[messageId := Message(targetId, Some(customerId), None, message, attachments, contentType, [], false)]
      ensures nextId == old(nextId) + (if conversationId.Some? then 1 else 2)
    {
      var next := nextId;
      var convId: Id;
      var conversation: Conversation;
      if conversationId.Some? {
        convId := conversationId.value;
        conversation := conversations[convId].(readUserIds := [], status := Open);
      } else {
        convId, next := next, next + 1;
        conversation := StartConversation(integrationId, customerId, preview);
      }
      targetId := convId;
      messageId := next;
      var msg := Message(convId, Some(customerId), None, message, attachments, contentType, [], false);
      var reopened := conversation.(status := Open, content := preview, readUserIds := []);
      StoreKeepsConsistent(customers, customers, companies, conversations, messages, nextId,
                           convId, reopened, messageId, msg, next + 1);
      messages, nextId := messages[messageId := msg], next + 1;
      conversations := conversations[convId := reopened];
    }

    /** The joined/left check: on the left-to-joined edge, republish and announce the customer. */
    method RecordArrival(customerId: Id, statusChangeMessages: seq<Id>)
      modifies this`lastStatus, this`events
      ensures var arrival := Arrive(old(lastStatus), customerId);
        && lastStatus == arrival.statuses
        && events == old(events) + (if arrival.connected
                                    then Republished(statusChangeMessages) + [CustomerConnectionChanged(customerId, "connected")]
                                    else [])
    {
      var customerLastStatus := LastStatus(lastStatus, customerId);
      if customerLastStatus == "left" {
        lastStatus := lastStatus[customerId := "joined"];
        for j := 0 to |statusChangeMessages|
          invariant events == old(events) + Republished(statusChangeMessages[..j])
        {
          assert statusChangeMessages[..j + 1][..j] == statusChangeMessages[..j];
          events := events + [MessageInserted(statusChangeMessages[j])];
        }
        assert statusChangeMessages[..|statusChangeMessages|] == statusChangeMessages;
        events := events + [CustomerConnectionChanged(customerId, "connected")];
      }
    }

    /** The publications of an inserted message: the message itself, the typing reset, then the session edge. */
    method PublishInsert(messageId: Id, conversationId: Option<Id>, customerId: Id, statusChangeMessages: seq<Id>)
      modifies this`lastStatus, this`events
      ensures var arrival := Arrive(old(lastStatus), customerId);
        && lastStatus == arrival.statuses
        && events == old(events) + InsertEvents(messageId, conversationId, customerId, arrival.connected, statusChangeMessages)
    {
      ghost var published := [ClientMessageInserted(messageId), MessageInserted(messageId), ClientTypingStatusChanged(conversationId, "")];
      events := events + published;
      ghost var arrival := Arrive(lastStatus, customerId);
      ghost var onEdge := if arrival.connected
                          then Republished(statusChangeMessages) + [CustomerConnectionChanged(customerId, "connected")]
                          else [];
      RecordArrival(customerId, statusChangeMessages);
      assert InsertEvents(messageId, conversationId, customerId, arrival.connected, statusChangeMessages) == published + onEdge;
      assert events == old(events) + (published + onEdge);
    }

    /**
     * widgetsInsertMessage. `strip` removes HTML from the message;
     * `statusChangeMessages` are the messages the customer's status change
     * to "joined" returns, published again when the customer arrives.
     */
    method InsertMessage(integrationId: Id, customerId: Id, conversationId: Option<Id>, message: string,
                         attachments: seq<Attachment>, contentType: Option<string>,
                         strip: string -> string, statusChangeMessages: seq<Id>)
      returns (messageId: Id, ghost targetId: Id)
      requires Valid()
      requires conversationId.Some? ==> conversationId.value in conversations
      modifies this`conversations, this`messages, this`nextId, this`lastStatus, this`events
      ensures Valid()
      ensures forms == old(forms) && customers == old(customers) && companies == old(companies)
      ensures conformities == old(conformities) && formSubmissions == old(formSubmissions)
      ensures contactsGathered == old(contactsGathered)
      ensures var preview := Preview(strip(message));
        && (conversationId.Some? ==>
              && targetId == conversationId.value
              && conversations == old(conversations)[targetId := Reopen(old(conversations)[targetId], preview)])
        && (conversationId.None? ==>
              && targetId !in old(conversations)
              && conversations == old(conversations)[targetId := Reopen(StartConversation(integrationId, customerId, preview), preview)])
      ensures conversations[targetId].status == Open && conversations[targetId].readUserIds == []
      ensures messageId !in old(messages)
      ensures messages == old(messages)[messageId := Message(targetId, Some(customerId), None, message, attachments, contentType, [], false)]
      ensures nextId == old(nextId) + (if conversationId.Some? then 1 else 2)
      ensures var arrival := Arrive(old(lastStatus), customerId);
        && lastStatus == arrival.statuses
        && events == old(events) + InsertEvents(messageId, conversationId, customerId, arrival.connected, statusChangeMessages)
    {
      var conversationContent := Preview(strip(message));
      messageId, targetId := PostToConversation(integrationId, customerId, conversationId, message, attachments,
                                                contentType, conversationContent);
      PublishInsert(messageId, conversationId, customerId, statusChangeMessages);
    }

    /** widgetsReadConversationMessages: answers the conversation id it was given. */
    method ReadConversationMessages(conversationId: Id) returns (r: Id)
      requires Valid()
      modifies this`messages
      ensures Valid()
      ensures r == conversationId
      ensures messages == MarkCustomerRead(old(messages), conversationId)
    {
      messages := MarkCustomerRead(messages, conversationId);
      r := conversationId;
    }
  }
}
