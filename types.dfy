/**
 * The documents the widget gateway reads and writes: forms, customers,
 * companies, conformities, conversations and messages, plus the realtime
 * events it publishes.
 */
module WidgetTypes {
  import opened Wrappers

  /** Document identifier. Fresh ids are handed out by the store. */
  type Id = nat

  /** The visitor's browser information, stored as the customer's location. */
  type BrowserInfo = map<string, string>

  /** JavaScript truthiness of an optional string field. */
  predicate Truthy(s: Option<string>)
  {
    s.Some? && s.value != ""
  }

  /** One answered field of a lead form. */
  datatype Submission = Submission(id: string, value: string, fieldType: Option<string>, validation: Option<string>)

  /** One entry of the list that form validation returns. */
  datatype FieldError = FieldError(fieldId: string, code: string, text: string)

  datatype Form = Form(title: string)

  datatype Customer = Customer(
    integrationId: Option<Id>,
    firstName: Option<string>,
    lastName: Option<string>,
    primaryEmail: Option<string>,
    emails: seq<Option<string>>,
    primaryPhone: Option<string>,
    phones: seq<Option<string>>,
    location: Option<BrowserInfo>)

  datatype ConversationStatus = New | Open | Closed

  datatype Conversation = Conversation(
    integrationId: Id,
    customerId: Id,
    content: string,
    status: ConversationStatus,
    readUserIds: seq<Id>,
    assignedUserId: Option<Id>)

  datatype Attachment = Attachment(url: string, name: string, kind: string, size: nat)

  /** A message is written either by the customer (customerId) or by an agent (userId). */
  datatype Message = Message(
    conversationId: Id,
    customerId: Option<Id>,
    userId: Option<Id>,
    content: string,
    attachments: seq<Attachment>,
    contentType: Option<string>,
    formWidgetData: seq<Submission>,
    isCustomerRead: bool)

  datatype Company = Company(id: Id, primaryName: Option<string>, names: seq<string>, scopeBrandIds: seq<Id>)

  /** A typed many-to-many link between two documents. */
  datatype Conformity = Conformity(mainType: string, mainTypeId: Id, relType: string, relTypeId: Id)

  datatype FormSubmission = FormSubmission(formId: Id, customerId: Id)

  /** Realtime notifications, one constructor per pub/sub topic. */
  datatype Event =
    | ClientMessageInserted(messageId: Id)
    | MessageInserted(messageId: Id)
    | ClientTypingStatusChanged(conversationId: Option<Id>, text: string)
    | CustomerConnectionChanged(customerId: Id, status: string)
}
