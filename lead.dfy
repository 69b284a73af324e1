/**
 * Lead-form submissions: pulling the contact fields out of the answered
 * fields, and the rule that fills in only the missing customer fields.
 */
module LeadSubmission {
  import opened Wrappers
  import opened WidgetTypes

  /** The contact fields a lead submission supplies. */
  datatype Contact = Contact(email: Option<string>, phone: Option<string>, firstName: string, lastName: string)

  /** The value of the last submission whose type is `t`, if any has that type. */
  function LastValueOf(subs: seq<Submission>, t: string): Option<string>
  {
    if |subs| == 0 then None
    else if subs[|subs| - 1].fieldType == Some(t) then Some(subs[|subs| - 1].value)
    else LastValueOf(subs[..|subs| - 1], t)
  }

  function OrEmpty(o: Option<string>): string
  {
    if o.Some? then o.value else ""
  }

  /** The contact a submission list describes: email and phone stay absent, names default to "". */
  function ContactOf(subs: seq<Submission>): Contact
  {
    Contact(LastValueOf(subs, "email"), LastValueOf(subs, "phone"),
            OrEmpty(LastValueOf(subs, "firstName")), OrEmpty(LastValueOf(subs, "lastName")))
  }

  /** Index `i` holds the last submission of type `t`. */
  predicate IsLastOfType(subs: seq<Submission>, i: int, t: string)
  {
    0 <= i < |subs| && subs[i].fieldType == Some(t) &&
    forall j :: i < j < |subs| ==> subs[j].fieldType != Some(t)
  }

  /** The last-match-wins reading of a submission list. */
  lemma {:induction false} LastValueOfIsLastMatch(subs: seq<Submission>, t: string)
    ensures LastValueOf(subs, t).None? <==> forall i :: 0 <= i < |subs| ==> subs[i].fieldType != Some(t)
    ensures forall i :: IsLastOfType(subs, i, t) ==> LastValueOf(subs, t) == Some(subs[i].value)
  {
    if |subs| > 0 {
      var init := subs[..|subs| - 1];
      LastValueOfIsLastMatch(init, t);
      assert forall i :: 0 <= i < |init| ==> init[i] == subs[i];
      if subs[|subs| - 1].fieldType != Some(t) {
        forall i | IsLastOfType(subs, i, t)
          ensures IsLastOfType(init, i, t)
        {
        }
      }
    }
  }

  /** Each contact field is the value of the last submission of its type, or its default. */
  lemma ContactOfTakesLastMatch(subs: seq<Submission>)
    ensures forall i :: IsLastOfType(subs, i, "email") ==> ContactOf(subs).email == Some(subs[i].value)
    ensures forall i :: IsLastOfType(subs, i, "phone") ==> ContactOf(subs).phone == Some(subs[i].value)
    ensures forall i :: IsLastOfType(subs, i, "firstName") ==> ContactOf(subs).firstName == subs[i].value
    ensures forall i :: IsLastOfType(subs, i, "lastName") ==> ContactOf(subs).lastName == subs[i].value
    ensures (forall i :: 0 <= i < |subs| ==> subs[i].fieldType != Some("email")) ==> ContactOf(subs).email == None
    ensures (forall i :: 0 <= i < |subs| ==> subs[i].fieldType != Some("phone")) ==> ContactOf(subs).phone == None
    ensures (forall i :: 0 <= i < |subs| ==> subs[i].fieldType != Some("firstName")) ==> ContactOf(subs).firstName == ""
    ensures (forall i :: 0 <= i < |subs| ==> subs[i].fieldType != Some("lastName")) ==> ContactOf(subs).lastName == ""
  {
    LastValueOfIsLastMatch(subs, "email");
    LastValueOfIsLastMatch(subs, "phone");
    LastValueOfIsLastMatch(subs, "firstName");
    LastValueOfIsLastMatch(subs, "lastName");
  }

  /** The forEach scan over the submissions, updating one local per field type. */
  method ScanSubmissions(submissions: seq<Submission>) returns (contact: Contact)
    ensures contact == ContactOf(submissions)
  {
    var email: Option<string> := None;
    var phone: Option<string> := None;
    var firstName := "";
    var lastName := "";
    var i := 0;
    while i < |submissions|
      invariant 0 <= i <= |submissions|
      invariant email == LastValueOf(submissions[..i], "email")
      invariant phone == LastValueOf(submissions[..i], "phone")
      invariant firstName == OrEmpty(LastValueOf(submissions[..i], "firstName"))
      invariant lastName == OrEmpty(LastValueOf(submissions[..i], "lastName"))
    {
      var submission := submissions[i];
      if submission.fieldType == Some("email") {
        email := Some(submission.value);
      }
      if submission.fieldType == Some("phone") {
        phone := Some(submission.value);
      }
      if submission.fieldType == Some("firstName") {
        firstName := submission.value;
      }
      if submission.fieldType == Some("lastName") {
        lastName := submission.value;
      }
      assert submissions[..i + 1][..i] == submissions[..i];
      i := i + 1;
    }
    assert submissions[..|submissions|] == submissions;
    contact := Contact(email, phone, firstName, lastName);
  }

  /** The customer created when no existing one is found for the submission. */
  function NewLeadCustomer(integrationId: Id, contact: Contact): Customer
  {
    Customer(Some(integrationId), Some(contact.firstName), Some(contact.lastName),
             contact.email, [], contact.phone, [], None)
  }

  /**
   * The update applied to the lead's customer: the location is replaced by
   * the browser info, and each name, email and phone is taken from the
   * submission only where the customer's own value is falsy.
   */
  function FillMissing(c: Customer, contact: Contact, browserInfo: BrowserInfo): Customer
  {
    var withNames := c.(location := Some(browserInfo),
                        firstName := if Truthy(c.firstName) then c.firstName else Some(contact.firstName),
                        lastName := if Truthy(c.lastName) then c.lastName else Some(contact.lastName));
    var withEmail := if Truthy(c.primaryEmail) then withNames
                     else withNames.(emails := [contact.email], primaryEmail := contact.email);
    if Truthy(c.primaryPhone) then withEmail
    else withEmail.(phones := [contact.phone], primaryPhone := contact.phone)
  }

  /** A truthy name, email or phone already on the customer is never overwritten. */
  lemma FillMissingKeepsPresentFields(c: Customer, contact: Contact, browserInfo: BrowserInfo)
    ensures var r := FillMissing(c, contact, browserInfo);
      && (Truthy(c.firstName) ==> r.firstName == c.firstName)
      && (Truthy(c.lastName) ==> r.lastName == c.lastName)
      && (Truthy(c.primaryEmail) ==> r.primaryEmail == c.primaryEmail && r.emails == c.emails)
      && (Truthy(c.primaryPhone) ==> r.primaryPhone == c.primaryPhone && r.phones == c.phones)
      && r.integrationId == c.integrationId
  {
  }

  /** Falsy fields are taken from the submission; email and phone also set their one-element lists. */
  lemma FillMissingFillsGaps(c: Customer, contact: Contact, browserInfo: BrowserInfo)
    ensures var r := FillMissing(c, contact, browserInfo);
      && r.location == Some(browserInfo)
      && (!Truthy(c.firstName) ==> r.firstName == Some(contact.firstName))
      && (!Truthy(c.lastName) ==> r.lastName == Some(contact.lastName))
      && (!Truthy(c.primaryEmail) ==> r.primaryEmail == contact.email && r.emails == [contact.email])
      && (!Truthy(c.primaryPhone) ==> r.primaryPhone == contact.phone && r.phones == [contact.phone])
  {
  }

  /** A truthy contact field ends up truthy on the customer, whichever side supplied it. */
  lemma FillMissingMonotone(c: Customer, contact: Contact, browserInfo: BrowserInfo)
    ensures var r := FillMissing(c, contact, browserInfo);
      && (Truthy(c.primaryEmail) || Truthy(contact.email) ==> Truthy(r.primaryEmail))
      && (Truthy(c.primaryPhone) || Truthy(contact.phone) ==> Truthy(r.primaryPhone))
      && (Truthy(c.firstName) || contact.firstName != "" ==> Truthy(r.firstName))
      && (Truthy(c.lastName) || contact.lastName != "" ==> Truthy(r.lastName))
  {
  }

  /** Submitting the same lead twice leaves the customer as one submission does. */
  lemma FillMissingIdempotent(c: Customer, contact: Contact, browserInfo: BrowserInfo)
    ensures FillMissing(FillMissing(c, contact, browserInfo), contact, browserInfo) == FillMissing(c, contact, browserInfo)
  {
  }
}
