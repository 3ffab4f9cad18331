/** The contact-form route: validate the submission, name its category and
    answer with a ticket id made from the submission time. Nothing is stored
    or sent; the submission is only logged. */
module ContactRoute {
  import opened Wrappers
  import opened JsValues
  import opened Schema
  import opened Text

  /** The fields of `contactSchema`, after validation. */
  datatype ContactInput = ContactInput(
    name: string,
    email: string,
    company: Option<string>,
    subject: string,
    message: string)

  const ContactKeys: set<string> := {"name", "email", "company", "subject", "message"}

  /** `z.string().email()`: a string the e-mail check accepts. */
  function EmailCheck(fields: map<string, Json>, isEmail: string -> bool): (r: Check<string>)
    ensures r.Ok? <==> "email" in fields && fields["email"].JStr? && isEmail(fields["email"].s)
    ensures r.Ok? ==> r.value == fields["email"].s
    ensures r.Err? ==> r.error == "email"
  {
    if "email" in fields && fields["email"].JStr? && isEmail(fields["email"].s) then Ok(fields["email"].s)
    else Err("email")
  }

  /** `contactSchema.parse`: a name of at least two characters, an e-mail
      address, an optional company, a non-empty subject and a message of at
      least ten characters; every failing key is reported in schema order. */
  function ValidateContact(body: Json, isEmail: string -> bool): (r: Result<ContactInput, seq<string>>)
    ensures !body.JObj? ==> r == Err([RootPath])
    ensures r.Ok? <==>
      && body.JObj?
      && "name" in body.fields && body.fields["name"].JStr? && |body.fields["name"].s| >= 2
      && "email" in body.fields && body.fields["email"].JStr? && isEmail(body.fields["email"].s)
      && ("company" !in body.fields || body.fields["company"].JStr?)
      && "subject" in body.fields && body.fields["subject"].JStr? && |body.fields["subject"].s| >= 1
      && "message" in body.fields && body.fields["message"].JStr? && |body.fields["message"].s| >= 10
    ensures r.Ok? ==>
      && JStr(r.value.name) == body.fields["name"]
      && JStr(r.value.email) == body.fields["email"]
      && JStr(r.value.subject) == body.fields["subject"]
      && JStr(r.value.message) == body.fields["message"]
      && (r.value.company.Some? <==> "company" in body.fields)
    ensures r.Err? ==> |r.error| >= 1
  {
    if !body.JObj? then Err([RootPath])
    else
      var f := body.fields;
      var name := RequiredString(f, "name", Bounds(2, None));
      var email := EmailCheck(f, isEmail);
      var company := OptionalString(f, "company", Bounds(0, None));
      var subject := RequiredString(f, "subject", Bounds(1, None));
      var message := RequiredString(f, "message", Bounds(10, None));
      var issues := IssueOf(name) + IssueOf(email) + IssueOf(company) + IssueOf(subject) + IssueOf(message);
      if issues != [] then Err(issues)
      else Ok(ContactInput(name.value, email.value, company.value, subject.value, message.value))
  }

  /** Keys outside `contactSchema` play no part in validation. */
  lemma ValidationIgnoresUnknownKeys(a: Json, b: Json, isEmail: string -> bool)
    requires AgreeOn(a, b, ContactKeys)
    ensures ValidateContact(a, isEmail) == ValidateContact(b, isEmail)
  {
    if a.JObj? {
      var fa, fb := a.fields, b.fields;
      assert RequiredString(fa, "name", Bounds(2, None)) == RequiredString(fb, "name", Bounds(2, None));
      assert EmailCheck(fa, isEmail) == EmailCheck(fb, isEmail);
      assert OptionalString(fa, "company", Bounds(0, None)) == OptionalString(fb, "company", Bounds(0, None));
      assert RequiredString(fa, "subject", Bounds(1, None)) == RequiredString(fb, "subject", Bounds(1, None));
      assert RequiredString(fa, "message", Bounds(10, None)) == RequiredString(fb, "message", Bounds(10, None));
    }
  }

  /** The own properties of the `subjectLabels` object literal. */
  function SubjectLabels(): map<string, string> {
    map["sales" := "Sales Inquiry",
        "support" := "Technical Support",
        "billing" := "Billing Question",
        "partnership" := "Partnership Opportunity",
        "press" := "Press & Media",
        "other" := "Other"]
  }

  /** What the reply's `category` holds: a string, or a member every object
      inherits from `Object.prototype` (a function or an object, never a
      string). */
  datatype CategoryValue = Label(name: string) | InheritedMember(member: string)

  /** `subjectLabels[subject] || subject` as written: an own label, else an
      inherited member (truthy, so the fallback is not taken), else the
      subject itself. */
  function CategoryAsWritten(subject: string): (r: CategoryValue)
    ensures subject in SubjectLabels() ==> r == Label(SubjectLabels()[subject])
    ensures subject !in SubjectLabels() && subject !in ObjectPrototypeNames ==> r == Label(subject)
  {
    match Lookup(SubjectLabels(), subject)
    case Own(text) => if text != "" then Label(text) else Label(subject)
    case Inherited(member) => InheritedMember(member)
    case Missing => Label(subject)
  }

  /** A subject naming an inherited member gets that member as its category,
      which is no string at all. */
  lemma InheritedSubjectIsNoCategory()
    ensures CategoryAsWritten("toString") == InheritedMember("toString")
    ensures CategoryAsWritten("constructor").InheritedMember?
  {
  }

  /** The category intended: the label of one of the six known subjects,
      otherwise the subject as given. */
  function Category(subject: string): (r: string)
    ensures subject in SubjectLabels() ==> r == SubjectLabels()[subject]
    ensures subject !in SubjectLabels() ==> r == subject
    ensures subject != "" ==> r != ""
  {
    if subject in SubjectLabels() then SubjectLabels()[subject] else subject
  }

  /** The corrected category agrees with the expression as written on every
      subject except the names of inherited members. */
  lemma CategoryDiffersOnlyOnInheritedNames(subject: string)
    ensures CategoryAsWritten(subject) == Label(Category(subject)) <==> subject !in ObjectPrototypeNames
  {
    assert forall k :: k in SubjectLabels() ==> k !in ObjectPrototypeNames && SubjectLabels()[k] != "";
  }

  const TicketPrefix: string := "RF-"

  /** `RF-` followed by `Date.now().toString(36).toUpperCase()`. */
  function TicketId(now: nat): (r: string)
    ensures |r| > |TicketPrefix| && r[..|TicketPrefix|] == TicketPrefix
    ensures forall i :: |TicketPrefix| <= i < |r| ==> IsDigitOf(r[i], 36) && !('a' <= r[i] <= 'z')
  {
    var digits := NatToString(now, 36);
    var upper := ToUpperAscii(digits);
    assert forall i :: 0 <= i < |upper| ==> DigitValue(upper[i]) == DigitValue(digits[i]);
    TicketPrefix + upper
  }

  /** The ticket id spells the submission time: reading the digits after
      the prefix in base 36 gives the timestamp back. */
  lemma TicketIdRoundTrip(now: nat)
    ensures ParseNat(TicketId(now)[|TicketPrefix|..], 36) == now
  {
    var digits := NatToString(now, 36);
    assert TicketId(now)[|TicketPrefix|..] == ToUpperAscii(digits);
    ParseNatUpper(digits, 36);
    ParseNatToString(now, 36);
  }

  /** Submissions at different times get different ticket ids. */
  lemma TicketIdsDiffer(t1: nat, t2: nat)
    requires t1 != t2
    ensures TicketId(t1) != TicketId(t2)
  {
    TicketIdRoundTrip(t1);
    TicketIdRoundTrip(t2);
  }

  const ReceivedMessage: string := "Your message has been received. We'll respond within 24 hours."

  datatype ContactReply =
    | InvalidForm(issues: seq<string>)
    | Failed
    | Received(message: string, ticketId: string, category: CategoryValue)

  function Status(r: ContactReply): int {
    match r
    case InvalidForm(_) => 400
    case Failed => 500
    case Received(_, _, _) => 200
  }

  /** `POST /api/contact`: a body that is not JSON fails with 500, a form
      the schema refuses with 400, and a valid one is acknowledged with the
      fixed message, the ticket id of the submission time and the category
      of its subject as written, which is the corrected `Category` for
      every subject but an inherited member name. */
  function Submit(body: Option<Json>, isEmail: string -> bool, now: nat): (r: ContactReply)
    ensures r == Failed <==> body.None?
    ensures r.InvalidForm? <==> body.Some? && ValidateContact(body.value, isEmail).Err?
    ensures r.InvalidForm? ==> r.issues == ValidateContact(body.value, isEmail).error
    ensures r.Received? ==>
      var input := ValidateContact(body.value, isEmail).value;
      && r.message == ReceivedMessage
      && |r.ticketId| > |TicketPrefix| && r.ticketId[..|TicketPrefix|] == TicketPrefix
      && ParseNat(r.ticketId[|TicketPrefix|..], 36) == now
      && (input.subject in SubjectLabels() ==> r.category == Label(SubjectLabels()[input.subject]))
      && (input.subject !in SubjectLabels() && input.subject !in ObjectPrototypeNames ==> r.category == Label(input.subject))
      && (input.subject in ObjectPrototypeNames ==> r.category == InheritedMember(input.subject))
      && (input.subject !in ObjectPrototypeNames ==> r.category == Label(Category(input.subject)))
  {
    if body.None? then Failed
    else match ValidateContact(body.value, isEmail)
      case Err(issues) => InvalidForm(issues)
      case Ok(input) =>
        TicketIdRoundTrip(now);
        CategoryDiffersOnlyOnInheritedNames(input.subject);
        Received(ReceivedMessage, TicketId(now), CategoryAsWritten(input.subject))
  }
}
