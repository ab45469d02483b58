/**
 * The booking and contact forms: the draft each page keeps, when its submit
 * button is enabled, the request body it sends, and how the server's answer
 * becomes the banner above the form and decides whether the draft is kept.
 */
module Forms {
  import opened Js

  // ~~~ The answer to a submission ~~~

  /** What `response.json()` yields for an object body: the two fields the page reads. */
  datatype ReplyBody = ReplyBody(message: Option<string>, error: Option<string>)

  /**
   * What the `fetch` of a submission produced: a transport failure with its
   * error message, or an HTTP status and a body that did or did not parse.
   */
  datatype Reply =
    | NetworkFailure(reason: string)
    | Answer(status: nat, body: Option<ReplyBody>)

  /** `response.ok`. */
  predicate IsOk(status: nat) {
    200 <= status <= 299
  }

  /** A submission succeeds when the answer is a 2xx status with a body that parses. */
  predicate Succeeded(reply: Reply) {
    reply.Answer? && reply.body.Some? && IsOk(reply.status)
  }

  datatype BannerKind = SuccessBanner | ErrorBanner
  datatype Banner = Banner(kind: BannerKind, text: string)

  /** The texts that differ between the two forms. */
  datatype SubmitTexts = SubmitTexts(success: string, serverError: string, failurePrefix: string)

  const BookingTexts := SubmitTexts(
    "\U{1F389} Booking request submitted successfully! We will contact you within 24 hours.",
    "Server error. Please try again later or contact us directly.",
    "Failed to submit booking (Status: ")

  const ContactTexts := SubmitTexts(
    "\U{1F389} Message sent successfully! We will get back to you within 2-4 hours.",
    "Server error. Please try again later or call us directly.",
    "Failed to send message (Status: ")

  const InvalidResponse := "Invalid response from server"

  /**
   * The banner `handleSubmit` ends with. The body is parsed before the
   * status is looked at, so a body that does not parse gives the same text
   * whatever the status; a parsed 2xx answer is the only success.
   */
  function SubmitBanner(reply: Reply, texts: SubmitTexts): (b: Banner)
    ensures b.kind == SuccessBanner <==> Succeeded(reply)
    ensures Succeeded(reply) ==> b.text == OrElse(reply.body.value.message, texts.success)
    ensures reply.NetworkFailure? ==> b.text == reply.reason
    ensures reply.Answer? && reply.body.None? ==> b.text == InvalidResponse
    ensures reply.Answer? && reply.body.Some? && reply.status == 500 ==> b.text == texts.serverError
    ensures reply.Answer? && reply.body.Some? && !IsOk(reply.status) && reply.status != 500 ==>
              b.text == OrElse(reply.body.value.error, OrElse(reply.body.value.message,
                                 texts.failurePrefix + Decimal(reply.status) + ")"))
  {
    match reply
    case NetworkFailure(reason) => Banner(ErrorBanner, reason)
    case Answer(status, body) =>
      if body.None? then Banner(ErrorBanner, InvalidResponse)
      else if IsOk(status) then Banner(SuccessBanner, OrElse(body.value.message, texts.success))
      else if status == 500 then Banner(ErrorBanner, texts.serverError)
      else Banner(ErrorBanner, OrElse(body.value.error, OrElse(body.value.message,
                                 texts.failurePrefix + Decimal(status) + ")")))
  }

  /**
   * A failure that names neither an error nor a message reports the status,
   * and the status can be read back from the end of the banner.
   */
  lemma StatusInFallbackText(status: nat, texts: SubmitTexts)
    requires !IsOk(status) && status != 500
    ensures var b := SubmitBanner(Answer(status, Some(ReplyBody(None, None))), texts);
            var k := |texts.failurePrefix|;
            |b.text| > k + 1 && ParseInt(b.text[k..|b.text| - 1]) == Some(status)
  {
    var b := SubmitBanner(Answer(status, Some(ReplyBody(None, None))), texts);
    var k := |texts.failurePrefix|;
    assert b.text[k..|b.text| - 1] == Decimal(status);
    DecimalRoundTrip(status);
  }

  /**
   * The banner and the draft after a submission: on success the draft is
   * cleared, on every failure it is exactly what was submitted.
   */
  function SubmitOutcome<D>(draft: D, empty: D, reply: Reply, texts: SubmitTexts): (r: (Banner, D))
    ensures r.0 == SubmitBanner(reply, texts)
    ensures Succeeded(reply) ==> r.1 == empty
    ensures !Succeeded(reply) ==> r.1 == draft
  {
    var b := SubmitBanner(reply, texts);
    (b, if b.kind == SuccessBanner then empty else draft)
  }

  // ~~~ Booking page ~~~

  datatype BookingDraft = BookingDraft(
    fullName: string, email: string, phone: string, eventType: string,
    subject: string, service: string, eventDate: string, details: string)

  const EmptyBooking := BookingDraft("", "", "", "", "", "", "", "")

  datatype BookingField = FullName | Email | Phone | EventType | Subject | ServiceChoice | EventDate | Details

  /** `handleChange`: the edited field takes the new value, the others keep theirs. */
  function SetBookingField(d: BookingDraft, field: BookingField, value: string): (r: BookingDraft)
    ensures BookingFieldOf(r, field) == value
    ensures forall f :: f != field ==> BookingFieldOf(r, f) == BookingFieldOf(d, f)
  {
    match field
    case FullName => d.(fullName := value)
    case Email => d.(email := value)
    case Phone => d.(phone := value)
    case EventType => d.(eventType := value)
    case Subject => d.(subject := value)
    case ServiceChoice => d.(service := value)
    case EventDate => d.(eventDate := value)
    case Details => d.(details := value)
  }

  function BookingFieldOf(d: BookingDraft, field: BookingField): string {
    match field
    case FullName => d.fullName
    case Email => d.email
    case Phone => d.phone
    case EventType => d.eventType
    case Subject => d.subject
    case ServiceChoice => d.service
    case EventDate => d.eventDate
    case Details => d.details
  }

  /**
   * `isFormValid` of the booking page: name, e-mail, subject and details
   * each hold something other than whitespace, and an event type and a
   * service are chosen. Phone and date are optional.
   */
  function IsBookingFormValid(d: BookingDraft): (valid: bool)
    ensures valid <==> !IsBlank(d.fullName) && !IsBlank(d.email) && !IsBlank(d.subject)
                       && !IsBlank(d.details) && d.eventType != "" && d.service != ""
  {
    Trim(d.fullName) != "" && Trim(d.email) != "" && d.eventType != "" && d.service != ""
    && Trim(d.subject) != "" && Trim(d.details) != ""
  }

  /** The JSON body posted to the booking endpoint. */
  datatype BookingRequest = BookingRequest(
    fullName: string, email: string, phone: string, eventType: string,
    subject: string, service: string, eventDate: string, details: string)

  /**
   * The request body: each typed field is its input with the whitespace
   * ends cut off, the chosen ones are as they are. For a valid draft every
   * required field of the body is non-empty.
   */
  function BookingRequestOf(d: BookingDraft): (r: BookingRequest)
    ensures IsTrimOf(r.fullName, d.fullName) && IsTrimOf(r.email, d.email) && IsTrimOf(r.phone, d.phone)
    ensures IsTrimOf(r.subject, d.subject) && IsTrimOf(r.details, d.details)
    ensures r.eventType == d.eventType && r.service == d.service && r.eventDate == d.eventDate
    ensures IsBookingFormValid(d) ==>
              r.fullName != "" && r.email != "" && r.subject != "" && r.details != "" && r.eventType != "" && r.service != ""
  {
    TrimCutsBlankEnds(d.fullName);
    TrimCutsBlankEnds(d.email);
    TrimCutsBlankEnds(d.phone);
    TrimCutsBlankEnds(d.subject);
    TrimCutsBlankEnds(d.details);
    BookingRequest(Trim(d.fullName), Trim(d.email), Trim(d.phone), d.eventType,
                   Trim(d.subject), d.service, d.eventDate, Trim(d.details))
  }

  /** The state of the booking page's form. */
  class BookingForm {
    var formData: BookingDraft
    var isSubmitting: bool
    var submitMessage: Option<Banner>

    constructor ()
      ensures formData == EmptyBooking && !isSubmitting && submitMessage == None
    {
      formData := EmptyBooking;
      isSubmitting := false;
      submitMessage := None;
    }

    /** An edit; the inputs are disabled while a request is in flight. */
    method Change(field: BookingField, value: string)
      requires !isSubmitting
      modifies this
      ensures formData == SetBookingField(old(formData), field, value)
      ensures isSubmitting == old(isSubmitting) && submitMessage == old(submitMessage)
    {
      formData := SetBookingField(formData, field, value);
    }

    /**
     * A press of the submit button. The button is disabled while a request
     * is in flight or the form is invalid, and then nothing happens. The
     * browser checks the `type="email"` input first: `emailAccepted` is its
     * verdict, and a rejected address stops the press before the handler
     * runs. Otherwise the button is disabled, the old banner removed, and
     * the trimmed request goes out.
     */
    method BeginSubmit(emailAccepted: bool) returns (request: Option<BookingRequest>)
      modifies this
      ensures request.Some? <==> emailAccepted && !old(isSubmitting) && IsBookingFormValid(old(formData))
      ensures request.Some? ==> request.value == BookingRequestOf(formData) && isSubmitting && submitMessage.None?
      ensures request.None? ==> isSubmitting == old(isSubmitting) && submitMessage == old(submitMessage)
      ensures formData == old(formData)
    {
      if !emailAccepted || isSubmitting || !IsBookingFormValid(formData) {
        return None;
      }
      isSubmitting := true;
      submitMessage := None;
      request := Some(BookingRequestOf(formData));
    }

    /** The answer arrives: the banner is set, the draft cleared only on success, and the button enabled again. */
    method FinishSubmit(reply: Reply)
      requires isSubmitting
      modifies this
      ensures submitMessage.Some? && !isSubmitting
      ensures (submitMessage.value, formData) == SubmitOutcome(old(formData), EmptyBooking, reply, BookingTexts)
    {
      var outcome := SubmitOutcome(formData, EmptyBooking, reply, BookingTexts);
      submitMessage := Some(outcome.0);
      if outcome.0.kind == SuccessBanner {
        formData := EmptyBooking;
      }
      isSubmitting := false;
    }
  }

  /**
   * Two presses of the submit button before the answer arrives send at most
   * one request, whatever the browser makes of the address each time; the
   * first goes out when the browser accepts the address.
   */
  method DoubleSubmitSendsOnce(form: BookingForm, accepted1: bool, accepted2: bool)
    returns (first: Option<BookingRequest>, second: Option<BookingRequest>)
    requires !form.isSubmitting && IsBookingFormValid(form.formData)
    modifies form
    ensures first.Some? <==> accepted1
    ensures first.Some? ==> second.None?
    ensures first.None? ==> (second.Some? <==> accepted2)
  {
    first := form.BeginSubmit(accepted1);
    second := form.BeginSubmit(accepted2);
  }

  // ~~~ Contact page ~~~

  datatype ContactDraft = ContactDraft(name: string, email: string, message: string)

  const EmptyContact := ContactDraft("", "", "")

  datatype ContactField = Name | ContactEmail | Message

  /** `handleChange` of the contact page: the edited field takes the new value, the others keep theirs. */
  function SetContactField(d: ContactDraft, field: ContactField, value: string): (r: ContactDraft)
    ensures ContactFieldOf(r, field) == value
    ensures forall f :: f != field ==> ContactFieldOf(r, f) == ContactFieldOf(d, f)
  {
    match field
    case Name => d.(name := value)
    case ContactEmail => d.(email := value)
    case Message => d.(message := value)
  }

  function ContactFieldOf(d: ContactDraft, field: ContactField): string {
    match field
    case Name => d.name
    case ContactEmail => d.email
    case Message => d.message
  }

  /** `isFormValid` of the contact page: name, e-mail and message each hold something other than whitespace. */
  function IsContactFormValid(d: ContactDraft): (valid: bool)
    ensures valid <==> !IsBlank(d.name) && !IsBlank(d.email) && !IsBlank(d.message)
  {
    Trim(d.name) != "" && Trim(d.email) != "" && Trim(d.message) != ""
  }

  datatype ContactRequest = ContactRequest(name: string, email: string, message: string)

  /**
   * The request body: each field is its input with the whitespace ends cut
   * off, and all three are non-empty exactly for a valid draft.
   */
  function ContactRequestOf(d: ContactDraft): (r: ContactRequest)
    ensures IsTrimOf(r.name, d.name) && IsTrimOf(r.email, d.email) && IsTrimOf(r.message, d.message)
    ensures IsContactFormValid(d) <==> r.name != "" && r.email != "" && r.message != ""
  {
    TrimCutsBlankEnds(d.name);
    TrimCutsBlankEnds(d.email);
    TrimCutsBlankEnds(d.message);
    ContactRequest(Trim(d.name), Trim(d.email), Trim(d.message))
  }

  /** The state of the contact page's form. */
  class ContactForm {
    var formData: ContactDraft
    var isSubmitting: bool
    var submitMessage: Option<Banner>

    constructor ()
      ensures formData == EmptyContact && !isSubmitting && submitMessage == None
    {
      formData := EmptyContact;
      isSubmitting := false;
      submitMessage := None;
    }

    method Change(field: ContactField, value: string)
      requires !isSubmitting
      modifies this
      ensures formData == SetContactField(old(formData), field, value)
      ensures isSubmitting == old(isSubmitting) && submitMessage == old(submitMessage)
    {
      formData := SetContactField(formData, field, value);
    }

    /** A press of the submit button; as for the booking form, `emailAccepted` is the browser's verdict on the address. */
    method BeginSubmit(emailAccepted: bool) returns (request: Option<ContactRequest>)
      modifies this
      ensures request.Some? <==> emailAccepted && !old(isSubmitting) && IsContactFormValid(old(formData))
      ensures request.Some? ==> request.value == ContactRequestOf(formData) && isSubmitting && submitMessage.None?
      ensures request.None? ==> isSubmitting == old(isSubmitting) && submitMessage == old(submitMessage)
      ensures formData == old(formData)
    {
      if !emailAccepted || isSubmitting || !IsContactFormValid(formData) {
        return None;
      }
      isSubmitting := true;
      submitMessage := None;
      request := Some(ContactRequestOf(formData));
    }

    method FinishSubmit(reply: Reply)
      requires isSubmitting
      modifies this
      ensures submitMessage.Some? && !isSubmitting
      ensures (submitMessage.value, formData) == SubmitOutcome(old(formData), EmptyContact, reply, ContactTexts)
    {
      var outcome := SubmitOutcome(formData, EmptyContact, reply, ContactTexts);
      submitMessage := Some(outcome.0);
      if outcome.0.kind == SuccessBanner {
        formData := EmptyContact;
      }
      isSubmitting := false;
    }
  }
}
