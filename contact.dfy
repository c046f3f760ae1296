/**
 * The contact form (app/contact/page.tsx): three fields, all required, and
 * `handleSubmit`, which writes one inquiry document and resets the form only
 * after the write succeeded.
 *
 * The store's `inquiries` collection is a sequence; whether the write
 * succeeds, the clock and the signed-in user's id are parameters.
 */
module Contact {
  import opened Common

  datatype FormData = FormData(name: string, email: string, message: string)

  /** The form as the page first shows it, and as a successful submission
      leaves it. */
  const EmptyForm := FormData("", "", "")

  datatype Field = Name | Email | Message

  function Get(d: FormData, f: Field): string
  {
    match f
    case Name => d.name
    case Email => d.email
    case Message => d.message
  }

  /** `{ ...prev, [field]: value }`: only the named field changes. */
  function SetField(d: FormData, f: Field, value: string): (r: FormData)
    ensures Get(r, f) == value
    ensures forall g :: g != f ==> Get(r, g) == Get(d, g)
  {
    match f
    case Name => d.(name := value)
    case Email => d.(email := value)
    case Message => d.(message := value)
  }

  /** Line 42: every field must be filled in. */
  predicate Complete(d: FormData)
    ensures Complete(d) <==> forall f :: Get(d, f) != ""
  {
    assert Get(d, Name) == d.name && Get(d, Email) == d.email && Get(d, Message) == d.message;
    d.name != "" && d.email != "" && d.message != ""
  }

  datatype Inquiry = Inquiry(name: string, email: string, message: string, userId: Option<string>, createdAt: int, status: string)

  /** The inquiry document: the form's fields, the user id, the time and
      status `'new'`. */
  function ToInquiry(d: FormData, userId: Option<string>, now: int): (q: Inquiry)
    ensures FormData(q.name, q.email, q.message) == d
    ensures q.userId == userId && q.createdAt == now && q.status == "new"
  {
    Inquiry(d.name, d.email, d.message, userId, now, "new")
  }

  /** How `handleSubmit` ends. */
  datatype SubmitResult = Incomplete | Sent | SendFailed

  /** The alert the page shows, if any: every outcome but success has one. */
  function AlertText(r: SubmitResult): (text: Option<string>)
    ensures text.None? <==> r == Sent
  {
    match r
    case Incomplete => Some("Please fill in all fields")
    case Sent => None
    case SendFailed => Some("Error submitting your message. Please try again.")
  }

  datatype PageState = PageState(form: FormData, isSubmitting: bool, submitted: bool, inquiries: seq<Inquiry>)

  /** `handleSubmit` on values; `writeSucceeds` says whether `addDoc` resolves. */
  function Submit(s: PageState, userId: Option<string>, now: int, writeSucceeds: bool): (r: (PageState, SubmitResult))
    // an incomplete form is not sent and nothing changes
    ensures !Complete(s.form) ==> r == (s, Incomplete)
    // an attempted write always ends with `isSubmitting` false
    ensures Complete(s.form) ==> !r.0.isSubmitting
    // success: one inquiry written, `submitted` set, the form reset
    ensures r.1 == Sent <==> Complete(s.form) && writeSucceeds
    ensures r.1 == Sent ==>
      r.0.submitted && r.0.form == EmptyForm && r.0.inquiries == s.inquiries + [ToInquiry(s.form, userId, now)]
    // failure: the form, `submitted` and the store are as before
    ensures Complete(s.form) && !writeSucceeds ==> r.1 == SendFailed
    ensures r.1 == SendFailed ==>
      r.0.form == s.form && r.0.submitted == s.submitted && r.0.inquiries == s.inquiries
  {
    if !Complete(s.form) then (s, Incomplete)
    else if writeSucceeds then
      (PageState(EmptyForm, false, true, s.inquiries + [ToInquiry(s.form, userId, now)]), Sent)
    else
      (s.(isSubmitting := false), SendFailed)
  }

  /** A reset form cannot be submitted again until it is filled in anew, so
      a second submit right after a successful one writes nothing. */
  lemma NoDoubleSubmit(s: PageState, userId: Option<string>, now: int, writeSucceeds: bool, later: int, again: bool)
    requires Submit(s, userId, now, writeSucceeds).1 == Sent
    ensures var after := Submit(s, userId, now, writeSucceeds).0;
      Submit(after, userId, later, again) == (after, Incomplete)
  {
  }

  class ContactPage {
    var form: FormData
    var isSubmitting: bool
    var submitted: bool
    var inquiries: seq<Inquiry>

    constructor (inquiries: seq<Inquiry>)
      ensures form == EmptyForm && !isSubmitting && !submitted && this.inquiries == inquiries
    {
      form := EmptyForm;
      isSubmitting := false;
      submitted := false;
      this.inquiries := inquiries;
    }

    function State(): PageState
      reads this
    {
      PageState(form, isSubmitting, submitted, inquiries)
    }

    /** `handleInputChange(field, value)`. */
    method HandleInputChange(field: Field, value: string)
      modifies this`form
      ensures form == SetField(old(form), field, value)
    {
      form := SetField(form, field, value);
    }

    /** `handleSubmit(e)`. */
    method HandleSubmit(userId: Option<string>, now: int, writeSucceeds: bool) returns (result: SubmitResult)
      modifies this
      ensures (State(), result) == Submit(old(State()), userId, now, writeSucceeds)
    {
      if form.name == "" || form.email == "" || form.message == "" {
        return Incomplete;
      }
      isSubmitting := true;
      if writeSucceeds {
        inquiries := inquiries + [ToInquiry(form, userId, now)];
        submitted := true;
        form := EmptyForm;
        result := Sent;
      } else {
        result := SendFailed;
      }
      isSubmitting := false;
    }
  }
}
