/** The contact page's client-side state: a five-field draft, an
    in-progress flag and a three-valued result indicator, changed by field
    edits, by the submit handler and by the two "back to the form" buttons.
    The network call is not modelled: its outcome is a parameter. */
module ContactPage {
  import ContactRoute

  /** The names of the form's inputs (the `name` attribute each carries). */
  datatype Field = Name | Email | Company | Service | Message

  /** The draft inquiry held in the page's form state. */
  datatype Draft = Draft(name: string, email: string, company: string, service: string, message: string)

  const EmptyDraft: Draft := Draft("", "", "", "", "")

  datatype Status = Idle | Success | Error

  /** How the request ended: a response with `ok` set, a response without
      it, or a rejected fetch. */
  datatype FetchOutcome = OkResponse | NotOkResponse | Rejected

  function Get(d: Draft, f: Field): string {
    match f
    case Name => d.name
    case Email => d.email
    case Company => d.company
    case Service => d.service
    case Message => d.message
  }

  /** The draft after an edit of field f: `{ ...prev, [name]: value }`. */
  function WithField(d: Draft, f: Field, v: string): (r: Draft)
    ensures Get(r, f) == v
    ensures forall g :: g != f ==> Get(r, g) == Get(d, g)
  {
    match f
    case Name => d.(name := v)
    case Email => d.(email := v)
    case Company => d.(company := v)
    case Service => d.(service := v)
    case Message => d.(message := v)
  }

  /** Two drafts are equal exactly when they agree on every field. */
  lemma DraftExtensional(a: Draft, b: Draft)
    ensures a == b <==> forall f :: Get(a, f) == Get(b, f)
  {
    if forall f :: Get(a, f) == Get(b, f) {
      assert Get(a, Name) == Get(b, Name) && Get(a, Email) == Get(b, Email);
      assert Get(a, Company) == Get(b, Company) && Get(a, Service) == Get(b, Service);
      assert Get(a, Message) == Get(b, Message);
    }
  }

  /** Writing back the value a field already has changes nothing, and a
      later edit of the same field overrides an earlier one. */
  lemma WithFieldLaws(d: Draft, f: Field, v: string, w: string)
    ensures WithField(d, f, Get(d, f)) == d
    ensures WithField(WithField(d, f, v), f, w) == WithField(d, f, w)
  {
    DraftExtensional(WithField(d, f, Get(d, f)), d);
    DraftExtensional(WithField(WithField(d, f, v), f, w), WithField(d, f, w));
  }

  /** The JSON body `JSON.stringify(formData)`: every field is sent as a
      string, empty ones included. So the posted draft passes the endpoint's
      presence check exactly when its name, email and message are non-empty,
      its company and service rows appear exactly when those fields are
      non-empty, and the confirmation goes to the draft's email. */
  function ToRequest(d: Draft): (r: ContactRoute.Request)
    ensures ContactRoute.HasRequired(r) <==> d.name != "" && d.email != "" && d.message != ""
    ensures ContactRoute.Truthy(r.company) <==> d.company != ""
    ensures ContactRoute.Truthy(r.service) <==> d.service != ""
    ensures ContactRoute.HasRequired(r) ==> ContactRoute.Confirmation(r).to == d.email
  {
    ContactRoute.Request(ContactRoute.Some(d.name), ContactRoute.Some(d.email),
                         ContactRoute.Some(d.company), ContactRoute.Some(d.service),
                         ContactRoute.Some(d.message))
  }

  /** The page's state cells: formData, isSubmitting and submitStatus. */
  class ContactForm {
    var draft: Draft
    var isSubmitting: bool
    var status: Status

    /** A request is only in flight while the form itself is shown. */
    ghost predicate Valid()
      reads this
    {
      isSubmitting ==> status == Idle
    }

    /** The form (its inputs and its submit button) is rendered only in the
        idle state; the two other states show a result panel instead. */
    predicate FormShown()
      reads this
    {
      status == Idle
    }

    /** The submit button is disabled while a request is in flight. */
    predicate CanSubmit()
      reads this
    {
      FormShown() && !isSubmitting
    }

    /** The initial state: empty draft, nothing in flight, idle. */
    constructor ()
      ensures Valid()
      ensures draft == EmptyDraft && !isSubmitting && status == Idle
    {
      draft := EmptyDraft;
      isSubmitting := false;
      status := Idle;
    }

    /** handleChange: an input of the shown form reports a new value. */
    method Change(f: Field, v: string)
      requires Valid() && FormShown()
      modifies this
      ensures Valid()
      ensures draft == WithField(old(draft), f, v)
      ensures isSubmitting == old(isSubmitting) && status == old(status)
    {
      draft := WithField(draft, f, v);
    }

    /** The first half of handleSubmit, up to the fetch: mark the request as
        in flight, reset the status, and return the body that is posted. */
    method BeginSubmit() returns (body: ContactRoute.Request)
      requires Valid() && CanSubmit()
      modifies this
      ensures Valid()
      ensures body == ToRequest(old(draft))
      ensures draft == old(draft) && isSubmitting && status == Idle
    {
      isSubmitting := true;
      status := Idle;
      body := ToRequest(draft);
    }

    /** The second half of handleSubmit, once the fetch has settled: success
        clears the draft, a non-ok response or a rejected fetch keeps it and
        shows the error panel; either way the request is no longer in
        flight (the `finally` block). */
    method CompleteSubmit(outcome: FetchOutcome)
      requires Valid() && isSubmitting
      modifies this
      ensures Valid() && !isSubmitting
      ensures outcome == OkResponse ==> status == Success && draft == EmptyDraft
      ensures outcome != OkResponse ==> status == Error && draft == old(draft)
    {
      if outcome == OkResponse {
        status := Success;
        draft := EmptyDraft;
      } else {
        // `throw new Error(...)` for a non-ok response lands in the same catch
        status := Error;
      }
      isSubmitting := false;
    }

    /** The "send another" button of the success panel: back to a form
        whose submit button is enabled. */
    method SendAnother()
      requires Valid() && status == Success
      modifies this
      ensures Valid() && status == Idle && CanSubmit()
      ensures draft == old(draft) && isSubmitting == old(isSubmitting)
    {
      status := Idle;
    }

    /** The "Try Again" button of the error panel: back to a form whose
        submit button is enabled, with the draft as it is. */
    method TryAgain()
      requires Valid() && status == Error
      modifies this
      ensures Valid() && status == Idle && CanSubmit()
      ensures draft == old(draft) && isSubmitting == old(isSubmitting)
    {
      status := Idle;
    }
  }

  /** A failed submission followed by "Try Again" shows the form again with
      every field as the user left it, ready to be submitted once more. */
  method RetryKeepsDraft(page: ContactForm, outcome: FetchOutcome)
    requires page.Valid() && page.CanSubmit()
    requires outcome != OkResponse
    modifies page
    ensures page.Valid() && page.CanSubmit()
    ensures page.draft == old(page.draft)
  {
    var body := page.BeginSubmit();
    page.CompleteSubmit(outcome);
    page.TryAgain();
  }

  /** A successful submission followed by "send another" shows an empty
      form. */
  method SendAnotherStartsEmpty(page: ContactForm)
    requires page.Valid() && page.CanSubmit()
    modifies page
    ensures page.Valid() && page.CanSubmit()
    ensures page.draft == EmptyDraft
  {
    var body := page.BeginSubmit();
    page.CompleteSubmit(OkResponse);
    page.SendAnother();
  }
}
