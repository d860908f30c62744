/** The contact endpoint (POST /api/contact): presence check of the required
    fields, two HTML emails built from fixed markup and escaped fields, two
    sequential sends through an external provider, and a JSON answer. */
module ContactRoute {
  import opened HtmlEscape

  datatype Option<T> = None | Some(value: T)

  /** A request body: each field is absent (undefined or null) or a string. */
  datatype Request = Request(
    name: Option<string>,
    email: Option<string>,
    company: Option<string>,
    service: Option<string>,
    message: Option<string>)

  /** JavaScript truthiness of an optional string: present and non-empty. */
  predicate Truthy(o: Option<string>) {
    o.Some? && o.value != ""
  }

  /** The guard of the handler: name, email and message are all truthy. */
  predicate HasRequired(req: Request) {
    Truthy(req.name) && Truthy(req.email) && Truthy(req.message)
  }

  datatype ResponseBody = SuccessBody | ErrorBody(error: string)

  /** An HTTP status with its JSON body. */
  datatype Response = Response(status: int, body: ResponseBody)

  const FromEmail: string := "contact@email.mantaray.digital"
  const ToEmail: string := "contact@mantaray.digital"

  const Accepted: Response := Response(200, SuccessBody)
  const MissingFields: Response := Response(400, ErrorBody("Missing required fields"))
  const SendFailed: Response := Response(500, ErrorBody("Failed to send email"))

  /* ---------------- HTML templates ---------------- */

  /** A piece of an email template: fixed markup, or a user value that is
      interpolated through EscapeHtml. */
  datatype Piece = Lit(text: string) | Esc(value: string)

  function PieceText(p: Piece): string {
    match p
    case Lit(t) => t
    case Esc(v) => EscapeHtml(v)
  }

  /** The HTML text of a template. */
  function Render(ps: seq<Piece>): string
    decreases |ps|
  {
    if ps == [] then "" else PieceText(ps[0]) + Render(ps[1..])
  }

  /** The fixed markup of a template, with the user values left out. */
  function Skeleton(ps: seq<Piece>): string
    decreases |ps|
  {
    if ps == [] then ""
    else (match ps[0] case Lit(t) => t case Esc(_) => "") + Skeleton(ps[1..])
  }

  /** The user values a template interpolates, in order. */
  function Interpolated(ps: seq<Piece>): seq<string>
    decreases |ps|
  {
    if ps == [] then []
    else (match ps[0] case Lit(_) => [] case Esc(v) => [v]) + Interpolated(ps[1..])
  }

  // The markup fragments of the two templates (styles left out).
  const NotifyHead: string := "<div><h1>MANTARAY</h1><p>New Contact Form Submission</p><table><tr><td>Name</td><td>"
  const NotifyEmailOpen: string := "</td></tr><tr><td>Email</td><td><a href=\"mailto:"
  const NotifyEmailMid: string := "\">"
  const NotifyEmailClose: string := "</a></td></tr>"
  const CompanyRowOpen: string := "<tr><td>Company</td><td>"
  const ServiceRowOpen: string := "<tr><td>Service</td><td>"
  const RowClose: string := "</td></tr>"
  const MessageRowOpen: string := "<tr><td>Message</td><td>"
  const NotifyTail: string := "</td></tr></table><p>Sent from mantaray.digital contact form</p></div>"

  const ConfirmHead: string := "<div><h1>MANTARAY</h1><h2>Message Received!</h2><p>Hey <span>"
  const ConfirmServiceOpen: string := "</span>,</p><p>Thanks for reaching out!</p><p>Your Inquiry</p><p>Service</p><p>"
  const GeneralInquiry: string := "General inquiry"
  const ConfirmMessageOpen: string := "</p><p>Message</p><p>"
  const ConfirmTail: string := "</p><a href=\"https://mantaray.digital\">Visit Our Website</a></div>"

  const ConfirmSubject: string := "Thank you for reaching out | Mantaray"

  /** Fixed markup followed by one interpolated user value. */
  function Slot(markup: string, value: string): seq<Piece> {
    [Lit(markup), Esc(value)]
  }

  /** The value of an optional field, as a list of none or one string. */
  function Present(field: Option<string>): seq<string> {
    if Truthy(field) then [field.value] else []
  }

  /** The optional company and service rows of the notification. */
  function OptionalRow(open: string, field: Option<string>): seq<Piece> {
    if Truthy(field) then Slot(open, field.value) + [Lit(RowClose)] else []
  }

  /** The notification to the operator: name, email (twice: link target and
      text), the optional company and service rows, and the message. */
  function NotificationPieces(req: Request): seq<Piece>
    requires HasRequired(req)
  {
    Slot(NotifyHead, req.name.value) + Slot(NotifyEmailOpen, req.email.value)
    + Slot(NotifyEmailMid, req.email.value) + [Lit(NotifyEmailClose)]
    + OptionalRow(CompanyRowOpen, req.company)
    + OptionalRow(ServiceRowOpen, req.service)
    + Slot(MessageRowOpen, req.message.value) + [Lit(NotifyTail)]
  }

  /** The service slot of the confirmation: the escaped service, or the fixed
      fallback text. */
  function ServiceSlot(service: Option<string>): seq<Piece> {
    if Truthy(service) then [Esc(service.value)] else [Lit(GeneralInquiry)]
  }

  /** The confirmation to the submitter: name, service (or the fixed
      fallback text) and message. */
  function ConfirmationPieces(req: Request): seq<Piece>
    requires HasRequired(req)
  {
    Slot(ConfirmHead, req.name.value) + [Lit(ConfirmServiceOpen)]
    + ServiceSlot(req.service)
    + Slot(ConfirmMessageOpen, req.message.value) + [Lit(ConfirmTail)]
  }

  datatype Email = Email(from: string, to: string, subject: string, html: string)

  /** Email #1. The subject carries the raw name: it is not HTML. */
  function Notification(req: Request): Email
    requires HasRequired(req)
  {
    Email(FromEmail, ToEmail, "[Mantaray] New inquiry from " + req.name.value,
          Render(NotificationPieces(req)))
  }

  /** Email #2, addressed to the submitter's own (unescaped) email value. */
  function Confirmation(req: Request): Email
    requires HasRequired(req)
  {
    Email(FromEmail, req.email.value, ConfirmSubject, Render(ConfirmationPieces(req)))
  }

  /* ---------------- Properties of the templates ---------------- */

  /** The number of occurrences of c in s. */
  function Count(c: char, s: string): nat
    decreases |s|
  {
    if s == [] then 0 else (if s[0] == c then 1 else 0) + Count(c, s[1..])
  }

  lemma {:induction false} CountConcat(c: char, a: string, b: string)
    ensures Count(c, a + b) == Count(c, a) + Count(c, b)
    decreases |a|
  {
    if a == [] {
      assert a + b == b;
    } else {
      assert (a + b)[0] == a[0] && (a + b)[1..] == a[1..] + b;
      CountConcat(c, a[1..], b);
    }
  }

  lemma {:induction false} CountAbsent(c: char, s: string)
    requires forall i :: 0 <= i < |s| ==> s[i] != c
    ensures Count(c, s) == 0
    decreases |s|
  {
    if s != [] {
      CountAbsent(c, s[1..]);
    }
  }

  /** User values add none of `<`, `>`, `"`, `'` to a rendered template: each
      of them occurs in the HTML exactly as often as in the fixed markup. */
  lemma {:induction false} RenderAddsNoMarkup(ps: seq<Piece>, c: char)
    requires IsRawMarkup(c)
    ensures Count(c, Render(ps)) == Count(c, Skeleton(ps))
    decreases |ps|
  {
    if ps != [] {
      RenderAddsNoMarkup(ps[1..], c);
      CountConcat(c, PieceText(ps[0]), Render(ps[1..]));
      match ps[0]
      case Lit(t) =>
        CountConcat(c, t, Skeleton(ps[1..]));
      case Esc(v) =>
        CountAbsent(c, EscapeHtml(v));
        assert Skeleton(ps) == Skeleton(ps[1..]);
    }
  }

  /** Skeleton and Interpolated distribute over the concatenation of templates. */
  lemma {:induction false} SkeletonConcat(a: seq<Piece>, b: seq<Piece>)
    ensures Skeleton(a + b) == Skeleton(a) + Skeleton(b)
    decreases |a|
  {
    if a == [] {
      assert a + b == b;
    } else {
      assert (a + b)[0] == a[0] && (a + b)[1..] == a[1..] + b;
      SkeletonConcat(a[1..], b);
    }
  }

  lemma {:induction false} InterpolatedConcat(a: seq<Piece>, b: seq<Piece>)
    ensures Interpolated(a + b) == Interpolated(a) + Interpolated(b)
    decreases |a|
  {
    if a == [] {
      assert a + b == b;
    } else {
      assert (a + b)[0] == a[0] && (a + b)[1..] == a[1..] + b;
      InterpolatedConcat(a[1..], b);
    }
  }

  /** Splits Skeleton and Interpolated over a + b. */
  lemma Split(a: seq<Piece>, b: seq<Piece>)
    ensures Skeleton(a + b) == Skeleton(a) + Skeleton(b)
    ensures Interpolated(a + b) == Interpolated(a) + Interpolated(b)
  {
    SkeletonConcat(a, b);
    InterpolatedConcat(a, b);
  }

  lemma SlotParts(markup: string, value: string)
    ensures Skeleton(Slot(markup, value)) == markup
    ensures Interpolated(Slot(markup, value)) == [value]
  {
    var ps := Slot(markup, value);
    assert ps[0] == Lit(markup) && ps[1..] == [Esc(value)];
    assert [Esc(value)][1..] == [];
    assert Skeleton([Esc(value)]) == "" && Interpolated([Esc(value)]) == [value];
  }

  lemma LitParts(markup: string)
    ensures Skeleton([Lit(markup)]) == markup
    ensures Interpolated([Lit(markup)]) == []
  {
    assert [Lit(markup)][1..] == [];
  }

  lemma OptionalRowParts(open: string, field: Option<string>)
    ensures Skeleton(OptionalRow(open, field)) == if Truthy(field) then open + RowClose else ""
    ensures Interpolated(OptionalRow(open, field)) == Present(field)
  {
    if Truthy(field) {
      SlotParts(open, field.value);
      LitParts(RowClose);
      Split(Slot(open, field.value), [Lit(RowClose)]);
    }
  }

  lemma ServiceSlotParts(service: Option<string>)
    ensures Skeleton(ServiceSlot(service)) == if Truthy(service) then "" else GeneralInquiry
    ensures Interpolated(ServiceSlot(service)) == if Truthy(service) then [service.value] else []
  {
    if Truthy(service) {
      assert ServiceSlot(service)[1..] == [];
    } else {
      LitParts(GeneralInquiry);
    }
  }

  /** The eight parts the notification is made of, and how Skeleton and
      Interpolated split over them. */
  lemma SplitEight(p1: seq<Piece>, p2: seq<Piece>, p3: seq<Piece>, p4: seq<Piece>,
                   p5: seq<Piece>, p6: seq<Piece>, p7: seq<Piece>, p8: seq<Piece>)
    ensures Skeleton(p1 + p2 + p3 + p4 + p5 + p6 + p7 + p8)
         == Skeleton(p1) + Skeleton(p2) + Skeleton(p3) + Skeleton(p4)
            + Skeleton(p5) + Skeleton(p6) + Skeleton(p7) + Skeleton(p8)
    ensures Interpolated(p1 + p2 + p3 + p4 + p5 + p6 + p7 + p8)
         == Interpolated(p1) + Interpolated(p2) + Interpolated(p3) + Interpolated(p4)
            + Interpolated(p5) + Interpolated(p6) + Interpolated(p7) + Interpolated(p8)
  {
    Split(p1, p2);
    Split(p1 + p2, p3);
    Split(p1 + p2 + p3, p4);
    Split(p1 + p2 + p3 + p4, p5);
    Split(p1 + p2 + p3 + p4 + p5, p6);
    Split(p1 + p2 + p3 + p4 + p5 + p6, p7);
    Split(p1 + p2 + p3 + p4 + p5 + p6 + p7, p8);
  }

  /** Exactly these user values pass through EscapeHtml into the
      notification, in this order: the company and service only when they
      are truthy. */
  lemma NotificationFields(req: Request)
    requires HasRequired(req)
    ensures Interpolated(NotificationPieces(req))
         == [req.name.value, req.email.value, req.email.value]
            + Present(req.company) + Present(req.service) + [req.message.value]
  {
    var p1, p2, p3, p4 := Slot(NotifyHead, req.name.value), Slot(NotifyEmailOpen, req.email.value),
                          Slot(NotifyEmailMid, req.email.value), [Lit(NotifyEmailClose)];
    var p5, p6 := OptionalRow(CompanyRowOpen, req.company), OptionalRow(ServiceRowOpen, req.service);
    var p7, p8 := Slot(MessageRowOpen, req.message.value), [Lit(NotifyTail)];
    SlotParts(NotifyHead, req.name.value);
    SlotParts(NotifyEmailOpen, req.email.value);
    SlotParts(NotifyEmailMid, req.email.value);
    LitParts(NotifyEmailClose);
    OptionalRowParts(CompanyRowOpen, req.company);
    OptionalRowParts(ServiceRowOpen, req.service);
    SlotParts(MessageRowOpen, req.message.value);
    LitParts(NotifyTail);
    SplitEight(p1, p2, p3, p4, p5, p6, p7, p8);
    assert NotificationPieces(req) == p1 + p2 + p3 + p4 + p5 + p6 + p7 + p8;
    var n, e, m := [req.name.value], [req.email.value], [req.message.value];
    var c, sv := Present(req.company), Present(req.service);
    var nothing: seq<string> := [];
    assert Interpolated(NotificationPieces(req)) == n + e + e + nothing + c + sv + m + nothing;
    assert n + e + e + nothing == [req.name.value, req.email.value, req.email.value];
    assert m + nothing == m;
  }

  /** Around the user values the notification's markup is fixed, up to the
      two optional rows. */
  lemma NotificationSkeleton(req: Request)
    requires HasRequired(req)
    ensures Skeleton(NotificationPieces(req))
         == NotifyHead + NotifyEmailOpen + NotifyEmailMid + NotifyEmailClose
            + (if Truthy(req.company) then CompanyRowOpen + RowClose else "")
            + (if Truthy(req.service) then ServiceRowOpen + RowClose else "")
            + MessageRowOpen + NotifyTail
  {
    var p1, p2, p3, p4 := Slot(NotifyHead, req.name.value), Slot(NotifyEmailOpen, req.email.value),
                          Slot(NotifyEmailMid, req.email.value), [Lit(NotifyEmailClose)];
    var p5, p6 := OptionalRow(CompanyRowOpen, req.company), OptionalRow(ServiceRowOpen, req.service);
    var p7, p8 := Slot(MessageRowOpen, req.message.value), [Lit(NotifyTail)];
    SlotParts(NotifyHead, req.name.value);
    SlotParts(NotifyEmailOpen, req.email.value);
    SlotParts(NotifyEmailMid, req.email.value);
    LitParts(NotifyEmailClose);
    OptionalRowParts(CompanyRowOpen, req.company);
    OptionalRowParts(ServiceRowOpen, req.service);
    SlotParts(MessageRowOpen, req.message.value);
    LitParts(NotifyTail);
    SplitEight(p1, p2, p3, p4, p5, p6, p7, p8);
    assert NotificationPieces(req) == p1 + p2 + p3 + p4 + p5 + p6 + p7 + p8;
  }

  /** The confirmation interpolates name, service and message, and shows
      "General inquiry" in the service slot when the service is not truthy. */
  lemma ConfirmationFields(req: Request)
    requires HasRequired(req)
    ensures Interpolated(ConfirmationPieces(req))
         == [req.name.value] + (if Truthy(req.service) then [req.service.value] else [])
            + [req.message.value]
    ensures Skeleton(ConfirmationPieces(req))
         == ConfirmHead + ConfirmServiceOpen + (if Truthy(req.service) then "" else GeneralInquiry)
            + ConfirmMessageOpen + ConfirmTail
  {
    var p1 := Slot(ConfirmHead, req.name.value);
    var p2 := [Lit(ConfirmServiceOpen)];
    var p3 := ServiceSlot(req.service);
    var p4 := Slot(ConfirmMessageOpen, req.message.value);
    var p5 := [Lit(ConfirmTail)];
    SlotParts(ConfirmHead, req.name.value);
    LitParts(ConfirmServiceOpen);
    ServiceSlotParts(req.service);
    SlotParts(ConfirmMessageOpen, req.message.value);
    LitParts(ConfirmTail);
    Split(p1, p2);
    Split(p1 + p2, p3);
    Split(p1 + p2 + p3, p4);
    Split(p1 + p2 + p3 + p4, p5);
  }

  /** Whatever the user typed, the notification holds the same number of
      `<`, `>`, `"` and `'` -- those of its fixed markup -- as long as the
      same optional rows are shown. */
  lemma NotificationMarkupFixed(r1: Request, r2: Request, c: char)
    requires HasRequired(r1) && HasRequired(r2) && IsRawMarkup(c)
    requires Truthy(r1.company) == Truthy(r2.company)
    requires Truthy(r1.service) == Truthy(r2.service)
    ensures Count(c, Notification(r1).html) == Count(c, Notification(r2).html)
  {
    NotificationSkeleton(r1);
    NotificationSkeleton(r2);
    assert Skeleton(NotificationPieces(r1)) == Skeleton(NotificationPieces(r2));
    RenderAddsNoMarkup(NotificationPieces(r1), c);
    RenderAddsNoMarkup(NotificationPieces(r2), c);
  }

  /** The same for the confirmation, whose markup depends only on whether
      the service is truthy. */
  lemma ConfirmationMarkupFixed(r1: Request, r2: Request, c: char)
    requires HasRequired(r1) && HasRequired(r2) && IsRawMarkup(c)
    requires Truthy(r1.service) == Truthy(r2.service)
    ensures Count(c, Confirmation(r1).html) == Count(c, Confirmation(r2).html)
  {
    ConfirmationFields(r1);
    ConfirmationFields(r2);
    assert Skeleton(ConfirmationPieces(r1)) == Skeleton(ConfirmationPieces(r2));
    RenderAddsNoMarkup(ConfirmationPieces(r1), c);
    RenderAddsNoMarkup(ConfirmationPieces(r2), c);
  }

  /* ---------------- The email provider ---------------- */

  /** One call of the provider's send: the email handed over and whether
      the call threw. */
  datatype Attempt = Attempt(email: Email, threw: bool)

  /** The external email provider. Whether a send returns or throws is up to
      the provider; the model records every attempt in a ghost log. */
  class Mailer {
    ghost var log: seq<Attempt>

    constructor ()
      ensures log == []
    {
      log := [];
    }

    method Send(e: Email) returns (threw: bool)
      modifies this
      ensures log == old(log) + [Attempt(e, threw)]
    {
      threw :| true;
      log := log + [Attempt(e, threw)];
    }
  }

  /* ---------------- The handler ---------------- */

  /** A handler run as a value: the sends it attempted and its answer. */
  datatype Run = Run(attempts: seq<Attempt>, response: Response)

  /** What the handler does, given whether the first and second send throw:
      reject a request without the required fields before any send,
      otherwise send the notification, then the confirmation, stopping with
      500 at the first send that throws. */
  function Expected(req: Request, firstThrows: bool, secondThrows: bool): Run {
    if !HasRequired(req) then Run([], MissingFields)
    else if firstThrows then Run([Attempt(Notification(req), true)], SendFailed)
    else if secondThrows then
      Run([Attempt(Notification(req), false), Attempt(Confirmation(req), true)], SendFailed)
    else
      Run([Attempt(Notification(req), false), Attempt(Confirmation(req), false)], Accepted)
  }

  /** Whether the i-th attempt of a list exists and threw. */
  predicate ThrewAt(attempts: seq<Attempt>, i: nat) {
    i < |attempts| && attempts[i].threw
  }

  /** POST: the handler itself, over the provider. */
  method Post(req: Request, mailer: Mailer) returns (resp: Response)
    modifies mailer
    ensures |old(mailer.log)| <= |mailer.log|
    ensures mailer.log[..|old(mailer.log)|] == old(mailer.log)
    ensures var added := mailer.log[|old(mailer.log)|..];
            Run(added, resp) == Expected(req, ThrewAt(added, 0), ThrewAt(added, 1))
  {
    if !HasRequired(req) {
      return MissingFields;
    }
    var threw := mailer.Send(Notification(req));
    if threw {
      return SendFailed;
    }
    threw := mailer.Send(Confirmation(req));
    if threw {
      return SendFailed;
    }
    return Accepted;
  }

  /* ---------------- Properties of the handler ---------------- */

  /** A request missing name, email or message gets 400 and causes no send. */
  lemma MissingFieldsNoSend(req: Request, t1: bool, t2: bool)
    ensures !HasRequired(req) <==> Expected(req, t1, t2).response == MissingFields
    ensures !HasRequired(req) ==> Expected(req, t1, t2).attempts == []
  {
  }

  /** With the required fields present the first send goes from the fixed
      sender to the fixed operator address; if it returns, exactly one more
      send follows, from the same sender to the submitter's email. */
  lemma SendsInOrder(req: Request, t1: bool, t2: bool)
    requires HasRequired(req)
    ensures var run := Expected(req, t1, t2);
            |run.attempts| == (if t1 then 1 else 2)
            && run.attempts[0].email.from == FromEmail
            && run.attempts[0].email.to == ToEmail
            && run.attempts[0].email == Notification(req)
            && (!t1 ==> run.attempts[1].email.from == FromEmail
                        && run.attempts[1].email.to == req.email.value
                        && run.attempts[1].email == Confirmation(req))
  {
  }

  /** The answer is {success: true} exactly when neither send threw, and
      500 "Failed to send email" when either did. */
  lemma ResponseReflectsSends(req: Request, t1: bool, t2: bool)
    requires HasRequired(req)
    ensures var run := Expected(req, t1, t2);
            (run.response == Accepted <==> !t1 && !t2)
            && (run.response == SendFailed <==> t1 || t2)
            && (forall a :: a in run.attempts ==> a.threw ==> a == run.attempts[|run.attempts| - 1])
  {
  }

  /** The handler keeps no state between requests, so nothing is
      deduplicated: a second, identical request makes its sends again. */
  method PostTwice(req: Request, mailer: Mailer) returns (first: Response, second: Response)
    requires HasRequired(req)
    modifies mailer
    ensures first == Accepted && second == Accepted ==>
            mailer.log == old(mailer.log)
                          + [Attempt(Notification(req), false), Attempt(Confirmation(req), false)]
                          + [Attempt(Notification(req), false), Attempt(Confirmation(req), false)]
  {
    first := Post(req, mailer);
    ghost var mid := mailer.log;
    second := Post(req, mailer);
    if first == Accepted && second == Accepted {
      assert mid == old(mailer.log) + mid[|old(mailer.log)|..];
      assert mailer.log == mid + mailer.log[|mid|..];
    }
  }
}
