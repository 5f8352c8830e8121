/**
 * The purchase form of script.js: the submit listener of `initializeForm` (field validation and
 * disabling the submit button), `createOrderViaBackend` (order creation, the free branch and the
 * Razorpay checkout with its payment and dismiss callbacks), `verifyPaymentViaBackend`,
 * `sendBookViaBackend` and `showSuccessMessage`.
 *
 * The order backend, the Razorpay checkout and EmailJS are not modelled; what they answer is an
 * input of each step (`CreateOutcome`, `VerifyOutcome`, `EmailOutcome`, `GatewayResponse`), and
 * the requests made to them are recorded in the state. Each `await` is part of one atomic step.
 *
 * As in the navigators, the behaviour is given as transition functions on a `Form` value and as
 * the class `PurchaseForm`, whose methods are the script's functions.
 */
module Purchase {
  import opened Wrappers
  import opened JsString

  /** The trimmed name, email and WhatsApp number of a valid submission. */
  datatype Fields = Fields(name: string, email: string, whatsapp: string)

  /** Why the submit listener refuses a submission. */
  datatype Rejection = MissingField | InvalidEmail

  /** The validation of the submit listener on the raw field values: every trimmed field must be
    * non-empty, and the trimmed email must contain an `@`. */
  function Validate(name: string, email: string, whatsapp: string): (r: Result<Fields, Rejection>)
    ensures r.Ok? <==> Trim(name) != [] && Trim(email) != [] && Trim(whatsapp) != [] && '@' in Trim(email)
    ensures r.Ok? ==> r.value == Fields(Trim(name), Trim(email), Trim(whatsapp))
    ensures r == Err(MissingField) <==> Trim(name) == [] || Trim(email) == [] || Trim(whatsapp) == []
  {
    var n, e, w := Trim(name), Trim(email), Trim(whatsapp);
    if n == [] || e == [] || w == [] then Err(MissingField)
    else if IndexOf(e, '@') == -1 then Err(InvalidEmail)
    else Ok(Fields(n, e, w))
  }

  /** A field holding only white space counts as missing. */
  lemma BlankFieldRejected(name: string, email: string, whatsapp: string)
    requires (forall k :: 0 <= k < |name| ==> IsWhiteSpace(name[k]))
          || (forall k :: 0 <= k < |email| ==> IsWhiteSpace(email[k]))
          || (forall k :: 0 <= k < |whatsapp| ==> IsWhiteSpace(whatsapp[k]))
    ensures Validate(name, email, whatsapp) == Err(MissingField)
  {
    TrimEmptyIffBlank(name);
    TrimEmptyIffBlank(email);
    TrimEmptyIffBlank(whatsapp);
  }

  /** Validation is insensitive to surrounding white space: re-submitting the values it accepted
    * gives the same fields. */
  lemma ValidateAcceptsItsOwnFields(name: string, email: string, whatsapp: string)
    requires Validate(name, email, whatsapp).Ok?
    ensures var f := Validate(name, email, whatsapp).value;
      Validate(f.name, f.email, f.whatsapp) == Ok(f)
  {
    TrimIdempotent(name);
    TrimIdempotent(email);
    TrimIdempotent(whatsapp);
  }

  /** `amount * 100`: whole rupees as paise, the unit of the Razorpay checkout. */
  function ToPaise(amount: nat): (p: nat)
    ensures p % 100 == 0 && p / 100 == amount
  {
    amount * 100
  }

  const GetTheBook: string := "Get the Book"
  const Processing: string := "Processing..."
  const Currency: string := "INR"
  const MerchantName: string := "Code with Destiny"
  const Description: string := "Book Purchase"
  const Logo: string := "/public/images/image copy.png"
  const ThemeColor: string := "#B8462E"
  const EmailServiceId: string := "service_fg2hujo"
  const EmailTemplateId: string := "template_mbbw2cc"

  /** The JSON answer of the order endpoint. */
  datatype OrderData = OrderData(
    status: string,
    message: string,
    orderId: string,
    isFree: bool,
    razorpayKeyId: string,
    razorpayOrderId: string)

  /** The order request: an answer, or a thrown error (network failure, body not JSON). */
  datatype CreateOutcome = Replied(data: OrderData) | CreateThrew(message: string)

  /** The verification request: the status and message of an answer, or a thrown error. */
  datatype VerifyOutcome = VerifyReplied(status: string, message: string) | VerifyThrew(message: string)

  /** The `emailjs.send` call: the response status, or a thrown error. */
  datatype EmailOutcome = EmailStatus(code: int) | EmailThrew

  /** What the Razorpay checkout hands to the payment handler. */
  datatype GatewayResponse = GatewayResponse(razorpayOrderId: string, razorpayPaymentId: string, razorpaySignature: string)

  datatype Prefill = Prefill(name: string, email: string, contact: string)

  /** The options the Razorpay checkout is opened with (the callbacks are the methods below). */
  datatype CheckoutOptions = CheckoutOptions(
    key: string,
    amount: nat,
    currency: string,
    name: string,
    description: string,
    orderId: string,
    prefill: Prefill,
    image: string,
    themeColor: string)

  /** The requests sent to the three services. */
  datatype OrderRequest = OrderRequest(name: string, email: string, whatsapp: string, amount: nat)
  datatype VerifyRequest = VerifyRequest(razorpayOrderId: string, razorpayPaymentId: string, razorpaySignature: string, orderId: string)
  datatype EmailRequest = EmailRequest(serviceId: string, templateId: string, toEmail: string, userName: string, orderId: string, amount: nat)

  /** The alerts the flow raises. */
  datatype Alert =
    | FillAllFields
    | InvalidEmailAddress
    | OrderError(message: string)
    | VerificationFailed(message: string)
    | EmailDelayed

  /** The open checkout, with what its callbacks captured. */
  datatype PendingPayment = PendingPayment(options: CheckoutOptions, orderId: string, fields: Fields, amount: nat)

  /** The success panel: the email, and the WhatsApp line with its phone emoji. */
  datatype SuccessPanel = SuccessPanel(email: string, whatsappLine: string)

  /** How `createOrderViaBackend` continues after the order request. */
  datatype Branch =
    | OrderFailed(message: string)
    | FreeOrder(orderId: string)
    | PaidOrder(options: CheckoutOptions, orderId: string)

  /** The branch `createOrderViaBackend` takes. An order is free exactly when the backend
    * answers success and marks it free; the checkout is opened exactly for a successful,
    * non-free order when the Razorpay script is loaded, with the amount in paise, the gateway
    * key and order id from the answer, and the buyer's fields prefilled; everything else fails
    * with the backend's or the script's message. */
  function OrderBranch(f: Fields, amount: nat, created: CreateOutcome, razorpayLoaded: bool): (b: Branch)
    ensures b.FreeOrder? <==> created.Replied? && created.data.status == "success" && created.data.isFree
    ensures b.PaidOrder? <==> created.Replied? && created.data.status == "success" && !created.data.isFree && razorpayLoaded
    ensures b.FreeOrder? ==> b.orderId == created.data.orderId
    ensures b.PaidOrder? ==>
      && b.orderId == created.data.orderId
      && b.options.amount == ToPaise(amount) && b.options.currency == Currency
      && b.options.key == created.data.razorpayKeyId && b.options.orderId == created.data.razorpayOrderId
      && b.options.prefill == Prefill(f.name, f.email, f.whatsapp)
    ensures b.OrderFailed? && created.CreateThrew? ==> b.message == created.message
    ensures b.OrderFailed? && created.Replied? && created.data.status != "success" ==> b.message == created.data.message
  {
    match created
    case CreateThrew(m) => OrderFailed(m)
    case Replied(data) =>
      if data.status != "success" then OrderFailed(data.message)
      else if data.isFree then FreeOrder(data.orderId)
      else if razorpayLoaded then
        PaidOrder(CheckoutOptions(data.razorpayKeyId, ToPaise(amount), Currency, MerchantName, Description,
                                  data.razorpayOrderId, Prefill(f.name, f.email, f.whatsapp), Logo, ThemeColor),
                  data.orderId)
      else OrderFailed("Razorpay script not loaded")
  }

  /** The page and the requests made so far: the submit button, the form and the success panel,
    * the alerts shown, the requests sent to the backend and to EmailJS, and the open checkout. */
  datatype Form = Form(
    submitDisabled: bool,
    submitLabel: string,
    formVisible: bool,
    success: Option<SuccessPanel>,
    alerts: seq<Alert>,
    orderRequests: seq<OrderRequest>,
    verifyRequests: seq<VerifyRequest>,
    emailRequests: seq<EmailRequest>,
    checkout: Option<PendingPayment>)

  /** The invariant of the form between events. The submit button is disabled exactly while a
    * checkout is open or the purchase is complete, and its label says which; an open checkout
    * charges the amount in paise; the form and the success panel are never shown together; and
    * there are never more deliveries or verifications than order requests (an open checkout
    * counting as one still to come). */
  predicate Inv(s: Form)
  {
    && (s.submitDisabled <==> s.checkout.Some? || s.success.Some?)
    && s.submitLabel == (if s.submitDisabled then Processing else GetTheBook)
    && (s.checkout.Some? ==> s.formVisible && s.success.None?)
    && (s.checkout.Some? ==> s.checkout.value.options.amount == ToPaise(s.checkout.value.amount))
    && (s.success.Some? ==> !s.formVisible)
    && |s.emailRequests| + (if s.checkout.Some? then 1 else 0) <= |s.orderRequests|
    && |s.verifyRequests| + (if s.checkout.Some? then 1 else 0) <= |s.orderRequests|
  }

  /** The page as loaded: an enabled button, the form shown, nothing sent. */
  function Initial(): (s: Form)
    ensures Inv(s)
  {
    Form(false, GetTheBook, true, None, [], [], [], [], None)
  }

  /** `sendBookViaBackend`: one EmailJS request; a thrown error only raises the "book will be
    * sent shortly" alert, and no outcome reaches the caller as an error. */
  function AfterSendBook(s: Form, orderId: string, email: string, userName: string, amount: nat, delivery: EmailOutcome): (r: Form)
    ensures r.emailRequests == s.emailRequests + [EmailRequest(EmailServiceId, EmailTemplateId, email, userName, orderId, amount)]
    ensures r.alerts == s.alerts + (if delivery.EmailThrew? then [EmailDelayed] else [])
    ensures r.(emailRequests := s.emailRequests, alerts := s.alerts) == s
  {
    var s1 := s.(emailRequests := s.emailRequests + [EmailRequest(EmailServiceId, EmailTemplateId, email, userName, orderId, amount)]);
    if delivery.EmailThrew? then s1.(alerts := s1.alerts + [EmailDelayed]) else s1
  }

  /** `showSuccessMessage`: hide the form and fill in the success panel with the email and a
    * WhatsApp line that ends with the number; nothing else changes, the button included. */
  function AfterShowSuccess(s: Form, email: string, whatsapp: string): (r: Form)
    ensures !r.formVisible && r.success.Some? && r.success.value.email == email
    ensures r.success.value.whatsappLine == "\U{1F4F1} " + whatsapp && r.success.value.whatsappLine[2..] == whatsapp
    ensures r.(formVisible := s.formVisible, success := s.success) == s
  {
    s.(formVisible := false, success := Some(SuccessPanel(email, "\U{1F4F1} " + whatsapp)))
  }

  /** The `catch` of `createOrderViaBackend`: alert, re-enable the button, restore its label.
    * From the state in which an order is being created this is a valid resting state. */
  function AfterOrderError(s: Form, message: string): (r: Form)
    ensures !r.submitDisabled && r.submitLabel == GetTheBook
    ensures r.alerts == s.alerts + [OrderError(message)]
    ensures r.(alerts := s.alerts, submitDisabled := s.submitDisabled, submitLabel := s.submitLabel) == s
    ensures Creating(s) ==> Inv(r)
  {
    s.(alerts := s.alerts + [OrderError(message)], submitDisabled := false, submitLabel := GetTheBook)
  }

  /** The state in which `createOrderViaBackend` runs: the button was just disabled. */
  predicate Creating(s: Form)
  {
    && s.submitDisabled && s.submitLabel == Processing && s.formVisible
    && s.success.None? && s.checkout.None?
    && |s.emailRequests| <= |s.orderRequests| && |s.verifyRequests| <= |s.orderRequests|
  }

  /** `createOrderViaBackend`: one order request, then the branch of `OrderBranch`. */
  function AfterCreateOrder(s: Form, f: Fields, amount: nat, created: CreateOutcome, razorpayLoaded: bool, delivery: EmailOutcome): (r: Form)
    requires Creating(s)
    ensures Inv(r)
    ensures r.orderRequests == s.orderRequests + [OrderRequest(f.name, f.email, f.whatsapp, amount)]
    ensures r.verifyRequests == s.verifyRequests
  {
    var s1 := s.(orderRequests := s.orderRequests + [OrderRequest(f.name, f.email, f.whatsapp, amount)]);
    match OrderBranch(f, amount, created, razorpayLoaded)
    case OrderFailed(m) => AfterOrderError(s1, m)
    case FreeOrder(orderId) => AfterShowSuccess(AfterSendBook(s1, orderId, f.email, f.name, 0, delivery), f.email, f.whatsapp)
    case PaidOrder(options, orderId) => s1.(checkout := Some(PendingPayment(options, orderId, f, amount)))
  }

  /** The submit listener. The browser submits only a shown form whose submit button is enabled. */
  function AfterSubmit(s: Form, name: string, email: string, whatsapp: string, amount: nat,
                       created: CreateOutcome, razorpayLoaded: bool, delivery: EmailOutcome): (r: Form)
    requires Inv(s) && s.formVisible && !s.submitDisabled
    ensures Inv(r)
  {
    match Validate(name, email, whatsapp)
    case Err(MissingField) => s.(alerts := s.alerts + [FillAllFields])
    case Err(InvalidEmail) => s.(alerts := s.alerts + [InvalidEmailAddress])
    case Ok(f) => AfterCreateOrder(s.(submitDisabled := true, submitLabel := Processing), f, amount, created, razorpayLoaded, delivery)
  }

  /** `verifyPaymentViaBackend`: one verification request; the book is sent only when the
    * backend answers success, and every failure is caught here and only alerted. */
  function AfterVerifyPayment(s: Form, response: GatewayResponse, orderId: string, email: string, userName: string,
                              amount: nat, verify: VerifyOutcome, delivery: EmailOutcome): (r: Form)
    ensures r.verifyRequests == s.verifyRequests + [VerifyRequest(response.razorpayOrderId, response.razorpayPaymentId, response.razorpaySignature, orderId)]
    ensures |r.emailRequests| == |s.emailRequests| + (if verify == VerifyReplied("success", verify.message) then 1 else 0)
  {
    var s1 := s.(verifyRequests := s.verifyRequests + [VerifyRequest(response.razorpayOrderId, response.razorpayPaymentId, response.razorpaySignature, orderId)]);
    match verify
    case VerifyThrew(m) => s1.(alerts := s1.alerts + [VerificationFailed(m)])
    case VerifyReplied(status, m) =>
      if status != "success" then s1.(alerts := s1.alerts + [VerificationFailed(m)])
      else AfterSendBook(s1, orderId, email, userName, amount, delivery)
  }

  /** The checkout's payment handler: the checkout has closed; verify, then show the success
    * panel whatever the verification gave. */
  function AfterPayment(s: Form, response: GatewayResponse, verify: VerifyOutcome, delivery: EmailOutcome): (r: Form)
    requires Inv(s) && s.checkout.Some?
    ensures Inv(r)
  {
    var p := s.checkout.value;
    var s1 := AfterVerifyPayment(s.(checkout := None), response, p.orderId, p.fields.email, p.fields.name, p.amount, verify, delivery);
    AfterShowSuccess(s1, p.fields.email, p.fields.whatsapp)
  }

  /** The checkout's `ondismiss`: the checkout has closed; re-enable the button. */
  function AfterDismiss(s: Form): (r: Form)
    requires Inv(s) && s.checkout.Some?
    ensures Inv(r)
  {
    s.(checkout := None, submitDisabled := false, submitLabel := GetTheBook)
  }

  /** A rejected submission only raises its alert: the button stays enabled and no request is
    * sent. */
  lemma RejectionSendsNothing(s: Form, name: string, email: string, whatsapp: string, amount: nat,
                              created: CreateOutcome, razorpayLoaded: bool, delivery: EmailOutcome)
    requires Inv(s) && s.formVisible && !s.submitDisabled
    requires Validate(name, email, whatsapp).Err?
    ensures var r := AfterSubmit(s, name, email, whatsapp, amount, created, razorpayLoaded, delivery);
      && r == s.(alerts := r.alerts)
      && r.alerts == s.alerts + [if Validate(name, email, whatsapp).error == MissingField then FillAllFields else InvalidEmailAddress]
  {
  }

  /** An accepted submission disables the button and sends exactly one order request with the
    * trimmed fields; a free order sends the book with amount 0 and shows the success panel without
    * ever opening the checkout; a paid order opens the checkout with the backend's key and order
    * id, the prefill and `amount * 100` paise; a failed order re-enables the button; neither a
    * paid nor a failed order sends the book or leaves the form, and nothing is verified. */
  lemma AcceptedSubmission(s: Form, name: string, email: string, whatsapp: string, amount: nat,
                           created: CreateOutcome, razorpayLoaded: bool, delivery: EmailOutcome)
    requires Inv(s) && s.formVisible && !s.submitDisabled
    requires Validate(name, email, whatsapp).Ok?
    ensures var f := Validate(name, email, whatsapp).value;
      var r := AfterSubmit(s, name, email, whatsapp, amount, created, razorpayLoaded, delivery);
      var b := OrderBranch(f, amount, created, razorpayLoaded);
      && r.orderRequests == s.orderRequests + [OrderRequest(f.name, f.email, f.whatsapp, amount)]
      && (b.FreeOrder? ==>
            && r.checkout.None? && r.success == Some(SuccessPanel(f.email, "\U{1F4F1} " + f.whatsapp))
            && r.emailRequests == s.emailRequests + [EmailRequest(EmailServiceId, EmailTemplateId, f.email, f.name, b.orderId, 0)])
      && (b.PaidOrder? ==> r.checkout.Some? && r.checkout.value.options.amount == amount * 100 && r.submitDisabled
                           && r.emailRequests == s.emailRequests)
      && (b.PaidOrder? ==> r.checkout == Some(PendingPayment(b.options, b.orderId, f, amount)))
      && (b.OrderFailed? ==> !r.submitDisabled && r.checkout.None? && r.alerts == s.alerts + [OrderError(b.message)])
      && (b.OrderFailed? || b.PaidOrder? ==>
            r.emailRequests == s.emailRequests && r.success.None? && r.formVisible)
      && r.verifyRequests == s.verifyRequests
  {
  }

  /** After a payment the success panel is shown even when verification fails (the failure is
    * swallowed by `verifyPaymentViaBackend`), but the book is sent only when the backend
    * confirmed the payment, to the buyer's email, for the captured order and amount in rupees.
    * Exactly one verification request goes out, with the gateway's three ids and the captured
    * order id, and no new order is requested. */
  lemma PaymentAlwaysShowsSuccess(s: Form, response: GatewayResponse, verify: VerifyOutcome, delivery: EmailOutcome)
    requires Inv(s) && s.checkout.Some?
    ensures var r := AfterPayment(s, response, verify, delivery);
      var p := s.checkout.value;
      && r.success == Some(SuccessPanel(p.fields.email, "\U{1F4F1} " + p.fields.whatsapp))
      && r.checkout.None? && r.submitDisabled
      && r.verifyRequests == s.verifyRequests + [VerifyRequest(response.razorpayOrderId, response.razorpayPaymentId, response.razorpaySignature, p.orderId)]
      && r.orderRequests == s.orderRequests
      && (verify.VerifyReplied? && verify.status == "success" ==>
            r.emailRequests == s.emailRequests + [EmailRequest(EmailServiceId, EmailTemplateId, p.fields.email, p.fields.name, p.orderId, p.amount)])
      && (!(verify.VerifyReplied? && verify.status == "success") ==>
            r.emailRequests == s.emailRequests && VerificationFailed(verify.message) in r.alerts)
  {
  }

  /** Dismissing the checkout re-enables the button and sends nothing. */
  lemma DismissReenablesSubmit(s: Form)
    requires Inv(s) && s.checkout.Some?
    ensures var r := AfterDismiss(s);
      && !r.submitDisabled && r.submitLabel == GetTheBook && r.formVisible && r.checkout.None?
      && r.orderRequests == s.orderRequests && r.verifyRequests == s.verifyRequests && r.emailRequests == s.emailRequests
  {
  }

  /** The events of the purchase flow: a submission with what the services answer, a payment
    * completed in the checkout, or the checkout dismissed. An event the page cannot deliver in
    * the current state (a submit while the button is disabled, a checkout callback with no
    * checkout open) changes nothing. */
  datatype Event =
    | Submitted(name: string, email: string, whatsapp: string, amount: nat,
                created: CreateOutcome, razorpayLoaded: bool, delivery: EmailOutcome)
    | Paid(response: GatewayResponse, verify: VerifyOutcome, delivery: EmailOutcome)
    | Dismissed

  function Step(s: Form, e: Event): (r: Form)
    requires Inv(s)
    ensures Inv(r)
  {
    match e
    case Submitted(n, em, w, a, c, l, d) =>
      if s.formVisible && !s.submitDisabled then AfterSubmit(s, n, em, w, a, c, l, d) else s
    case Paid(resp, v, d) => if s.checkout.Some? then AfterPayment(s, resp, v, d) else s
    case Dismissed => if s.checkout.Some? then AfterDismiss(s) else s
  }

  /** Any sequence of events keeps the invariant: in particular there are never more deliveries
    * or verifications than order requests, and the submit button is never left disabled unless a checkout is open or
    * the purchase is complete. */
  function Run(s: Form, events: seq<Event>): (r: Form)
    requires Inv(s)
    ensures Inv(r)
    decreases |events|
  {
    if events == [] then s else Run(Step(s, events[0]), events[1..])
  }

  /** Once the success panel is shown, no further event changes the page or sends anything. */
  lemma {:induction false} SuccessIsFinal(s: Form, events: seq<Event>)
    requires Inv(s) && s.success.Some?
    ensures Run(s, events) == s
    decreases |events|
  {
    if events != [] {
      assert Step(s, events[0]) == s;
      SuccessIsFinal(s, events[1..]);
    }
  }

  /** A string that neither starts nor ends with white space is its own `trim`. */
  lemma TrimKeepsUnpadded(s: string)
    requires s != [] && !IsWhiteSpace(s[0]) && !IsWhiteSpace(s[|s| - 1])
    ensures Trim(s) == s
  {
    assert TrimStart(s) == s;
  }

  /** Values without surrounding white space are accepted as they are when the email has an `@`. */
  lemma ValidateUnpadded(name: string, email: string, whatsapp: string)
    requires name != [] && !IsWhiteSpace(name[0]) && !IsWhiteSpace(name[|name| - 1])
    requires email != [] && !IsWhiteSpace(email[0]) && !IsWhiteSpace(email[|email| - 1])
    requires whatsapp != [] && !IsWhiteSpace(whatsapp[0]) && !IsWhiteSpace(whatsapp[|whatsapp| - 1])
    requires '@' in email
    ensures Validate(name, email, whatsapp) == Ok(Fields(name, email, whatsapp))
  {
    TrimKeepsUnpadded(name);
    TrimKeepsUnpadded(email);
    TrimKeepsUnpadded(whatsapp);
  }

  /** The free-order example: Alice submits with amount 0, the backend answers a free order,
    * and the book is sent once to alice@example.com with amount 0 before the success panel
    * shows her email. */
  lemma FreeOrderExample(name: string, email: string, whatsapp: string, orderId: string, delivery: EmailOutcome)
    requires name == "Alice" && email == "alice@example.com" && whatsapp == "9999999999"
    ensures var r := AfterSubmit(Initial(), name, email, whatsapp, 0,
                                 Replied(OrderData("success", "", orderId, true, "", "")), false, delivery);
      && r.emailRequests == [EmailRequest(EmailServiceId, EmailTemplateId, email, name, orderId, 0)]
      && r.orderRequests == [OrderRequest(name, email, whatsapp, 0)]
      && r.success == Some(SuccessPanel(email, "\U{1F4F1} " + whatsapp))
      && r.checkout.None?
  {
    assert email[5] == '@';
    ValidateUnpadded(name, email, whatsapp);
    var created := Replied(OrderData("success", "", orderId, true, "", ""));
    AcceptedSubmission(Initial(), name, email, whatsapp, 0, created, false, delivery);
  }

  /** The purchase form as the script drives it. */
  class PurchaseForm {
    var submitDisabled: bool
    var submitLabel: string
    var formVisible: bool
    var success: Option<SuccessPanel>
    var alerts: seq<Alert>
    var orderRequests: seq<OrderRequest>
    var verifyRequests: seq<VerifyRequest>
    var emailRequests: seq<EmailRequest>
    var checkout: Option<PendingPayment>

    function State(): Form
      reads this
    {
      Form(submitDisabled, submitLabel, formVisible, success, alerts, orderRequests, verifyRequests, emailRequests, checkout)
    }

    predicate Valid()
      reads this
    {
      Inv(State())
    }

    constructor ()
      ensures Valid() && State() == Initial()
    {
      submitDisabled := false;
      submitLabel := GetTheBook;
      formVisible := true;
      success := None;
      alerts := [];
      orderRequests := [];
      verifyRequests := [];
      emailRequests := [];
      checkout := None;
    }

    /** The submit listener of `initializeForm`. */
    method Submit(rawName: string, rawEmail: string, rawWhatsapp: string, amount: nat,
                  created: CreateOutcome, razorpayLoaded: bool, delivery: EmailOutcome)
      requires Valid() && formVisible && !submitDisabled
      modifies this
      ensures State() == AfterSubmit(old(State()), rawName, rawEmail, rawWhatsapp, amount, created, razorpayLoaded, delivery)
      ensures Valid()
    {
      ghost var s0 := State();
      var checked := Validate(rawName, rawEmail, rawWhatsapp);
      match checked
      case Err(MissingField) =>
        alerts := alerts + [FillAllFields];
      case Err(InvalidEmail) =>
        alerts := alerts + [InvalidEmailAddress];
      case Ok(f) =>
        DisableSubmit();
        assert AfterSubmit(s0, rawName, rawEmail, rawWhatsapp, amount, created, razorpayLoaded, delivery)
            == AfterCreateOrder(State(), f, amount, created, razorpayLoaded, delivery);
        CreateOrderViaBackend(f.name, f.email, f.whatsapp, amount, created, razorpayLoaded, delivery);
    }

    /** Disables the submit button and relabels it while the order is being created. */
    method DisableSubmit()
      requires Valid() && formVisible && !submitDisabled
      modifies this
      ensures State() == old(State()).(submitDisabled := true, submitLabel := Processing)
      ensures Creating(State())
    {
      submitDisabled := true;
      submitLabel := Processing;
    }

    /** `createOrderViaBackend`. */
    method CreateOrderViaBackend(name: string, email: string, whatsapp: string, amount: nat,
                                 created: CreateOutcome, razorpayLoaded: bool, delivery: EmailOutcome)
      requires Creating(State())
      modifies this
      ensures State() == AfterCreateOrder(old(State()), Fields(name, email, whatsapp), amount, created, razorpayLoaded, delivery)
    {
      orderRequests := orderRequests + [OrderRequest(name, email, whatsapp, amount)];
      if created.CreateThrew? {
        ReportError(created.message);
        return;
      }
      var orderData := created.data;
      if orderData.status != "success" {
        ReportError(orderData.message);
        return;
      }
      var orderId := orderData.orderId;
      if orderData.isFree {
        var _ := SendBookViaBackend(orderId, email, name, 0, delivery);
        ShowSuccessMessage(email, whatsapp);
        return;
      }
      var options := CheckoutOptions(orderData.razorpayKeyId, amount * 100, Currency, MerchantName, Description,
                                     orderData.razorpayOrderId, Prefill(name, email, whatsapp), Logo, ThemeColor);
      if razorpayLoaded {
        checkout := Some(PendingPayment(options, orderId, Fields(name, email, whatsapp), amount));
      } else {
        ReportError("Razorpay script not loaded");
      }
    }

    /** The `catch` block of `createOrderViaBackend`. */
    method ReportError(message: string)
      modifies this
      ensures State() == AfterOrderError(old(State()), message)
    {
      alerts := alerts + [OrderError(message)];
      submitDisabled := false;
      submitLabel := GetTheBook;
    }

    /** `sendBookViaBackend`; the result says whether EmailJS answered status 200. */
    method SendBookViaBackend(orderId: string, email: string, userName: string, amount: nat, delivery: EmailOutcome)
      returns (sent: bool)
      modifies this
      ensures State() == AfterSendBook(old(State()), orderId, email, userName, amount, delivery)
      ensures sent <==> delivery == EmailStatus(200)
    {
      emailRequests := emailRequests + [EmailRequest(EmailServiceId, EmailTemplateId, email, userName, orderId, amount)];
      match delivery
      case EmailThrew =>
        alerts := alerts + [EmailDelayed];
        sent := false;
      case EmailStatus(code) =>
        sent := code == 200;
    }

    /** `verifyPaymentViaBackend`. */
    method VerifyPaymentViaBackend(response: GatewayResponse, orderId: string, email: string, userName: string,
                                   amount: nat, verify: VerifyOutcome, delivery: EmailOutcome)
      modifies this
      ensures State() == AfterVerifyPayment(old(State()), response, orderId, email, userName, amount, verify, delivery)
    {
      verifyRequests := verifyRequests + [VerifyRequest(response.razorpayOrderId, response.razorpayPaymentId, response.razorpaySignature, orderId)];
      if verify.VerifyThrew? {
        alerts := alerts + [VerificationFailed(verify.message)];
        return;
      }
      if verify.status != "success" {
        alerts := alerts + [VerificationFailed(verify.message)];
        return;
      }
      var _ := SendBookViaBackend(orderId, email, userName, amount, delivery);
    }

    /** `showSuccessMessage`. */
    method ShowSuccessMessage(email: string, whatsapp: string)
      modifies this
      ensures State() == AfterShowSuccess(old(State()), email, whatsapp)
    {
      formVisible := false;
      success := Some(SuccessPanel(email, "\U{1F4F1} " + whatsapp));
    }

    /** The checkout's `handler`, called once the payment went through. */
    method OnPayment(response: GatewayResponse, verify: VerifyOutcome, delivery: EmailOutcome)
      requires Valid() && checkout.Some?
      modifies this
      ensures Valid() && State() == AfterPayment(old(State()), response, verify, delivery)
    {
      var pending := checkout.value;
      checkout := None;
      VerifyPaymentViaBackend(response, pending.orderId, pending.fields.email, pending.fields.name,
                              pending.amount, verify, delivery);
      ShowSuccessMessage(pending.fields.email, pending.fields.whatsapp);
    }

    /** The checkout's `modal.ondismiss`. */
    method OnDismiss()
      requires Valid() && checkout.Some?
      modifies this
      ensures Valid() && State() == AfterDismiss(old(State()))
    {
      checkout := None;
      submitDisabled := false;
      submitLabel := GetTheBook;
    }
  }
}
